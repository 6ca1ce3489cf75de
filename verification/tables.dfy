/** The table object both the doctor report and `display_columns` fill in:
    columns are added one by one, then rows are appended in order. Styling,
    wrapping and rendering are not modelled. */
module Tables {

  datatype Justify = Left | Center | Right

  /** A column: its header text and how its cells are justified. */
  datatype Column = Column(header: string, justify: Justify)

  /** How the table is framed: a titled table, a rounded box, or a bare grid. */
  datatype Frame = Titled(title: string) | Rounded | Grid

  class Table<T> {
    const frame: Frame
    var columns: seq<Column>
    var rows: seq<T>

    constructor(frame: Frame)
      ensures this.frame == frame && columns == [] && rows == []
    {
      this.frame := frame;
      columns := [];
      rows := [];
    }

    /** `table.add_column(...)`: one more column at the right. */
    method AddColumn(c: Column)
      modifies this
      ensures columns == old(columns) + [c] && rows == old(rows)
    {
      columns := columns + [c];
    }

    /** `table.add_row(...)`: one more row at the bottom. */
    method AddRow(r: T)
      modifies this
      ensures rows == old(rows) + [r] && columns == old(columns)
    {
      rows := rows + [r];
    }
  }
}
