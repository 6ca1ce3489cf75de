/** The decisions the terminal UI makes: which messages are printed at which
    verbosity, how a column header's prefix sets its justification, which
    spinner is opened, and what the prompts return when they cannot or need
    not ask. Whether the terminal is interactive, and the user's answers, are
    inputs; drawing on the terminal is not modelled. */
module TermUI {
  import opened Results
  import opened Tables
  import opened Decimal

  /** `Verbosity`, an integer enumeration ordered as its values. */
  newtype Verbosity = v: int | -1 <= v <= 2

  const QUIET: Verbosity := -1
  const NORMAL: Verbosity := 0
  const DETAIL: Verbosity := 1
  const DEBUG: Verbosity := 2

  /** `Verbosity(v)`: the member with value `v`; any other integer raises `ValueError`. */
  function ToVerbosity(v: int): (r: Result<Verbosity, PyError>)
    ensures r.Ok? <==> v in {-1, 0, 1, 2}
    ensures r.Ok? ==> r.value as int == v
    ensures r.Err? ==> r.error == ValueError
  {
    if -1 <= v <= 2 then Ok(v as Verbosity) else Err(ValueError)
  }

  /** `confirm(...)`: without an interactive terminal the default (False
      unless one is given) is returned without asking; otherwise the answer
      the prompt returns. */
  function Confirm(interactive: bool, default: Option<bool>, answer: bool): (r: bool)
    ensures !interactive ==> r == default.GetOr(false)
    ensures interactive ==> r == answer
  {
    if !interactive then default.GetOr(false) else answer
  }

  /** The `prompt_type` argument of `ask`: absent, `str`, `int`, or any other type. */
  datatype PromptType = NoType | StrType | IntType | OtherType(name: string)

  /** `ask(...)`: a text prompt for no type or `str`, an integer prompt whose
      answer is returned as its decimal text for `int`, and `ValueError` for
      any other type. The answers the prompts return are inputs. */
  function Ask(promptType: PromptType, textAnswer: string, intAnswer: int): (r: Result<string, PyError>)
    ensures r.Err? <==> promptType.OtherType?
    ensures r.Err? ==> r.error == ValueError
    ensures promptType.NoType? || promptType.StrType? ==> r == Ok(textAnswer)
    ensures promptType.IntType? ==> r == Ok(IntToString(intAnswer))
    ensures promptType.IntType? ==> ParseInt(r.value) == Some(intAnswer)
  {
    match promptType
    case NoType => Ok(textAnswer)
    case StrType => Ok(textAnswer)
    case IntType => ParseIntToString(intAnswer); Ok(IntToString(intAnswer))
    case OtherType(_) => Err(ValueError)
  }

  /** The column a header title in `display_columns` describes: a leading '^'
      centres it, a leading '>' right-justifies it, and both markers are
      dropped; any other title is left-justified as it is. `title[0]` of an
      empty title raises `IndexError`. */
  function ParseHeader(title: string): (r: Result<Column, PyError>)
    ensures r.Err? <==> title == ""
    ensures r.Err? ==> r.error == IndexError
  {
    if |title| == 0 then Err(IndexError)
    else if title[0] == '^' then Ok(Column(title[1..], Center))
    else if title[0] == '>' then Ok(Column(title[1..], Right))
    else Ok(Column(title, Left))
  }

  /** The header title that describes a column: its text behind the marker
      of its justification. */
  function HeaderText(c: Column): string {
    match c.justify
    case Center => "^" + c.header
    case Right => ">" + c.header
    case Left => c.header
  }

  /** A column can be written as a header title exactly when it is centred or
      right-justified, or its text is not empty and does not itself start
      with a marker. */
  predicate Expressible(c: Column) {
    c.justify != Left || (|c.header| > 0 && c.header[0] != '^' && c.header[0] != '>')
  }

  /** Parsing is the inverse of writing: a title parses to a column that
      writes back as that same title, and every expressible column is what
      its own title parses to. */
  lemma ParseHeaderInverse(title: string, c: Column)
    ensures ParseHeader(title) == Ok(c) ==> HeaderText(c) == title && Expressible(c)
    ensures Expressible(c) ==> ParseHeader(HeaderText(c)) == Ok(c)
  {
    if ParseHeader(title) == Ok(c) && c.justify != Left {
      assert title == [title[0]] + title[1..];
    }
    if Expressible(c) && c.justify != Left {
      assert HeaderText(c)[1..] == c.header;
    }
  }

  /** `if header:` — a header that is given and not empty. */
  predicate HasHeader(header: Option<seq<string>>) {
    header.Some? && |header.value| > 0
  }

  /** What `display_columns` hands to the printer. */
  datatype Printed = Printed(frame: Frame, columns: seq<Column>, rows: seq<seq<string>>)

  /** `display_columns(rows, header)`: with a header, a rounded table with one
      column per title, justified by its prefix; without one, a grid with one
      plain column per cell of the first row, so no rows at all raises
      `IndexError`. All rows are then added in order. */
  method DisplayColumns(rows: seq<seq<string>>, header: Option<seq<string>>) returns (r: Result<Printed, PyError>)
    ensures r.Err? ==> r.error == IndexError
    ensures r.Ok? ==> r.value.rows == rows
    ensures HasHeader(header) ==> (r.Ok? <==> forall k :: 0 <= k < |header.value| ==> header.value[k] != "")
    ensures HasHeader(header) && r.Ok? ==>
      && r.value.frame == Rounded
      && |r.value.columns| == |header.value|
      && forall k :: 0 <= k < |header.value| ==> ParseHeader(header.value[k]) == Ok(r.value.columns[k])
    ensures !HasHeader(header) ==> (r.Ok? <==> |rows| > 0)
    ensures !HasHeader(header) && r.Ok? ==>
      && r.value.frame == Grid
      && r.value.columns == seq(|rows[0]|, _ => Column("", Left))
  {
    var table: Table<seq<string>>;
    if HasHeader(header) {
      var titles := header.value;
      table := new Table(Rounded);
      var i := 0;
      while i < |titles|
        invariant 0 <= i <= |titles|
        invariant table.frame == Rounded && table.rows == []
        invariant |table.columns| == i
        invariant forall k :: 0 <= k < i ==> titles[k] != "" && ParseHeader(titles[k]) == Ok(table.columns[k])
      {
        var title := titles[i];
        if |title| == 0 {
          return Err(IndexError);
        }
        var column;
        if title[0] == '^' {
          column := Column(title[1..], Center);
        } else if title[0] == '>' {
          column := Column(title[1..], Right);
        } else {
          column := Column(title, Left);
        }
        table.AddColumn(column);
        i := i + 1;
      }
    } else {
      if |rows| == 0 {
        return Err(IndexError);
      }
      table := new Table(Grid);
      var i := 0;
      while i < |rows[0]|
        invariant 0 <= i <= |rows[0]|
        invariant table.frame == Grid && table.rows == []
        invariant table.columns == seq(i, _ => Column("", Left))
      {
        table.AddColumn(Column("", Left));
        i := i + 1;
      }
    }
    ghost var columns := table.columns;
    var n := 0;
    while n < |rows|
      invariant 0 <= n <= |rows|
      invariant table.rows == rows[..n]
      invariant table.columns == columns
    {
      table.AddRow(rows[n]);
      n := n + 1;
    }
    r := Ok(Printed(table.frame, table.columns, table.rows));
  }

  datatype Stream = Stdout | Stderr

  /** One message written to a console stream. */
  datatype Emission = Emission(stream: Stream, text: string)

  /** The spinner `open_spinner` opens: a plain status line or rich's animated one. */
  datatype Spinner = DummySpinner | StatusSpinner(title: string)

  /** The terminal UI object; its only state is the current verbosity. */
  class UI {
    var verbosity: Verbosity

    constructor(verbosity: Verbosity := NORMAL)
      ensures this.verbosity == verbosity
    {
      this.verbosity := verbosity;
    }

    /** `set_verbosity(v)`: stores `Verbosity(v)`; an integer outside -1..2
        raises `ValueError` before anything is stored. */
    method SetVerbosity(v: int) returns (raised: Option<PyError>)
      modifies this
      ensures raised.None? <==> -1 <= v <= 2
      ensures raised.None? ==> verbosity as int == v
      ensures raised.Some? ==> raised.value == ValueError && verbosity == old(verbosity)
    {
      var r := ToVerbosity(v);
      if r.Err? {
        return Some(r.error);
      }
      verbosity := r.value;
      raised := None;
    }

    /** `echo(message, err, verbosity)`: the message is printed, to standard
        error when `err` is set, exactly when the UI's verbosity reaches the
        message's threshold (QUIET unless given). */
    function Echo(message: string := "", err: bool := false, threshold: Verbosity := QUIET): (r: Option<Emission>)
      reads this
      ensures r.Some? <==> verbosity >= threshold
      ensures r.Some? ==> r.value.text == message && (r.value.stream == Stderr <==> err)
    {
      if verbosity >= threshold then Some(Emission(if err then Stderr else Stdout, message)) else None
    }

    /** `info(message)`: an "INFO:" line on standard error, shown from NORMAL up by default. */
    function Info(message: string, threshold: Verbosity := NORMAL): (r: Option<Emission>)
      reads this
      ensures r.Some? <==> verbosity >= threshold
      ensures r.Some? ==> r.value == Emission(Stderr, "INFO: " + message)
    {
      Echo("INFO: " + message, true, threshold)
    }

    /** `deprecated(message)`: a "DEPRECATED:" line on standard error, shown from NORMAL up by default. */
    function Deprecated(message: string, threshold: Verbosity := NORMAL): (r: Option<Emission>)
      reads this
      ensures r.Some? <==> verbosity >= threshold
      ensures r.Some? ==> r.value == Emission(Stderr, "DEPRECATED: " + message)
    {
      Echo("DEPRECATED: " + message, true, threshold)
    }

    /** `warn(message)`: a "WARNING:" line on standard error, shown from NORMAL up by default. */
    function Warn(message: string, threshold: Verbosity := NORMAL): (r: Option<Emission>)
      reads this
      ensures r.Some? <==> verbosity >= threshold
      ensures r.Some? ==> r.value == Emission(Stderr, "WARNING: " + message)
    {
      Echo("WARNING: " + message, true, threshold)
    }

    /** `error(message)`: an "ERROR:" line on standard error, shown at every
        verbosity by default. */
    function Error(message: string, threshold: Verbosity := QUIET): (r: Option<Emission>)
      reads this
      ensures r.Some? <==> verbosity >= threshold
      ensures r.Some? ==> r.value == Emission(Stderr, "ERROR: " + message)
    {
      Echo("ERROR: " + message, true, threshold)
    }

    /** `open_spinner(title)`: the plain status spinner when the UI is at
        DETAIL or above or the terminal is not interactive, rich's animated
        status otherwise. */
    function OpenSpinner(title: string, interactive: bool): (r: Spinner)
      reads this
      ensures r == DummySpinner <==> verbosity >= DETAIL || !interactive
      ensures r != DummySpinner ==> r == StatusSpinner(title)
    {
      if verbosity >= DETAIL || !interactive then DummySpinner else StatusSpinner(title)
    }

    /** `make_progress(...)`: whether the progress display is disabled, which
        it is from DETAIL up. */
    function ProgressDisabled(): (r: bool)
      reads this
      ensures r <==> verbosity >= DETAIL
    {
      verbosity >= DETAIL
    }
  }

  /** With the default thresholds, an error is printed at every verbosity,
      and info, warnings and deprecations are printed exactly when the UI is
      not QUIET. */
  lemma DefaultThresholds(ui: UI, message: string)
    ensures ui.Error(message).Some?
    ensures ui.Info(message).Some? <==> ui.verbosity != QUIET
    ensures ui.Warn(message).Some? <==> ui.verbosity != QUIET
    ensures ui.Deprecated(message).Some? <==> ui.verbosity != QUIET
  {
  }

  /** Raising the verbosity never hides a message that was shown. */
  lemma EchoMonotone(lo: UI, hi: UI, message: string, err: bool, threshold: Verbosity)
    requires lo.verbosity <= hi.verbosity
    ensures lo.Echo(message, err, threshold).Some? ==> hi.Echo(message, err, threshold).Some?
  {
  }
}
