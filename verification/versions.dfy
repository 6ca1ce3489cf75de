/** The part of PEP 440 version handling the doctor's version checks use:
    versions made only of a release segment, dotted non-negative integers
    such as "20.10.7" ("Final releases" in PEP 440). Parsing reads each
    component as a decimal integer; ordering compares component by component,
    numerically, treating missing trailing components as zero. */
module Versions {
  import opened Results
  import opened Decimal

  /** A release segment: "1.29.2" is [1, 29, 2]. */
  type Release = seq<nat>

  /** `s.split(".")`: the pieces between dots, empty pieces included. */
  function Split(s: string): (parts: seq<string>)
    ensures |parts| > 0
    ensures forall k :: 0 <= k < |parts| ==> '.' !in parts[k]
  {
    if |s| == 0 then [""]
    else
      var rest := Split(s[1..]);
      if s[0] == '.' then [""] + rest else [[s[0]] + rest[0]] + rest[1..]
  }

  /** `".".join(parts)`. */
  function Join(parts: seq<string>): string
    requires |parts| > 0
  {
    if |parts| == 1 then parts[0] else parts[0] + "." + Join(parts[1..])
  }

  /** Reads each piece as a decimal integer; `None` when a piece is empty or
      holds a character other than a digit. */
  function ParseParts(parts: seq<string>): (r: Option<Release>)
    ensures r.Some? <==> forall k :: 0 <= k < |parts| ==> IsDigits(parts[k])
    ensures r.Some? ==> |r.value| == |parts|
    ensures r.Some? ==> forall k :: 0 <= k < |parts| ==> IsDigits(parts[k]) && r.value[k] == DigitsValue(parts[k])
  {
    if |parts| == 0 then Some([])
    else if !IsDigits(parts[0]) then None
    else match ParseParts(parts[1..])
      case None => None
      case Some(rest) => Some([DigitsValue(parts[0])] + rest)
  }

  /** `version.parse(s)` on a release-only version: one or more dotted
      decimal integers. Every other string raises `InvalidVersion`. */
  function Parse(s: string): (r: Result<Release, PyError>)
    ensures r.Ok? <==> forall k :: 0 <= k < |Split(s)| ==> IsDigits(Split(s)[k])
    ensures r.Ok? ==> |r.value| == |Split(s)| > 0
    ensures r.Ok? ==> forall k :: 0 <= k < |Split(s)| ==> IsDigits(Split(s)[k]) && r.value[k] == DigitsValue(Split(s)[k])
    ensures r.Err? ==> r.error == InvalidVersion(s)
  {
    var parts := Split(s);
    var read := ParseParts(parts);
    if read.Some? then Ok(read.value) else Err(InvalidVersion(s))
  }

  /** `str(v)`: the components written in decimal, joined by dots. */
  function Format(v: Release): string
    requires |v| > 0
  {
    Join(seq(|v|, i requires 0 <= i < |v| => NatToString(v[i])))
  }

  lemma {:induction false} SplitNoDot(p: string)
    requires '.' !in p
    ensures Split(p) == [p]
  {
    if |p| > 0 {
      SplitNoDot(p[1..]);
      assert [p[0]] + p[1..] == p;
    }
  }

  lemma {:induction false} SplitDot(p: string, rest: string)
    requires '.' !in p
    ensures Split(p + "." + rest) == [p] + Split(rest)
  {
    if |p| == 0 {
      assert p + "." + rest == "." + rest;
      assert ("." + rest)[1..] == rest;
    } else {
      var s := p + "." + rest;
      assert s[1..] == p[1..] + "." + rest;
      SplitDot(p[1..], rest);
      assert [p[0]] + p[1..] == p;
    }
  }

  /** Joining the pieces of a split gives the text back: with the pieces
      being dot-free, this fixes `Split(s)` as the one dot-free
      decomposition of `s`. */
  lemma {:induction false} JoinSplit(s: string)
    ensures Join(Split(s)) == s
  {
    if |s| > 0 {
      var rest := Split(s[1..]);
      JoinSplit(s[1..]);
      if s[0] == '.' {
        assert ([""] + rest)[1..] == rest;
      } else {
        JoinHead(rest);
        var head := [s[0]] + rest[0];
        var pieces := [head] + rest[1..];
        assert pieces[1..] == rest[1..];
        assert [s[0]] + s[1..] == s;
      }
    }
  }

  lemma JoinHead(parts: seq<string>)
    requires |parts| > 0
    ensures Join(parts) == parts[0] + (if |parts| == 1 then "" else "." + Join(parts[1..]))
  {
  }

  /** Splitting a join of dot-free pieces gives the pieces back. */
  lemma {:induction false} SplitJoin(parts: seq<string>)
    requires |parts| > 0
    requires forall k :: 0 <= k < |parts| ==> '.' !in parts[k]
    ensures Split(Join(parts)) == parts
  {
    if |parts| == 1 {
      SplitNoDot(parts[0]);
    } else {
      SplitJoin(parts[1..]);
      SplitDot(parts[0], Join(parts[1..]));
      assert [parts[0]] + parts[1..] == parts;
    }
  }

  lemma {:induction false} ParsePartsNumerals(v: Release)
    ensures ParseParts(seq(|v|, i requires 0 <= i < |v| => NatToString(v[i]))) == Some(v)
  {
    var parts := seq(|v|, i requires 0 <= i < |v| => NatToString(v[i]));
    if |v| > 0 {
      assert parts[1..] == seq(|v[1..]|, i requires 0 <= i < |v[1..]| => NatToString(v[1..][i]));
      ParsePartsNumerals(v[1..]);
      DigitsValueNatToString(v[0]);
      assert [v[0]] + v[1..] == v;
    }
  }

  /** Parsing the printed form of a release gives that release back. */
  lemma ParseFormat(v: Release)
    requires |v| > 0
    ensures Parse(Format(v)) == Ok(v)
  {
    var parts := seq(|v|, i requires 0 <= i < |v| => NatToString(v[i]));
    forall k | 0 <= k < |parts|
      ensures '.' !in parts[k]
    {
      assert IsDigits(parts[k]);
    }
    SplitJoin(parts);
    ParsePartsNumerals(v);
  }

  /** The component at the front, zero when there is none. */
  function Head(v: Release): nat {
    if |v| > 0 then v[0] else 0
  }

  function Tail(v: Release): Release {
    if |v| > 0 then v[1..] else []
  }

  /** Three-way comparison of two releases: -1, 0 or 1 as `a` is older than,
      the same as, or newer than `b`. The shorter one is padded with zeros. */
  function Compare(a: Release, b: Release): (c: int)
    ensures -1 <= c <= 1
    decreases |a| + |b|
  {
    if |a| == 0 && |b| == 0 then 0
    else if Head(a) < Head(b) then -1
    else if Head(a) > Head(b) then 1
    else Compare(Tail(a), Tail(b))
  }

  /** `parse(current) >= parse(required)`: `packaging`'s comparison, which
      orders releases as tuples once their trailing zeros are removed. */
  predicate AtLeast(current: Release, required: Release)
    ensures AtLeast(current, required) <==> TupleCompare(Canonical(current), Canonical(required)) >= 0
  {
    CompareIsTupleOrderOfCanonical(current, required);
    Compare(current, required) >= 0
  }

  lemma {:induction false} CompareReflexive(a: Release)
    ensures Compare(a, a) == 0
    decreases |a|
  {
    if |a| > 0 {
      CompareReflexive(Tail(a));
    }
  }

  /** Swapping the operands negates the comparison. */
  lemma {:induction false} CompareAntisymmetric(a: Release, b: Release)
    ensures Compare(a, b) == -Compare(b, a)
    decreases |a| + |b|
  {
    if !(|a| == 0 && |b| == 0) && Head(a) == Head(b) {
      CompareAntisymmetric(Tail(a), Tail(b));
    }
  }

  /** The ordering is transitive. */
  lemma {:induction false} CompareTransitive(a: Release, b: Release, c: Release)
    requires Compare(a, b) <= 0 && Compare(b, c) <= 0
    ensures Compare(a, c) <= 0
    decreases |a| + |b| + |c|
  {
    if !(|a| == 0 && |b| == 0 && |c| == 0) && Head(a) == Head(b) == Head(c) {
      if |a| == 0 && |b| == 0 {
        assert Compare(a, b) == 0;
        CompareReflexive(a);
      }
      if |b| == 0 && |c| == 0 {
        assert Compare(b, c) == 0;
      }
      CompareTransitive(Tail(a), Tail(b), Tail(c));
    }
  }

  /** A trailing zero component changes nothing: "1.0" and "1" are the same version. */
  lemma {:induction false} CompareTrailingZero(a: Release, b: Release)
    ensures Compare(a + [0], b) == Compare(a, b)
    decreases |a| + |b|
  {
    if |a| == 0 {
      assert Head(a + [0]) == 0 && Tail(a + [0]) == [];
      if |b| > 0 && Head(b) == 0 {
        CompareEmptyZero(Tail(b));
      }
    } else {
      assert Head(a + [0]) == Head(a);
      assert Tail(a + [0]) == Tail(a) + [0];
      if Head(a) == Head(b) {
        CompareTrailingZero(Tail(a), Tail(b));
      }
    }
  }

  lemma {:induction false} CompareEmptyZero(b: Release)
    ensures Compare([0], b) == Compare([], b)
    decreases |b|
  {
    if |b| > 0 && Head(b) == 0 {
      assert Tail([0]) == [];
      assert Compare([0], b) == Compare([], Tail(b));
    }
  }

  /** The release with its trailing zero components removed, the form
      `packaging` compares releases in. */
  function Canonical(a: Release): (r: Release)
    ensures |r| > 0 ==> r[|r| - 1] != 0
  {
    if |a| > 0 && a[|a| - 1] == 0 then Canonical(a[..|a| - 1]) else a
  }

  /** Python's ordering of tuples of integers: element by element, and a
      proper prefix before the longer tuple. */
  function TupleCompare(x: Release, y: Release): int
    decreases |x|
  {
    if |x| == 0 && |y| == 0 then 0
    else if |x| == 0 then -1
    else if |y| == 0 then 1
    else if x[0] < y[0] then -1
    else if x[0] > y[0] then 1
    else TupleCompare(x[1..], y[1..])
  }

  lemma {:induction false} CompareCanonical(a: Release, b: Release)
    ensures Compare(a, b) == Compare(Canonical(a), b)
    decreases |a|
  {
    if |a| > 0 && a[|a| - 1] == 0 {
      var front := a[..|a| - 1];
      assert front + [0] == a;
      CompareTrailingZero(front, b);
      CompareCanonical(front, b);
    }
  }

  lemma {:induction false} CompareEmptyNonZeroLast(y: Release)
    requires |y| > 0 && y[|y| - 1] != 0
    ensures Compare([], y) == -1
    decreases |y|
  {
    if y[0] == 0 {
      assert |y| > 1;
      assert Tail(y)[|Tail(y)| - 1] == y[|y| - 1];
      CompareEmptyNonZeroLast(Tail(y));
    }
  }

  lemma {:induction false} CompareTupleNoTrailingZero(x: Release, y: Release)
    requires |x| > 0 ==> x[|x| - 1] != 0
    requires |y| > 0 ==> y[|y| - 1] != 0
    ensures Compare(x, y) == TupleCompare(x, y)
    decreases |x| + |y|
  {
    if |x| == 0 && |y| > 0 {
      CompareEmptyNonZeroLast(y);
    } else if |x| > 0 && |y| == 0 {
      CompareEmptyNonZeroLast(x);
      CompareAntisymmetric(x, y);
    } else if |x| > 0 && |y| > 0 && x[0] == y[0] {
      CompareTupleNoTrailingZero(x[1..], y[1..]);
    }
  }

  /** The padded comparison agrees with the one `packaging` performs: strip
      trailing zeros from both releases, then compare them as Python tuples. */
  lemma CompareIsTupleOrderOfCanonical(a: Release, b: Release)
    ensures Compare(a, b) == TupleCompare(Canonical(a), Canonical(b))
  {
    CompareCanonical(a, b);
    CompareAntisymmetric(Canonical(a), b);
    CompareCanonical(b, Canonical(a));
    CompareAntisymmetric(Canonical(b), Canonical(a));
    CompareTupleNoTrailingZero(Canonical(a), Canonical(b));
  }

  lemma FormatThree(x: nat, y: nat, z: nat, sx: string, sy: string, sz: string)
    requires NatToString(x) == sx && NatToString(y) == sy && NatToString(z) == sz
    ensures Format([x, y, z]) == sx + "." + sy + "." + sz
  {
    var v := [x, y, z];
    var parts := [sx, sy, sz];
    assert seq(|v|, i requires 0 <= i < |v| => NatToString(v[i])) == parts;
    assert parts[1..] == [sy, sz] && parts[1..][1..] == [sz];
    assert Join([sy, sz]) == sy + "." + sz;
    assert Join(parts) == sx + "." + (sy + "." + sz);
  }

  /** The text "x.y.z" of three numerals parses to the release [x, y, z]. */
  lemma ParseThree(x: nat, y: nat, z: nat, sx: string, sy: string, sz: string)
    requires NatToString(x) == sx && NatToString(y) == sy && NatToString(z) == sz
    ensures Parse(sx + "." + sy + "." + sz) == Ok([x, y, z])
  {
    FormatThree(x, y, z, sx, sy, sz);
    ParseFormat([x, y, z]);
  }

  /** Components compare as numbers, not as text: 2.10.0 is newer than 2.9.0
      and 20.10.7 is at least 9.9.9. */
  lemma NumericNotTextual()
    ensures Parse("2.10.0") == Ok([2, 10, 0]) && Parse("2.9.0") == Ok([2, 9, 0])
    ensures Compare([2, 10, 0], [2, 9, 0]) == 1
    ensures AtLeast([20, 10, 7], [9, 9, 9])
  {
    TwoTenZeroParses();
    TwoNineZeroParses();
  }

  /** Texts that are not dotted numerals raise, and leading zeros are read
      as decimal: "" and "1..2" have an empty piece, "1.a" a letter, and
      "01.2" is the release [1, 2]. */
  lemma ParseExamples()
    ensures Parse("") == Err(InvalidVersion(""))
    ensures Parse("1..2") == Err(InvalidVersion("1..2"))
    ensures Parse("1.a") == Err(InvalidVersion("1.a"))
    ensures Parse("01.2") == Ok([1, 2])
  {
    EmptyPieceRaises();
    LetterRaises();
    LeadingZeroParses();
  }

  lemma EmptyPieceRaises()
    ensures Parse("") == Err(InvalidVersion(""))
    ensures Parse("1..2") == Err(InvalidVersion("1..2"))
  {
    assert Split("") == [""];
    SplitDot("", "2");
    SplitDot("1", "." + "2");
    assert "1" + "." + ("" + "." + "2") == "1..2";
    assert Split("1..2")[1] == "";
  }

  lemma LetterRaises()
    ensures Parse("1.a") == Err(InvalidVersion("1.a"))
  {
    SplitDot("1", "a");
    SplitNoDot("a");
    assert "1" + "." + "a" == "1.a";
    assert !IsDigit(Split("1.a")[1][0]);
  }

  lemma LeadingZeroParses()
    ensures Parse("01.2") == Ok([1, 2])
  {
    SplitDot("01", "2");
    SplitNoDot("2");
    assert "01" + "." + "2" == "01.2";
    assert Split("01.2") == ["01", "2"];
    assert DigitsValue("01") == 1 by {
      assert "01"[..1] == "0";
      assert "0"[..0] == [];
    }
    assert DigitsValue("2") == 2 by {
      assert "2"[..0] == [];
    }
    assert IsDigits("01") && IsDigits("2");
    var r := Parse("01.2");
    assert r.Ok?;
    assert |r.value| == 2 && r.value[0] == 1 && r.value[1] == 2;
    assert r.value == [1, 2];
  }

  lemma TwoTenZeroParses()
    ensures Parse("2.10.0") == Ok([2, 10, 0])
  {
    assert NatToString(10) == "10";
    ParseThree(2, 10, 0, "2", "10", "0");
    assert "2" + "." + "10" + "." + "0" == "2.10.0";
  }

  lemma TwoNineZeroParses()
    ensures Parse("2.9.0") == Ok([2, 9, 0])
  {
    ParseThree(2, 9, 0, "2", "9", "0");
    assert "2" + "." + "9" + "." + "0" == "2.9.0";
  }
}
