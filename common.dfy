/** Source positions (src/common.rs). A `Location` keeps zero-based line and
    column numbers and hands out one-based ones. */
module Common {
  import opened Wrappers
  import opened Decimal

  /** A file name with a zero-based line and column. The fields are private
      in the source: callers build a location with `NewZ` or `New` and read
      it through `Line`, `Column`, `File` and `Display`. */
  datatype Location = Location(lineZ: usize, colZ: usize, file: string) {

    /** The one-based line. `line_z + 1` overflows `usize` only at the
        maximum, where a debug build panics; that case is excluded. */
    function Line(): (l: nat)
      requires lineZ < USIZE_MAX
      ensures l >= 1
    {
      lineZ + 1
    }

    /** The one-based column, under the same restriction as `Line`. */
    function Column(): (c: nat)
      requires colZ < USIZE_MAX
      ensures c >= 1
    {
      colZ + 1
    }

    function File(): string {
      file
    }

    /** `Display`: `file:line:column` with one-based numbers. */
    function Display(): string
      requires lineZ < USIZE_MAX && colZ < USIZE_MAX
    {
      File() + ":" + NatToString(Line()) + ":" + NatToString(Column())
    }
  }

  /** `Location::new_z`: a location from zero-based numbers. */
  function NewZ(lineZ: usize, colZ: usize, file: string): (loc: Location)
    ensures loc.lineZ == lineZ && loc.colZ == colZ && loc.File() == file
    ensures lineZ < USIZE_MAX ==> loc.Line() == lineZ + 1
    ensures colZ < USIZE_MAX ==> loc.Column() == colZ + 1
  {
    Location(lineZ, colZ, file)
  }

  /** `Location::new`: a location from one-based numbers; the source asserts
      that neither is zero. */
  function New(line: usize, col: usize, file: string): (loc: Location)
    requires line != 0 && col != 0
    ensures loc == NewZ(line - 1, col - 1, file)
    ensures loc.Line() == line && loc.Column() == col && loc.File() == file
  {
    Location(line - 1, col - 1, file)
  }

  /** The parts of `s` before and after its last `sep`, if it has one. */
  function SplitLast(s: string, sep: char): Option<(string, string)>
    decreases |s|
  {
    if s == [] then None
    else if s[|s| - 1] == sep then Some((s[..|s| - 1], []))
    else match SplitLast(s[..|s| - 1], sep)
      case None => None
      case Some(parts) => Some((parts.0, parts.1 + [s[|s| - 1]]))
  }

  lemma {:induction false} SplitLastAppend(a: string, sep: char, b: string)
    requires sep !in b
    ensures SplitLast(a + [sep] + b, sep) == Some((a, b))
    decreases |b|
  {
    var s := a + [sep] + b;
    if b != [] {
      var b' := b[..|b| - 1];
      assert s[..|s| - 1] == a + [sep] + b';
      SplitLastAppend(a, sep, b');
      assert b' + [b[|b| - 1]] == b;
    } else {
      assert s[..|s| - 1] == a;
    }
  }

  /** Reading a rendered location back: the column follows the last `:`,
      the line the one before it, and the file is everything else (a file
      name may itself contain `:`). */
  function ParseDisplay(s: string): Option<(string, nat, nat)> {
    match SplitLast(s, ':')
    case None => None
    case Some(outer) =>
      match SplitLast(outer.0, ':')
      case None => None
      case Some(inner) =>
        var file, line, col := inner.0, inner.1, outer.1;
        if line != [] && AllDigits(line) && col != [] && AllDigits(col)
        then Some((file, DigitsValue(line), DigitsValue(col)))
        else None
  }

  /** The rendering loses nothing: file, line and column can be read back
      from it, so two locations that render alike are equal. */
  lemma DisplayRoundTrip(loc: Location)
    requires loc.lineZ < USIZE_MAX && loc.colZ < USIZE_MAX
    ensures ParseDisplay(loc.Display()) == Some((loc.File(), loc.Line(), loc.Column()))
  {
    var line, col := NatToString(loc.Line()), NatToString(loc.Column());
    assert ':' !in line && ':' !in col by {
      assert !IsDigit(':');
    }
    assert loc.Display() == (loc.File() + [':'] + line) + [':'] + col;
    SplitLastAppend(loc.File() + [':'] + line, ':', col);
    SplitLastAppend(loc.File(), ':', line);
    DigitsValueOfNatToString(loc.Line());
    DigitsValueOfNatToString(loc.Column());
  }

  lemma DisplayInjective(a: Location, b: Location)
    requires a.lineZ < USIZE_MAX && a.colZ < USIZE_MAX
    requires b.lineZ < USIZE_MAX && b.colZ < USIZE_MAX
    requires a.Display() == b.Display()
    ensures a == b
  {
    DisplayRoundTrip(a);
    DisplayRoundTrip(b);
  }
}
