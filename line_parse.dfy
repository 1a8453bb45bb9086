/**
 * The loop shared by `Ints`, `Int64s` and `BigInts` (input.go, lines 133-143,
 * 156-166 and 201-213): walk the lines in order, convert each one, append the
 * value, and at the first line that does not convert stop and hand back the
 * values converted so far together with an error naming that line's index.
 *
 * The per-line conversion (`strconv.Atoi`, `strconv.ParseInt`,
 * `big.Int.SetString`) is a parameter; the lines are those `bufio.Scanner`
 * produced.
 */
module LineParse {
  import opened Wrappers

  /** "At index {index}: ..." -- the failing line's 0-based index and its text. */
  datatype LineError = LineError(index: nat, line: string)

  /** Every one of `lines` converts. */
  ghost predicate AllConvert<T>(lines: seq<string>, convert: string -> Option<T>) {
    forall k :: 0 <= k < |lines| ==> convert(lines[k]).Some?
  }

  /** `vals` holds the conversions of the first `|vals|` lines, in order. */
  ghost predicate ConvertedPrefix<T>(lines: seq<string>, convert: string -> Option<T>, vals: seq<T>) {
    |vals| <= |lines| && forall k :: 0 <= k < |vals| ==> convert(lines[k]) == Some(vals[k])
  }

  function Shift(e: Option<LineError>): Option<LineError> {
    match e
    case None => None
    case Some(LineError(i, line)) => Some(LineError(i + 1, line))
  }

  /**
   * Reference definition of the parse, by recursion on the lines: the values
   * parsed and, if some line failed, the error for the first such line.
   */
  function Parsed<T>(lines: seq<string>, convert: string -> Option<T>): (p: (seq<T>, Option<LineError>))
    ensures ConvertedPrefix(lines, convert, p.0)
    ensures p.1.None? <==> AllConvert(lines, convert)
    ensures p.1.None? ==> |p.0| == |lines|
    ensures p.1.Some? ==> p.1.value == LineError(|p.0|, lines[|p.0|]) && convert(lines[|p.0|]).None?
    decreases |lines|
  {
    if lines == [] then ([], None)
    else
      match convert(lines[0])
      case None => ([], Some(LineError(0, lines[0])))
      case Some(v) =>
        var (vs, e) := Parsed(lines[1..], convert);
        assert forall k :: 1 <= k < |lines| ==> lines[k] == lines[1..][k - 1];
        ([v] + vs, Shift(e))
  }

  /** The partial result and the error are fixed by the values converted and the first failure. */
  lemma {:induction false} ParsedUnique<T>(lines: seq<string>, convert: string -> Option<T>,
                                           vals: seq<T>, err: Option<LineError>)
    requires ConvertedPrefix(lines, convert, vals)
    requires err.None? ==> |vals| == |lines|
    requires err.Some? ==> |vals| < |lines| && err.value == LineError(|vals|, lines[|vals|])
                           && convert(lines[|vals|]).None?
    ensures (vals, err) == Parsed(lines, convert)
    decreases |lines|
  {
    if lines != [] && vals != [] {
      var tailErr := if err.None? then None else Some(LineError(err.value.index - 1, err.value.line));
      assert lines[1..][|vals| - 1..] == lines[|vals|..];
      ParsedUnique(lines[1..], convert, vals[1..], tailErr);
      assert [vals[0]] + vals[1..] == vals;
    }
  }

  /**
   * The scan loop: converts line after line, appending each value, and
   * returns at the first line that does not convert.
   */
  method ParseLines<T>(lines: seq<string>, convert: string -> Option<T>)
    returns (vals: seq<T>, err: Option<LineError>)
    ensures (vals, err) == Parsed(lines, convert)
  {
    vals := [];
    var i := 0;
    while i < |lines|
      invariant i == |vals| <= |lines|
      invariant ConvertedPrefix(lines, convert, vals)
    {
      match convert(lines[i])
      case None =>
        err := Some(LineError(|vals|, lines[i]));
        ParsedUnique(lines, convert, vals, err);
        return;
      case Some(v) => {
        vals := vals + [v];
        i := i + 1;
      }
    }
    err := None;
    ParsedUnique(lines, convert, vals, err);
  }

  /** The loop of `Strings`: appends every line the scanner yields, in order. */
  method CollectLines(lines: seq<string>) returns (strs: seq<string>)
    ensures strs == lines
  {
    strs := [];
    var i := 0;
    while i < |lines|
      invariant i <= |lines| && strs == lines[..i]
    {
      strs := strs + [lines[i]];
      i := i + 1;
    }
  }

  /** Lines after the first failing one are never looked at. */
  lemma {:induction false} ParsedStopsAtFailure<T>(good: seq<string>, bad: string, rest: seq<string>,
                                                   convert: string -> Option<T>)
    requires AllConvert(good, convert) && convert(bad).None?
    ensures Parsed(good + [bad] + rest, convert) == (Parsed(good, convert).0, Some(LineError(|good|, bad)))
  {
    var lines := good + [bad] + rest;
    var vals := Parsed(good, convert).0;
    assert forall k :: 0 <= k < |good| ==> lines[k] == good[k];
    assert lines[|good|] == bad;
    ParsedUnique(lines, convert, vals, Some(LineError(|good|, bad)));
  }

  /** A prefix of lines that all convert contributes its values, in front, to any longer parse. */
  lemma {:induction false} ParsedAppend<T>(good: seq<string>, rest: seq<string>, convert: string -> Option<T>)
    requires AllConvert(good, convert)
    ensures var (vs, e) := Parsed(rest, convert);
            Parsed(good + rest, convert)
            == (Parsed(good, convert).0 + vs, if e.None? then None else Some(LineError(|good| + e.value.index, e.value.line)))
  {
    var lines := good + rest;
    var (vs, e) := Parsed(rest, convert);
    var vals := Parsed(good, convert).0 + vs;
    assert forall k :: 0 <= k < |good| ==> lines[k] == good[k];
    assert forall k :: |good| <= k < |lines| ==> lines[k] == rest[k - |good|];
    var err := if e.None? then None else Some(LineError(|good| + e.value.index, e.value.line));
    ParsedUnique(lines, convert, vals, err);
  }
}
