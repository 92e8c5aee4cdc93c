/** Caller identification (log/log.go, captureFuncName). The stack lookup
    itself is an input: a `Frame` is either the fully qualified name the
    runtime reported for the caller of Begin, or the lookup failed. What is
    modelled is the string work: split the name on "." and keep the last part. */
module CallerName {

  datatype Frame = Unavailable | Frame(qualifiedName: string)

  /** Joins parts with `sep` between consecutive parts. */
  function Join(parts: seq<string>, sep: char): string
    requires |parts| >= 1
  {
    if |parts| == 1 then parts[0] else parts[0] + [sep] + Join(parts[1..], sep)
  }

  /** strings.Split with a one-character separator: the maximal runs between
      separators, so the empty string splits into one empty part. */
  function Split(s: string, sep: char): (parts: seq<string>)
    ensures |parts| >= 1
    ensures forall i :: 0 <= i < |parts| ==> sep !in parts[i]
    ensures Join(parts, sep) == s
  {
    if s == [] then [[]]
    else
      var rest := Split(s[1..], sep);
      if s[0] == sep then
        assert Join([[]] + rest, sep) == [sep] + Join(rest, sep) by {
          assert ([[]] + rest)[1..] == rest;
        }
        [[]] + rest
      else
        var parts := [[s[0]] + rest[0]] + rest[1..];
        assert Join(parts, sep) == [s[0]] + Join(rest, sep) by {
          if |rest| > 1 {
            assert parts[1..] == rest[1..];
          }
        }
        parts
  }

  /** Peeling the last part off a join of two or more parts. */
  lemma {:induction false} JoinLast(parts: seq<string>, sep: char)
    requires |parts| >= 2
    ensures Join(parts, sep) == Join(parts[..|parts| - 1], sep) + [sep] + parts[|parts| - 1]
  {
    if |parts| > 2 {
      JoinLast(parts[1..], sep);
      assert parts[1..][..|parts| - 2] == parts[..|parts| - 1][1..];
    }
  }

  /** The name Begin records: the text after the last "." of the qualified
      name, or "" when the frame was not available. The result holds no ".",
      is a suffix of the qualified name, and either is the whole name or
      starts right after a ".". */
  function FuncName(frame: Frame): (r: string)
    ensures '.' !in r
    ensures frame.Unavailable? ==> r == ""
    ensures frame.Frame? ==>
              var q := frame.qualifiedName;
              |r| <= |q| && q[|q| - |r|..] == r &&
              (r == q || q[|q| - |r| - 1] == '.')
    ensures frame.Frame? && '.' !in frame.qualifiedName ==> r == frame.qualifiedName
  {
    match frame
    case Unavailable => ""
    case Frame(q) =>
      var parts := Split(q, '.');
      var last := parts[|parts| - 1];
      if |parts| >= 2 then
        JoinLast(parts, '.');
        var init := Join(parts[..|parts| - 1], '.');
        assert q == init + ['.'] + last;
        assert q[|init|] == '.';
        assert q[|q| - |last|..] == last;
        last
      else
        last
  }
}
