/** Strings cut at slashes. */
module Segments {
  import opened Model

  predicate NoSlash(s: string) {
    '/' !in s
  }

  /** `strings.Cut` at the first slash. */
  function Cut(s: string): (r: (string, Option<string>))
    ensures NoSlash(r.0)
    ensures s == match r.1 case None => r.0 case Some(rest) => r.0 + "/" + rest
  {
    if s == "" then ("", None)
    else if s[0] == '/' then ("", Some(s[1..]))
    else
      var (before, rest) := Cut(s[1..]);
      ([s[0]] + before, rest)
  }

  /** Cutting is the only way to put a slash-free string before the first slash. */
  lemma {:induction false} CutIs(before: string, rest: Option<string>)
    requires NoSlash(before)
    ensures Cut(match rest case None => before case Some(r) => before + "/" + r) == (before, rest)
  {
    var s := match rest case None => before case Some(r) => before + "/" + r;
    if before == "" {
      if rest.Some? { assert s[1..] == rest.value; }
    } else {
      CutIs(before[1..], rest);
      assert [before[0]] + before[1..] == before;
      assert s[1..] == match rest case None => before[1..] case Some(r) => before[1..] + "/" + r;
    }
  }

  /** `strings.Split` at every slash. */
  function Split(s: string): (parts: seq<string>)
    ensures parts != [] && forall i | 0 <= i < |parts| :: NoSlash(parts[i])
    decreases |s|
  {
    match Cut(s)
    case (before, None) => [before]
    case (before, Some(rest)) => [before] + Split(rest)
  }

  function Join(parts: seq<string>): (s: string) {
    if parts == [] then "" else if |parts| == 1 then parts[0] else parts[0] + "/" + Join(parts[1..])
  }

  lemma {:induction false} JoinSplit(s: string)
    ensures Join(Split(s)) == s
    decreases |s|
  {
    match Cut(s) {
      case (before, None) =>
      case (before, Some(rest)) =>
        JoinSplit(rest);
        assert Split(s)[1..] == Split(rest);
    }
  }

  lemma {:induction false} SplitJoin(parts: seq<string>)
    requires parts != [] && forall i | 0 <= i < |parts| :: NoSlash(parts[i])
    ensures Split(Join(parts)) == parts
  {
    if |parts| == 1 {
      CutIs(parts[0], None);
    } else {
      SplitJoin(parts[1..]);
      CutIs(parts[0], Some(Join(parts[1..])));
      assert Split(Join(parts)) == [parts[0]] + parts[1..];
    }
  }

  /** Appending one more segment. */
  lemma {:induction false} JoinSnoc(parts: seq<string>, p: string)
    requires parts != []
    ensures Join(parts + [p]) == Join(parts) + "/" + p
  {
    if |parts| == 1 {
      assert (parts + [p])[1..] == [p];
    } else {
      JoinSnoc(parts[1..], p);
      assert (parts + [p])[1..] == parts[1..] + [p];
    }
  }

  lemma JoinCons(p: string, parts: seq<string>)
    requires parts != []
    ensures Join([p] + parts) == p + "/" + Join(parts)
  {
    assert ([p] + parts)[1..] == parts;
  }
}
