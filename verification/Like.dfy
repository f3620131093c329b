/** The name filter: user input escaped for a LIKE pattern. */
module Like {

  /** `strings.ReplaceAll` of one character by a string. */
  function ReplaceAll(s: string, c: char, with: string): (r: string) {
    if s == "" then "" else (if s[0] == c then with else [s[0]]) + ReplaceAll(s[1..], c, with)
  }

  /** The three replacements, the escape character first. */
  function Escape(s: string): (r: string) {
    ReplaceAll(ReplaceAll(ReplaceAll(s, '\\', "\\\\"), '%', "\\%"), '_', "\\_")
  }

  predicate Special(c: char) {
    c == '\\' || c == '%' || c == '_'
  }

  function EscapeOne(c: char): (r: string) {
    if Special(c) then ['\\', c] else [c]
  }

  /** One character at a time: metacharacters get a backslash, anything else stands for itself. */
  function EscapeEach(s: string): (r: string) {
    if s == "" then "" else EscapeOne(s[0]) + EscapeEach(s[1..])
  }

  /** LIKE with escape character `\`: `%` is any string, `_` any character, an escaped character
      itself. A pattern that ends in the escape character matches nothing. */
  predicate LikeMatches(p: string, n: string)
    decreases |p|, |n|
  {
    if p == "" then n == ""
    else if p[0] == '%' then LikeMatches(p[1..], n) || (n != "" && LikeMatches(p, n[1..]))
    else if p[0] == '\\' then |p| >= 2 && n != "" && p[1] == n[0] && LikeMatches(p[2..], n[1..])
    else n != "" && (p[0] == '_' || p[0] == n[0]) && LikeMatches(p[1..], n[1..])
  }

  function Fold(fold: char -> char, s: string): (r: string) {
    seq(|s|, i requires 0 <= i < |s| => fold(s[i]))
  }

  /** ILIKE: both sides are folded first. */
  predicate ILike(fold: char -> char, p: string, n: string) {
    LikeMatches(Fold(fold, p), Fold(fold, n))
  }

  /** A fold that leaves the metacharacters alone and maps nothing else to them. */
  ghost predicate KeepsSpecials(fold: char -> char) {
    forall c :: (Special(c) ==> fold(c) == c) && (Special(fold(c)) ==> Special(c))
  }

  predicate OccursAt(q: string, n: string, i: nat) {
    i + |q| <= |n| && n[i..i + |q|] == q
  }

  ghost predicate Occurs(q: string, n: string) {
    exists i: nat :: OccursAt(q, n, i)
  }

  // ------------------------------------------------------------------ the three replacements

  lemma {:induction false} ReplaceAllConcat(a: string, b: string, c: char, with: string)
    ensures ReplaceAll(a + b, c, with) == ReplaceAll(a, c, with) + ReplaceAll(b, c, with)
  {
    if a == "" {
      assert a + b == b;
    } else {
      ReplaceAllConcat(a[1..], b, c, with);
      assert (a + b)[1..] == a[1..] + b;
      var h := if a[0] == c then with else [a[0]];
      assert (h + ReplaceAll(a[1..], c, with)) + ReplaceAll(b, c, with) == h + (ReplaceAll(a[1..], c, with) + ReplaceAll(b, c, with));
    }
  }

  /** In this order no replacement touches what an earlier one inserted, so together they are one
      escape per character. */
  lemma {:induction false} EscapeIsEach(s: string)
    ensures Escape(s) == EscapeEach(s)
  {
    if s != "" {
      var head, rest := s[..1], ReplaceAll(s[1..], '\\', "\\\\");
      assert ReplaceAll(s, '\\', "\\\\") == ReplaceAll(head, '\\', "\\\\") + rest;
      var h := ReplaceAll(head, '\\', "\\\\");
      ReplaceAllConcat(h, rest, '%', "\\%");
      ReplaceAllConcat(ReplaceAll(h, '%', "\\%"), ReplaceAll(rest, '%', "\\%"), '_', "\\_");
      EscapeHead(s[0]);
      EscapeIsEach(s[1..]);
    }
  }

  lemma ReplaceOne(c: char, x: char, with: string)
    ensures ReplaceAll([c], x, with) == if c == x then with else [c]
  {
    assert [c][1..] == "";
  }

  lemma ReplaceTwo(c: char, d: char, x: char, with: string)
    requires c != x && d != x
    ensures ReplaceAll([c, d], x, with) == [c, d]
  {
    assert [c, d][1..] == [d];
    ReplaceOne(d, x, with);
  }

  lemma EscapeHead(c: char)
    ensures Escape([c]) == EscapeOne(c)
  {
    ReplaceOne(c, '\\', "\\\\");
    ReplaceOne(c, '%', "\\%");
    ReplaceOne(c, '_', "\\_");
    ReplaceTwo('\\', '\\', '%', "\\%");
    ReplaceTwo('\\', '\\', '_', "\\_");
    ReplaceTwo('\\', '%', '_', "\\_");
  }

  // ------------------------------------------------------------------ what a pattern matches

  lemma LiteralChar(c: char, p: string, n: string)
    ensures LikeMatches(EscapeOne(c) + p, n) <==> n != "" && n[0] == c && LikeMatches(p, n[1..])
  {
    var e := EscapeOne(c) + p;
    assert e[|EscapeOne(c)|..] == p;
  }

  /** An escaped string matches itself and nothing else. */
  lemma {:induction false} LiteralPrefix(q: string, p: string, n: string)
    ensures LikeMatches(EscapeEach(q) + p, n) <==>
            |q| <= |n| && n[..|q|] == q && LikeMatches(p, n[|q|..])
  {
    if q == "" {
      assert EscapeEach(q) + p == p && n[0..] == n;
    } else {
      assert EscapeEach(q) + p == EscapeOne(q[0]) + (EscapeEach(q[1..]) + p);
      LiteralChar(q[0], EscapeEach(q[1..]) + p, n);
      if n != "" {
        LiteralPrefix(q[1..], p, n[1..]);
        PrefixStep(q, n);
      }
    }
  }

  lemma PrefixStep(q: string, n: string)
    requires q != "" && n != ""
    ensures |q| <= |n| ==> n[1..][|q| - 1..] == n[|q|..]
    ensures |q| <= |n| ==> (n[..|q|] == q <==> n[0] == q[0] && n[1..][..|q| - 1] == q[1..])
  {
    if |q| <= |n| {
      assert n[..|q|] == [n[0]] + n[1..][..|q| - 1];
      assert q == [q[0]] + q[1..];
    }
  }

  predicate MatchesFrom(p: string, n: string, i: nat) {
    i <= |n| && LikeMatches(p, n[i..])
  }

  /** A leading percent sign skips any prefix. */
  lemma {:induction false} LeadingPercent(p: string, n: string)
    ensures LikeMatches("%" + p, n) <==> exists i: nat :: MatchesFrom(p, n, i)
    decreases |n|
  {
    assert ("%" + p)[1..] == p && n[0..] == n;
    if LikeMatches(p, n) { assert MatchesFrom(p, n, 0); }
    if n != "" {
      LeadingPercent(p, n[1..]);
      if i: nat :| MatchesFrom(p, n[1..], i) {
        assert n[1..][i..] == n[i + 1..];
        assert MatchesFrom(p, n, i + 1);
      }
      if i: nat :| MatchesFrom(p, n, i) && i > 0 {
        assert n[1..][i - 1..] == n[i..];
        assert MatchesFrom(p, n[1..], i - 1);
      }
    }
  }

  lemma {:induction false} TrailingPercent(n: string)
    ensures LikeMatches("%", n)
  {
    if n != "" { TrailingPercent(n[1..]); }
  }

  lemma ContainsAt(q: string, n: string, i: nat)
    ensures MatchesFrom(EscapeEach(q) + "%", n, i) <==> OccursAt(q, n, i)
  {
    if i <= |n| {
      LiteralPrefix(q, "%", n[i..]);
      if |q| <= |n[i..]| {
        TrailingPercent(n[i..][|q|..]);
        assert n[i..][..|q|] == n[i..i + |q|];
      }
    }
  }

  /** The pattern built from an escaped query is substring search. */
  lemma EscapedPatternIsSubstring(q: string, n: string)
    ensures LikeMatches("%" + Escape(q) + "%", n) <==> Occurs(q, n)
  {
    EscapeIsEach(q);
    var p := EscapeEach(q) + "%";
    assert "%" + Escape(q) + "%" == "%" + p;
    LeadingPercent(p, n);
    if i: nat :| MatchesFrom(p, n, i) { ContainsAt(q, n, i); }
    if i: nat :| OccursAt(q, n, i) { ContainsAt(q, n, i); }
  }

  // ------------------------------------------------------------------ up to case

  lemma {:induction false} FoldEscape(fold: char -> char, s: string)
    requires KeepsSpecials(fold)
    ensures Fold(fold, EscapeEach(s)) == EscapeEach(Fold(fold, s))
  {
    if s != "" {
      FoldEscape(fold, s[1..]);
      assert Fold(fold, s)[1..] == Fold(fold, s[1..]);
      var h := EscapeOne(s[0]);
      assert Fold(fold, h + EscapeEach(s[1..])) == Fold(fold, h) + Fold(fold, EscapeEach(s[1..]));
    }
  }

  /** So the name filter finds exactly the names the query occurs in, up to case. */
  lemma NameFilterIsSubstring(fold: char -> char, q: string, n: string)
    requires KeepsSpecials(fold)
    ensures ILike(fold, "%" + Escape(q) + "%", n) <==> Occurs(Fold(fold, q), Fold(fold, n))
  {
    EscapeIsEach(q);
    FoldEscape(fold, q);
    EscapeIsEach(Fold(fold, q));
    assert Fold(fold, "%" + Escape(q) + "%") == "%" + Escape(Fold(fold, q)) + "%";
    EscapedPatternIsSubstring(Fold(fold, q), Fold(fold, n));
  }
}
