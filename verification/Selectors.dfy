/** Selectors: URIs with wildcards. */
module Selectors {
  import opened Model
  import opened Segments
  import opened Identities

  const ANY_NAME := "*"
  const ANY_REMAINING := "**"

  datatype FieldSelector = FieldSelector(typ: string, name: string)

  datatype Selector = Selector(domain: string, fields: seq<FieldSelector>)

  /** The segments of a selector; nothing is written after `**`. */
  function SelectorParts(fs: seq<FieldSelector>): (parts: seq<string>) {
    if fs == [] then []
    else if fs[0].typ == ANY_REMAINING then [ANY_REMAINING]
    else [fs[0].typ, fs[0].name] + SelectorParts(fs[1..])
  }

  function Text(sel: Selector): (s: string) {
    PREFIX + Join([sel.domain] + SelectorParts(sel.fields))
  }

  // ------------------------------------------------------------------ printing

  predicate Opened(fs: seq<FieldSelector>) {
    forall i | 0 <= i < |fs| :: fs[i].typ != ANY_REMAINING
  }

  lemma {:induction false} PartsConcat(a: seq<FieldSelector>, b: seq<FieldSelector>)
    requires Opened(a)
    ensures SelectorParts(a + b) == SelectorParts(a) + SelectorParts(b)
  {
    if a == [] {
      assert a + b == b;
    } else {
      PartsConcat(a[1..], b);
      assert (a + b)[1..] == a[1..] + b;
    }
  }

  lemma OneMoreSelector(domain: string, a: seq<FieldSelector>, f: FieldSelector)
    requires Opened(a)
    ensures Join([domain] + SelectorParts(a + [f]))
            == Join([domain] + SelectorParts(a)) + "/" + f.typ + (if f.typ == ANY_REMAINING then "" else "/" + f.name)
  {
    PartsConcat(a, [f]);
    var parts := [domain] + SelectorParts(a);
    JoinSnoc(parts, f.typ);
    if f.typ == ANY_REMAINING {
      assert [domain] + SelectorParts(a + [f]) == parts + [f.typ];
    } else {
      assert [domain] + SelectorParts(a + [f]) == (parts + [f.typ]) + [f.name];
      JoinSnoc(parts + [f.typ], f.name);
    }
  }

  /** The loop stops at `**`, so later fields do not show. */
  lemma RestIsHidden(fs: seq<FieldSelector>, i: nat)
    requires i < |fs| && Opened(fs[..i]) && fs[i].typ == ANY_REMAINING
    ensures SelectorParts(fs) == SelectorParts(fs[..i + 1])
  {
    assert fs == fs[..i] + fs[i..] && fs[..i + 1] == fs[..i] + [fs[i]];
    PartsConcat(fs[..i], fs[i..]);
    PartsConcat(fs[..i], [fs[i]]);
  }

  method WriteSelector(sel: Selector) returns (s: string)
    ensures s == Text(sel)
  {
    s := PREFIX + sel.domain;
    var i := 0;
    while i < |sel.fields|
      invariant 0 <= i <= |sel.fields| && Opened(sel.fields[..i])
      invariant s == PREFIX + Join([sel.domain] + SelectorParts(sel.fields[..i]))
    {
      var f := sel.fields[i];
      OneMoreSelector(sel.domain, sel.fields[..i], f);
      assert sel.fields[..i + 1] == sel.fields[..i] + [f];
      s := s + "/" + f.typ;
      if f.typ == ANY_REMAINING {
        RestIsHidden(sel.fields, i);
        return;
      }
      s := s + "/" + f.name;
      i := i + 1;
    }
    assert sel.fields[..i] == sel.fields;
  }

  // ------------------------------------------------------------------ parsing

  predicate NamePattern(n: string) {
    Clean(n) || n == ANY_NAME || n == ANY_REMAINING
  }

  predicate FieldOk(f: FieldSelector, last: bool) {
    if f.typ == ANY_REMAINING then last && f.name == ""
    else Clean(f.typ) && NamePattern(f.name) && (f.name == ANY_REMAINING ==> last)
  }

  /** Fields as parsing leaves them: wildcards only where they mean something, `**` only at the end. */
  ghost predicate ParsedFields(fs: seq<FieldSelector>) {
    forall i | 0 <= i < |fs| :: FieldOk(fs[i], i == |fs| - 1)
  }

  ghost predicate ParsedSelector(sel: Selector) {
    Clean(sel.domain) && sel.fields != [] && ParsedFields(sel.fields)
  }

  function ReadFields(parts: seq<string>): (r: Option<seq<FieldSelector>>) {
    if parts == [] then Some([])
    else if parts[0] == ANY_REMAINING then
      if |parts| == 1 then Some([FieldSelector(ANY_REMAINING, "")]) else None
    else if |parts| < 2 || !Clean(parts[0]) || !NamePattern(parts[1]) then None
    else if parts[1] == ANY_REMAINING then
      if |parts| == 2 then Some([FieldSelector(parts[0], parts[1])]) else None
    else
      match ReadFields(parts[2..])
      case None => None
      case Some(fs) => Some([FieldSelector(parts[0], parts[1])] + fs)
  }

  lemma ParsedTail(fs: seq<FieldSelector>)
    requires ParsedFields(fs) && fs != []
    ensures ParsedFields(fs[1..])
  {
    forall i | 0 <= i < |fs[1..]| ensures FieldOk(fs[1..][i], i == |fs[1..]| - 1) {
      assert FieldOk(fs[i + 1], i + 1 == |fs| - 1);
    }
  }

  lemma ParsedCons(f: FieldSelector, fs: seq<FieldSelector>)
    requires FieldOk(f, fs == []) && ParsedFields(fs)
    ensures ParsedFields([f] + fs)
  {
    var all := [f] + fs;
    forall i | 0 <= i < |all| ensures FieldOk(all[i], i == |all| - 1) {
      if i > 0 { assert FieldOk(fs[i - 1], i - 1 == |fs| - 1); }
    }
  }

  /** Reading inverts printing on parsed fields. */
  lemma {:induction false} ReadPrinted(fs: seq<FieldSelector>)
    requires ParsedFields(fs)
    ensures ReadFields(SelectorParts(fs)) == Some(fs)
  {
    if fs != [] {
      assert FieldOk(fs[0], 0 == |fs| - 1);
      ParsedTail(fs);
      ReadPrinted(fs[1..]);
      assert fs == [fs[0]] + fs[1..];
      if fs[0].typ != ANY_REMAINING {
        assert SelectorParts(fs)[2..] == SelectorParts(fs[1..]);
      }
      if |fs| == 1 {
        assert fs[1..] == [] && fs == [FieldSelector(fs[0].typ, fs[0].name)];
      }
    }
  }

  /** And printing inverts reading. */
  lemma {:induction false} PrintRead(parts: seq<string>)
    requires ReadFields(parts).Some?
    ensures ParsedFields(ReadFields(parts).value) && SelectorParts(ReadFields(parts).value) == parts
    ensures parts != [] ==> ReadFields(parts).value != []
  {
    if parts != [] && parts[0] != ANY_REMAINING && parts[1] != ANY_REMAINING {
      PrintRead(parts[2..]);
      var f, fs := FieldSelector(parts[0], parts[1]), ReadFields(parts[2..]).value;
      ParsedCons(f, fs);
      assert ([f] + fs)[1..] == fs;
      assert parts == [parts[0], parts[1]] + parts[2..];
    }
  }

  /** A `**` before the end is never read. */
  lemma {:induction false} EarlyStarsUnread(parts: seq<string>, i: nat)
    requires i < |parts| - 1 && parts[i] == ANY_REMAINING
    ensures ReadFields(parts).None?
  {
    if i >= 2 { EarlyStarsUnread(parts[2..], i - 2); }
  }

  method StarsTerminal(parts: seq<string>) returns (ok: bool)
    ensures ok ==> forall j | 0 <= j < |parts| - 1 :: parts[j] != ANY_REMAINING
    ensures !ok ==> ReadFields(parts).None?
  {
    var i := 0;
    while i < |parts|
      invariant 0 <= i <= |parts| && forall j | 0 <= j < i && j < |parts| - 1 :: parts[j] != ANY_REMAINING
    {
      if parts[i] == ANY_REMAINING && i != |parts| - 1 {
        EarlyStarsUnread(parts, i);
        return false;
      }
      i := i + 1;
    }
    return true;
  }

  method ReadPath(path: string) returns (r: Result<seq<FieldSelector>>)
    ensures path == "" ==> r.Err?
    ensures path != "" ==> (r.Ok? <==> ReadFields(Split(path)).Some?)
    ensures r.Ok? ==> Some(r.value) == ReadFields(Split(path))
    ensures r.Err? ==> r.error != InvalidScheme
  {
    if path == "" { return Err(InvalidSelectorPath); }
    var parts := Split(path);
    ghost var all := parts;
    var terminal := StarsTerminal(parts);
    if !terminal { return Err(InvalidSelectorPath); }
    var fields: seq<FieldSelector> := [];
    assert ReadFields(all).Some? ==> fields + ReadFields(all).value == ReadFields(all).value;
    while parts != []
      invariant forall j | 0 <= j < |parts| - 1 :: parts[j] != ANY_REMAINING
      invariant ReadFields(all) == match ReadFields(parts) case None => None case Some(fs) => Some(fields + fs)
      decreases |parts|
    {
      if parts[0] == ANY_REMAINING { return Ok(fields + [FieldSelector(ANY_REMAINING, "")]); }
      if |parts| < 2 { return Err(InvalidSelectorPath); }
      var e := ValidateName(parts[0]);
      if e.Some? { return Err(e.value); }
      if parts[1] != ANY_NAME && parts[1] != ANY_REMAINING {
        e := ValidateName(parts[1]);
        if e.Some? { return Err(e.value); }
      }
      var f := FieldSelector(parts[0], parts[1]);
      if f.name == ANY_REMAINING { return Ok(fields + [f]); }
      ghost var tail := ReadFields(parts[2..]);
      assert tail.Some? ==> fields + ([f] + tail.value) == (fields + [f]) + tail.value;
      fields := fields + [f];
      parts := parts[2..];
    }
    assert fields + [] == fields;
    return Ok(fields);
  }

  // ------------------------------------------------------------------ both together

  lemma {:induction false} PartsNoSlash(fs: seq<FieldSelector>)
    requires ParsedFields(fs)
    ensures forall i | 0 <= i < |SelectorParts(fs)| :: NoSlash(SelectorParts(fs)[i])
    ensures fs != [] ==> SelectorParts(fs) != []
  {
    if fs != [] {
      assert FieldOk(fs[0], 0 == |fs| - 1);
      ParsedTail(fs);
      PartsNoSlash(fs[1..]);
      if Clean(fs[0].typ) { CleanHasNoSlash(fs[0].typ); }
      if Clean(fs[0].name) { CleanHasNoSlash(fs[0].name); }
    }
  }

  /** What a printed selector looks like after the scheme. */
  lemma TextParts(sel: Selector)
    requires ParsedSelector(sel)
    ensures PREFIX <= Text(sel)
    ensures Split(Text(sel)[|PREFIX|..]) == [sel.domain] + SelectorParts(sel.fields)
    ensures Cut(Text(sel)[|PREFIX|..]) == (sel.domain, Some(Join(SelectorParts(sel.fields))))
    ensures Split(Join(SelectorParts(sel.fields))) == SelectorParts(sel.fields)
  {
    var parts := SelectorParts(sel.fields);
    CleanHasNoSlash(sel.domain);
    PartsNoSlash(sel.fields);
    assert Text(sel)[|PREFIX|..] == Join([sel.domain] + parts);
    SplitJoin([sel.domain] + parts);
    JoinCons(sel.domain, parts);
    CutIs(sel.domain, Some(Join(parts)));
    SplitJoin(parts);
  }

  /** A string that parses to nothing else is the text of no other selector. */
  lemma OnlyText(s: string, sel: Selector)
    requires ParsedSelector(sel) && s == Text(sel)
    ensures forall other | ParsedSelector(other) && s == Text(other) :: other == sel
  {
    forall other | ParsedSelector(other) && s == Text(other) ensures other == sel {
      TextParts(sel);
      TextParts(other);
      ReadPrinted(sel.fields);
      ReadPrinted(other.fields);
    }
  }

  ghost predicate IsText(s: string) {
    exists sel :: ParsedSelector(sel) && s == Text(sel)
  }

  lemma TextIsReadable(s: string)
    requires IsText(s)
    ensures PREFIX <= s
    ensures var (d, path) := Cut(s[|PREFIX|..]);
            Clean(d) && path.Some? && path.value != "" && ReadFields(Split(path.value)).Some?
  {
    var sel :| ParsedSelector(sel) && s == Text(sel);
    TextParts(sel);
    ReadPrinted(sel.fields);
    PartsNoSlash(sel.fields);
    assert FieldOk(sel.fields[0], 0 == |sel.fields| - 1);
    assert Split("") == [""] && SelectorParts(sel.fields)[0] != "";
  }

  /** Parsing and printing are exact inverses on what parsing accepts. */
  method ParseSelector(s: string) returns (r: Result<Selector>)
    ensures r.Ok? ==> ParsedSelector(r.value) && Text(r.value) == s
    ensures forall sel | ParsedSelector(sel) && Text(sel) == s :: r == Ok(sel)
    ensures r == Err(InvalidScheme) <==> !(PREFIX <= s)
  {
    if IsText(s) { TextIsReadable(s); }
    assert !IsText(s) ==> forall sel | ParsedSelector(sel) :: s != Text(sel);
    if !(PREFIX <= s) { return Err(InvalidScheme); }
    var rest := s[|PREFIX|..];
    assert s == PREFIX + rest;
    var (d, path) := Cut(rest);
    var e := ValidateName(d);
    if e.Some? { return Err(if e.value == EmptyField then EmptyDomain else e.value); }
    var fields := ReadPath(if path.None? then "" else path.value);
    if fields.Err? { return Err(fields.error); }
    var sel := Selector(d, fields.value);
    PrintRead(Split(path.value));
    JoinSplit(path.value);
    JoinCons(d, Split(path.value));
    OnlyText(s, sel);
    return Ok(sel);
  }

  // ------------------------------------------------------------------ matching

  predicate FieldMatches(fs: FieldSelector, f: Field) {
    || fs.typ == ANY_REMAINING
    || (fs.typ == f.typ && (fs.name == ANY_NAME || fs.name == ANY_REMAINING || fs.name == f.name))
  }

  /** Position by position, until `**` takes the rest. */
  predicate FieldsMatch(fs: seq<FieldSelector>, gs: seq<Field>) {
    if fs == [] then gs == []
    else if fs[0].typ == ANY_REMAINING then true
    else gs != [] && FieldMatches(fs[0], gs[0]) && (fs[0].name == ANY_REMAINING || FieldsMatch(fs[1..], gs[1..]))
  }

  predicate SelectorMatches(sel: Selector, id: Identity) {
    sel.domain == id.domain && FieldsMatch(sel.fields, id.fields)
  }

  method Matches(sel: Selector, id: Identity) returns (b: bool)
    ensures b == SelectorMatches(sel, id)
  {
    if sel.domain != id.domain { return false; }
    var i := 0;
    while i < |sel.fields|
      invariant 0 <= i <= |sel.fields| && i <= |id.fields|
      invariant FieldsMatch(sel.fields, id.fields) == FieldsMatch(sel.fields[i..], id.fields[i..])
    {
      var f := sel.fields[i];
      assert sel.fields[i..][1..] == sel.fields[i + 1..];
      if f.typ == ANY_REMAINING { return true; }
      if i >= |id.fields| || !FieldMatches(f, id.fields[i]) { return false; }
      assert id.fields[i..][1..] == id.fields[i + 1..];
      if f.name == ANY_REMAINING { return true; }
      i := i + 1;
    }
    return |id.fields| == |sel.fields|;
  }

  /** The language of a pattern, segment by segment: `*` is any one segment, a final `**` any rest,
      anything else itself. */
  predicate InLanguage(pattern: seq<string>, segments: seq<string>) {
    if pattern == [] then segments == []
    else if pattern == [ANY_REMAINING] then true
    else segments != [] && (pattern[0] == ANY_NAME || pattern[0] == segments[0]) && InLanguage(pattern[1..], segments[1..])
  }

  predicate PatternMatches(pattern: string, uri: string) {
    PREFIX <= pattern && PREFIX <= uri && InLanguage(Split(pattern[|PREFIX|..]), Split(uri[|PREFIX|..]))
  }

  lemma {:induction false} PairsCons(gs: seq<Field>)
    requires gs != []
    ensures Pairs(gs) == [gs[0].typ, gs[0].name] + Pairs(gs[1..])
  {
    if |gs| > 1 {
      var n := |gs| - 1;
      PairsCons(gs[..n]);
      assert gs[..n][1..] == gs[1..][..n - 1] && gs[1..][n - 1] == gs[n];
    }
  }

  lemma {:induction false} FieldsMatchIsLanguage(fs: seq<FieldSelector>, gs: seq<Field>)
    requires ParsedFields(fs)
    ensures FieldsMatch(fs, gs) <==> InLanguage(SelectorParts(fs), Pairs(gs))
  {
    if fs != [] {
      var f := fs[0];
      assert FieldOk(f, 0 == |fs| - 1);
      if f.typ != ANY_REMAINING {
        CleanHasNoSlash(f.typ);
        var ps := SelectorParts(fs);
        assert ps[1..] == [f.name] + SelectorParts(fs[1..]) && ps[1..][1..] == SelectorParts(fs[1..]);
        ParsedTail(fs);
        if gs != [] {
          PairsCons(gs);
          var us := Pairs(gs);
          assert us[1..] == [gs[0].name] + Pairs(gs[1..]) && us[1..][1..] == Pairs(gs[1..]);
          FieldsMatchIsLanguage(fs[1..], gs[1..]);
        }
      }
    }
  }

  /** A selector matches an identity exactly when the identity's URI is in the language of the
      selector's text. */
  lemma MatchingIsLanguage(sel: Selector, id: Identity)
    requires ParsedSelector(sel) && ValidIdentity(id)
    ensures SelectorMatches(sel, id) <==> PatternMatches(Text(sel), Uri(id))
  {
    TextParts(sel);
    assert Denotes(Uri(id), id);
    DenotedParts(Uri(id), id);
    CleanHasNoSlash(sel.domain);
    var ps, us := [sel.domain] + SelectorParts(sel.fields), Parts(id);
    assert ps[1..] == SelectorParts(sel.fields) && us[1..] == Pairs(id.fields);
    FieldsMatchIsLanguage(sel.fields, id.fields);
  }

  // ------------------------------------------------------------------ a plain URI as a selector

  function Exactly(fields: seq<Field>): (fs: seq<FieldSelector>)
    ensures |fs| == |fields|
    ensures forall i | 0 <= i < |fs| :: fs[i] == FieldSelector(fields[i].typ, fields[i].name)
  {
    seq(|fields|, i requires 0 <= i < |fields| => FieldSelector(fields[i].typ, fields[i].name))
  }

  lemma {:induction false} ExactParts(gs: seq<Field>)
    requires forall i | 0 <= i < |gs| :: ValidField(gs[i])
    ensures SelectorParts(Exactly(gs)) == Pairs(gs)
  {
    if gs != [] {
      assert ValidField(gs[0]);
      CleanHasNoSlash(gs[0].typ);
      PairsCons(gs);
      ExactParts(gs[1..]);
      assert Exactly(gs)[1..] == Exactly(gs[1..]);
    }
  }

  lemma {:induction false} ExactMatch(gs: seq<Field>, others: seq<Field>)
    requires forall i | 0 <= i < |gs| :: ValidField(gs[i])
    ensures FieldsMatch(Exactly(gs), others) <==> gs == others
  {
    if gs != [] {
      assert ValidField(gs[0]);
      CleanHasNoSlash(gs[0].typ);
      CleanHasNoSlash(gs[0].name);
      assert Exactly(gs)[1..] == Exactly(gs[1..]);
      if others != [] {
        ExactMatch(gs[1..], others[1..]);
        assert gs == [gs[0]] + gs[1..] && others == [others[0]] + others[1..];
      }
    }
  }

  /** The URI of an identity with fields is the text of a selector that matches that identity only. */
  lemma UriSelectsItself(id: Identity, other: Identity)
    requires ValidIdentity(id) && id.fields != []
    ensures var sel := Selector(id.domain, Exactly(id.fields));
            && ParsedSelector(sel) && Text(sel) == Uri(id)
            && (SelectorMatches(sel, other) <==> other == id)
  {
    var fs := Exactly(id.fields);
    forall i | 0 <= i < |fs| ensures FieldOk(fs[i], i == |fs| - 1) {
      assert ValidField(id.fields[i]);
      CleanHasNoSlash(fs[i].typ);
      CleanHasNoSlash(fs[i].name);
    }
    ExactParts(id.fields);
    ExactMatch(id.fields, other.fields);
  }
}
