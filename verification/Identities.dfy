/** Identities and their URIs. */
module Identities {
  import opened Model
  import opened Segments

  const PREFIX := "kryptonid" + "://"

  predicate Invalid(c: char) {
    c in "*/\t\n\r "
  }

  /** Not empty, and free of the characters no part may hold. */
  predicate Clean(s: string) {
    s != "" && forall i | 0 <= i < |s| :: !Invalid(s[i])
  }

  lemma CleanHasNoSlash(s: string)
    requires Clean(s)
    ensures NoSlash(s) && s != "*" && s != "**"
  {
    if s == "*" || s == "**" { assert Invalid(s[0]); }
  }

  datatype Field = Field(typ: string, name: string)

  datatype Identity = Identity(domain: string, fields: seq<Field>)

  ghost predicate ValidField(f: Field) {
    Clean(f.typ) && Clean(f.name)
  }

  ghost predicate ValidIdentity(id: Identity) {
    Clean(id.domain) && forall i | 0 <= i < |id.fields| :: ValidField(id.fields[i])
  }

  function Pairs(fields: seq<Field>): (parts: seq<string>)
    ensures |parts| == 2 * |fields|
    ensures forall i {:trigger fields[i]} | 0 <= i < |fields| :: parts[2 * i] == fields[i].typ && parts[2 * i + 1] == fields[i].name
  {
    if fields == [] then []
    else
      var n := |fields| - 1;
      Pairs(fields[..n]) + [fields[n].typ, fields[n].name]
  }

  /** The segments of a URI: the domain, then type and name of every field. */
  function Parts(id: Identity): (parts: seq<string>) {
    [id.domain] + Pairs(id.fields)
  }

  function Uri(id: Identity): (s: string) {
    PREFIX + Join(Parts(id))
  }

  lemma OneMoreField(domain: string, fields: seq<Field>, f: Field)
    ensures Join([domain] + Pairs(fields + [f])) == Join([domain] + Pairs(fields)) + "/" + f.typ + "/" + f.name
  {
    var parts := [domain] + Pairs(fields);
    assert (fields + [f])[..|fields|] == fields;
    assert [domain] + Pairs(fields + [f]) == (parts + [f.typ]) + [f.name];
    JoinSnoc(parts, f.typ);
    JoinSnoc(parts + [f.typ], f.name);
  }

  lemma UriGrows(domain: string, fields: seq<Field>, f: Field)
    ensures Uri(Identity(domain, fields + [f])) == Uri(Identity(domain, fields)) + ("/" + f.typ + "/" + f.name)
  {
    OneMoreField(domain, fields, f);
  }

  method WriteURI(id: Identity) returns (s: string)
    ensures s == Uri(id)
  {
    s := PREFIX + id.domain;
    var i := 0;
    while i < |id.fields|
      invariant 0 <= i <= |id.fields|
      invariant s == Uri(Identity(id.domain, id.fields[..i]))
    {
      var f := id.fields[i];
      UriGrows(id.domain, id.fields[..i], f);
      assert id.fields[..i + 1] == id.fields[..i] + [f];
      s := s + ("/" + f.typ + "/" + f.name);
      i := i + 1;
    }
    assert id.fields[..i] == id.fields;
  }

  datatype ParseError = InvalidScheme | EmptyDomain | InvalidCharacters | InvalidPath | EmptyField | InvalidSelectorPath

  datatype Result<T> = Ok(value: T) | Err(error: ParseError)

  /** The strings that stand for an identity: its URI, and for a bare domain also the URI with one
      slash after it. */
  ghost predicate Denotes(s: string, id: Identity) {
    ValidIdentity(id) && (s == Uri(id) || (id.fields == [] && s == Uri(id) + "/"))
  }

  // ------------------------------------------------------------------ uniqueness

  lemma PartsHaveNoSlash(id: Identity)
    requires ValidIdentity(id)
    ensures forall i | 0 <= i < |Parts(id)| :: NoSlash(Parts(id)[i])
  {
    CleanHasNoSlash(id.domain);
    forall i | 0 <= i < |id.fields| ensures NoSlash(id.fields[i].typ) && NoSlash(id.fields[i].name) {
      assert ValidField(id.fields[i]);
      CleanHasNoSlash(id.fields[i].typ);
      CleanHasNoSlash(id.fields[i].name);
    }
    forall i | 0 <= i < |Parts(id)| ensures NoSlash(Parts(id)[i]) {
      if i > 0 { assert Parts(id)[i] == Pairs(id.fields)[i - 1] && id.fields[(i - 1) / 2] in id.fields; }
    }
  }

  lemma PairsInjective(a: seq<Field>, b: seq<Field>)
    requires Pairs(a) == Pairs(b)
    ensures a == b
  {
    forall i | 0 <= i < |a| ensures a[i] == b[i] {
      assert Pairs(a)[2 * i] == a[i].typ && Pairs(b)[2 * i] == b[i].typ;
    }
  }

  /** What is left of a string after the scheme, cut into segments, tells the identity it denotes. */
  lemma DenotedParts(s: string, id: Identity)
    requires Denotes(s, id)
    ensures PREFIX <= s
    ensures Split(s[|PREFIX|..]) == if s == Uri(id) then Parts(id) else [id.domain, ""]
  {
    PartsHaveNoSlash(id);
    if s == Uri(id) {
      assert s[|PREFIX|..] == Join(Parts(id));
      SplitJoin(Parts(id));
    } else {
      assert Parts(id) == [id.domain];
      assert s[|PREFIX|..] == id.domain + "/" + "";
      JoinCons(id.domain, [""]);
      SplitJoin([id.domain, ""]);
    }
  }

  /** No string stands for two identities. */
  lemma DenotesOne(s: string, a: Identity, b: Identity)
    requires Denotes(s, a) && Denotes(s, b)
    ensures a == b
  {
    DenotedParts(s, a);
    DenotedParts(s, b);
    if s == Uri(a) && s == Uri(b) {
      assert Pairs(a.fields) == Parts(a)[1..] && Pairs(b.fields) == Parts(b)[1..];
      PairsInjective(a.fields, b.fields);
    }
  }

  // ------------------------------------------------------------------ parsing

  method ValidateName(v: string) returns (e: Option<ParseError>)
    ensures e.None? <==> Clean(v)
    ensures e.Some? ==> e.value == if v == "" then EmptyField else InvalidCharacters
  {
    if v == "" { return Some(EmptyField); }
    var i := 0;
    while i < |v|
      invariant 0 <= i <= |v| && forall j | 0 <= j < i :: !Invalid(v[j])
    {
      if Invalid(v[i]) { return Some(InvalidCharacters); }
      i := i + 1;
    }
    return None;
  }

  /** Type and name alternate in the segments of a path. */
  method ParsePairs(parts: seq<string>) returns (r: Result<seq<Field>>)
    requires |parts| % 2 == 0
    ensures r.Ok? ==> Pairs(r.value) == parts && forall i | 0 <= i < |r.value| :: ValidField(r.value[i])
    ensures r.Err? ==> exists i :: 0 <= i < |parts| && !Clean(parts[i])
    ensures r.Err? ==> r.error in {EmptyField, InvalidCharacters}
  {
    var fields: seq<Field> := [];
    var i := 0;
    while i < |parts|
      invariant 0 <= i <= |parts| && i % 2 == 0 && Pairs(fields) == parts[..i]
      invariant forall j | 0 <= j < |fields| :: ValidField(fields[j])
    {
      var e := ValidateName(parts[i]);
      if e.Some? { return Err(e.value); }
      e := ValidateName(parts[i + 1]);
      if e.Some? { return Err(e.value); }
      var f := Field(parts[i], parts[i + 1]);
      assert (fields + [f])[..|fields|] == fields;
      fields := fields + [f];
      assert parts[..i + 2] == parts[..i] + [parts[i], parts[i + 1]];
      i := i + 2;
    }
    assert parts[..i] == parts;
    return Ok(fields);
  }

  /** A string with a path cut off at the first slash. */
  lemma PathOf(s: string)
    requires Cut(s).1.Some?
    ensures Split(s) == [Cut(s).0] + Split(Cut(s).1.value)
  {
  }

  /** The form parsing checks: a clean domain, then nothing or pairs of clean names. */
  ghost predicate WellShaped(rest: string) {
    var (d, path) := Cut(rest);
    && Clean(d)
    && (path.Some? && path.value != "" ==>
          |Split(path.value)| % 2 == 0 && forall i | 0 <= i < |Split(path.value)| :: Clean(Split(path.value)[i]))
  }

  lemma CleanPairs(fields: seq<Field>, i: nat)
    requires i < |Pairs(fields)| && forall j | 0 <= j < |fields| :: ValidField(fields[j])
    ensures Clean(Pairs(fields)[i])
  {
    var j := i / 2;
    assert ValidField(fields[j]) && Pairs(fields)[2 * j] == fields[j].typ && Pairs(fields)[2 * j + 1] == fields[j].name;
    assert i == 2 * j || i == 2 * j + 1;
  }

  lemma AllPairsClean(fields: seq<Field>)
    requires forall j | 0 <= j < |fields| :: ValidField(fields[j])
    ensures |Pairs(fields)| % 2 == 0 && forall i | 0 <= i < |Pairs(fields)| :: Clean(Pairs(fields)[i])
  {
    forall i | 0 <= i < |Pairs(fields)| ensures Clean(Pairs(fields)[i]) { CleanPairs(fields, i); }
  }

  lemma DenotedIsWellShaped(s: string, id: Identity)
    requires Denotes(s, id)
    ensures PREFIX <= s && WellShaped(s[|PREFIX|..])
  {
    DenotedParts(s, id);
    if s == Uri(id) {
      PartsAreWellShaped(s[|PREFIX|..], id);
    } else {
      CleanHasNoSlash(id.domain);
      assert s[|PREFIX|..] == id.domain + "/" + "" by {
        assert Parts(id) == [id.domain];
      }
      CutIs(id.domain, Some(""));
    }
  }

  lemma PartsAreWellShaped(rest: string, id: Identity)
    requires ValidIdentity(id) && Split(rest) == Parts(id)
    ensures WellShaped(rest)
  {
    assert Cut(rest).0 == Split(rest)[0];
    AllPairsClean(id.fields);
    if Cut(rest).1.Some? {
      PathOf(rest);
      assert Split(Cut(rest).1.value) == Split(rest)[1..] == Pairs(id.fields);
    }
  }

  lemma NotDenoted(s: string)
    requires !(PREFIX <= s) || !WellShaped(s[|PREFIX|..])
    ensures forall id :: !Denotes(s, id)
  {
    forall id ensures !Denotes(s, id) {
      if Denotes(s, id) { DenotedIsWellShaped(s, id); }
    }
  }

  lemma OnlyDenotes(s: string, id: Identity)
    requires Denotes(s, id)
    ensures forall other | Denotes(s, other) :: other == id
  {
    forall other | Denotes(s, other) ensures other == id { DenotesOne(s, other, id); }
  }

  /** Parsing succeeds exactly on the strings that denote an identity, with that identity. */
  method Parse(s: string) returns (r: Result<Identity>)
    ensures r.Ok? ==> Denotes(s, r.value)
    ensures forall id | Denotes(s, id) :: r == Ok(id)
    ensures r == Err(InvalidScheme) <==> !(PREFIX <= s)
  {
    if !(PREFIX <= s) {
      NotDenoted(s);
      return Err(InvalidScheme);
    }
    var rest := s[|PREFIX|..];
    assert s == PREFIX + rest;
    var (d, path) := Cut(rest);
    var e := ValidateName(d);
    if e.Some? {
      NotDenoted(s);
      return Err(if e.value == EmptyField then EmptyDomain else e.value);
    }
    if path.None? || path.value == "" {
      r := Ok(Identity(d, []));
      assert Parts(r.value) == [d];
      OnlyDenotes(s, r.value);
      return;
    }
    var parts := Split(path.value);
    if |parts| % 2 != 0 {
      NotDenoted(s);
      return Err(InvalidPath);
    }
    var fields := ParsePairs(parts);
    if fields.Err? {
      NotDenoted(s);
      return Err(fields.error);
    }
    r := Ok(Identity(d, fields.value));
    JoinSplit(path.value);
    JoinCons(d, parts);
    OnlyDenotes(s, r.value);
  }

  /** Printing what was parsed gives the string back, or the string without its one trailing slash. */
  lemma PrintAfterParse(s: string, id: Identity)
    requires Denotes(s, id)
    ensures Uri(id) == s || (id.fields == [] && s == Uri(id) + "/" && !Denotes(s + "/", id))
    ensures Denotes(Uri(id), id)
  {
    if s != Uri(id) { assert |s + "/"| == |Uri(id)| + 2; }
  }
}
