/** The WWW-Authenticate challenge of a cloud registry (section 4.1 of RFC 7235, section 3 of RFC 6750). */
module Challenge {
  import opened BuildTypes
  import opened Text

  /** OutOfBounds stands for the index panic a malformed challenge causes. */
  datatype Outcome = Directive(service: string, realm: string) | WrongScheme | MissingRealm | OutOfBounds

  function Lower(c: char): char {
    if 'A' <= c <= 'Z' then (c as int + 32) as char else c
  }

  /** Case-insensitive comparison with "Bearer". */
  predicate IsBearer(s: string)
    ensures IsBearer(s) <==> && |s| == 6 && s[0] in "Bb" && s[1] in "Ee" && s[2] in "Aa" && s[3] in "Rr"
                             && s[4] in "Ee" && s[5] in "Rr"
  {
    |s| == 6 && forall i :: 0 <= i < 6 ==> Lower(s[i]) == "bearer"[i]
  }

  predicate IsQuote(c: char) {
    c == '"'
  }

  /** Key and unquoted value of one segment, if it contains an equals sign. */
  function Param(segment: string): Option<(string, string)> {
    var parts := Cut(Trim(segment, IsSpace), '=');
    if parts.None? then None else Some((parts.value.0, Trim(parts.value.1, IsQuote)))
  }

  /** The value of the last segment with a key, "" when there is none. */
  function LastValue(segments: seq<string>, key: string): string {
    if segments == [] then ""
    else
      var last := Param(segments[|segments| - 1]);
      if last.Some? && last.value.0 == key then last.value.1 else LastValue(segments[..|segments| - 1], key)
  }

  /** A later segment with the key overrides the earlier ones ... */
  lemma {:induction false} LastValueIsLast(segments: seq<string>, key: string, value: string, i: nat)
    requires i < |segments| && Param(segments[i]) == Some((key, value))
    requires forall j :: i < j < |segments| && Param(segments[j]).Some? ==> Param(segments[j]).value.0 != key
    ensures LastValue(segments, key) == value
  {
    if i < |segments| - 1 { LastValueIsLast(segments[..|segments| - 1], key, value, i); }
  }

  /** ... and a key of no segment has no value. */
  lemma {:induction false} NoValue(segments: seq<string>, key: string)
    requires forall j :: 0 <= j < |segments| && Param(segments[j]).Some? ==> Param(segments[j]).value.0 != key
    ensures LastValue(segments, key) == ""
  {
    if segments != [] { NoValue(segments[..|segments| - 1], key); }
  }

  function Scheme(header: string): string {
    var parts := Cut(header, ' ');
    if parts.Some? then parts.value.0 else header
  }

  function Segments(header: string): seq<string> {
    var parts := Cut(header, ' ');
    Split(if parts.Some? then parts.value.1 else "", ',')
  }

  lemma {:induction false} TrimLeftKeeps(s: string, drop: char -> bool, c: char)
    requires !drop(c)
    ensures c in TrimLeft(s, drop) <==> c in s
  {
    if s != [] && drop(s[0]) {
      TrimLeftKeeps(s[1..], drop, c);
      assert s == [s[0]] + s[1..];
    }
  }

  lemma {:induction false} TrimRightKeeps(s: string, drop: char -> bool, c: char)
    requires !drop(c)
    ensures c in TrimRight(s, drop) <==> c in s
  {
    if s != [] && drop(s[|s| - 1]) {
      TrimRightKeeps(s[..|s| - 1], drop, c);
      assert s == s[..|s| - 1] + [s[|s| - 1]];
    }
  }

  lemma ParamExists(segment: string)
    ensures Param(segment).Some? <==> '=' in segment
  {
    TrimLeftKeeps(segment, IsSpace, '=');
    TrimRightKeeps(TrimLeft(segment, IsSpace), IsSpace, '=');
  }

  predicate InBounds(header: string) {
    ' ' in header && forall segment :: segment in Segments(header) ==> '=' in segment
  }

  function Entry(params: map<string, string>, key: string): string {
    if key in params then params[key] else ""
  }

  /** The map holds the last value of every key of the segments. */
  ghost predicate Collects(params: map<string, string>, segments: seq<string>) {
    forall key :: LastValue(segments, key) == Entry(params, key)
  }

  lemma CollectsStep(params: map<string, string>, segments: seq<string>, n: nat)
    requires n < |segments| && Collects(params, segments[..n]) && Param(segments[n]).Some?
    ensures var (key, value) := Param(segments[n]).value; Collects(params[key := value], segments[..n + 1])
  {
    var (key, value) := Param(segments[n]).value;
    var params', segments' := params[key := value], segments[..n + 1];
    assert segments'[..n] == segments[..n];
    forall k ensures LastValue(segments', k) == Entry(params', k) {
      assert LastValue(segments[..n], k) == Entry(params, k);
    }
  }

  /** Fills the parameter map, or gives up at a segment without equals sign. */
  method CollectParams(segments: seq<string>) returns (r: Option<map<string, string>>)
    ensures r.Some? <==> forall segment :: segment in segments ==> '=' in segment
    ensures r.Some? ==> Collects(r.value, segments)
  {
    var params: map<string, string> := map[];
    for n := 0 to |segments|
      invariant forall i :: 0 <= i < n ==> '=' in segments[i]
      invariant Collects(params, segments[..n])
    {
      ParamExists(segments[n]);
      var param := Param(segments[n]);
      if param.None? { return None; }
      CollectsStep(params, segments, n);
      params := params[param.value.0 := param.value.1];
    }
    assert segments[..|segments|] == segments;
    return Some(params);
  }

  /** The parser. It stays in bounds exactly when a Bearer scheme is followed by a space and every
      comma segment contains an equals sign; then the last realm and service count. */
  method ParseChallenge(header: string) returns (r: Outcome)
    ensures r == WrongScheme <==> !IsBearer(Scheme(header))
    ensures r == OutOfBounds <==> IsBearer(Scheme(header)) && !InBounds(header)
    ensures r == MissingRealm ==> LastValue(Segments(header), "realm") == ""
    ensures r.Directive? ==>
              && r.realm != "" && r.realm == LastValue(Segments(header), "realm")
              && r.service == LastValue(Segments(header), "service")
  {
    var sections := Cut(header, ' ');
    if !IsBearer(if sections.Some? then sections.value.0 else header) { return WrongScheme; }
    if sections.None? { return OutOfBounds; }
    var params := CollectParams(Split(sections.value.1, ','));
    if params.None? { return OutOfBounds; }
    r := Decide(params.value, Segments(header));
  }

  /** The realm is required, the service is not. */
  method Decide(params: map<string, string>, ghost segments: seq<string>) returns (r: Outcome)
    requires Collects(params, segments)
    ensures var realm := LastValue(segments, "realm");
            r == if realm == "" then MissingRealm else Directive(LastValue(segments, "service"), realm)
  {
    var realm := Entry(params, "realm");
    if realm == "" { return MissingRealm; }
    return Directive(Entry(params, "service"), realm);
  }

  /** A parameter and the white space written around it. */
  datatype Parameter = Parameter(key: string, value: string, before: string, after: string)

  ghost predicate WellFormed(p: Parameter) {
    && (forall c :: c in p.key ==> c != ',' && c != '=' && !IsSpace(c))
    && ',' !in p.value
    && (p.value != [] ==> p.value[0] != '"' && p.value[|p.value| - 1] != '"')
    && (forall c :: c in p.before + p.after ==> IsSpace(c))
  }

  function Quoted(value: string): string {
    ['"'] + value + ['"']
  }

  function RenderParam(p: Parameter): string {
    p.before + (p.key + ['='] + Quoted(p.value)) + p.after
  }

  function RenderSegments(params: seq<Parameter>): seq<string> {
    seq(|params|, i requires 0 <= i < |params| => RenderParam(params[i]))
  }

  function Render(scheme: string, params: seq<Parameter>): string {
    scheme + " " + Join(RenderSegments(params), ',')
  }

  /** The padding goes and the parameter itself stays. */
  lemma TrimmedParam(p: Parameter)
    requires WellFormed(p)
    ensures Trim(RenderParam(p), IsSpace) == p.key + ['='] + Quoted(p.value)
  {
    var core := p.key + ['='] + Quoted(p.value);
    assert core[|core| - 1] == '"';
    assert core[0] == if p.key == [] then '=' else p.key[0];
    TrimPads(p.before, core, p.after, IsSpace);
  }

  lemma Unquoted(value: string)
    requires value != [] ==> value[0] != '"' && value[|value| - 1] != '"'
    ensures Trim(Quoted(value), IsQuote) == value
  {
    TrimPads(['"'], value, ['"'], IsQuote);
  }

  lemma ParamRoundTrip(p: Parameter)
    requires WellFormed(p)
    ensures Param(RenderParam(p)) == Some((p.key, p.value))
  {
    TrimmedParam(p);
    CutAt(p.key, Quoted(p.value), '=');
    Unquoted(p.value);
  }

  lemma ParamIsOneSegment(p: Parameter)
    requires WellFormed(p)
    ensures ',' !in RenderParam(p) && '=' in RenderParam(p)
  {
    forall c | c in p.before || c in p.after ensures c != ',' { assert c in p.before + p.after; }
    assert RenderParam(p)[|p.before| + |p.key|] == '=';
  }

  ghost predicate Distinct(params: seq<Parameter>) {
    forall i, j :: 0 <= i < j < |params| ==> params[i].key != params[j].key
  }

  /** What a list of parameters says about a key. */
  function ValueOf(params: seq<Parameter>, key: string): string {
    if params == [] then "" else if params[0].key == key then params[0].value else ValueOf(params[1..], key)
  }

  lemma {:induction false} ValueOfMember(params: seq<Parameter>, i: nat)
    requires Distinct(params) && i < |params|
    ensures ValueOf(params, params[i].key) == params[i].value
  {
    if i > 0 {
      assert params[1..][i - 1] == params[i];
      ValueOfMember(params[1..], i - 1);
    }
  }

  lemma {:induction false} ValueOfAbsent(params: seq<Parameter>, key: string)
    requires forall p :: p in params ==> p.key != key
    ensures ValueOf(params, key) == ""
  {
    if params != [] {
      assert params[0] in params;
      ValueOfAbsent(params[1..], key);
    }
  }

  lemma ValueOfPrefix(params: seq<Parameter>, n: nat, key: string)
    requires Distinct(params) && n == |params| - 1 && params[n].key != key
    ensures ValueOf(params, key) == ValueOf(params[..n], key)
  {
    if i :| 0 <= i < n && params[i].key == key {
      ValueOfMember(params, i);
      ValueOfMember(params[..n], i);
    } else {
      ValueOfAbsent(params, key);
      ValueOfAbsent(params[..n], key);
    }
  }

  /** The last segment decides for its own key. */
  lemma LastValueStep(segments: seq<string>, n: nat, key: string)
    requires n == |segments| - 1 && Param(segments[n]).Some?
    ensures LastValue(segments, key) ==
            var (last, value) := Param(segments[n]).value; if last == key then value else LastValue(segments[..n], key)
  {
  }

  /** Segments that read as the parameters, whatever their text, give each key its value. */
  lemma {:induction false} LastValueRead(segments: seq<string>, params: seq<Parameter>, key: string)
    requires |segments| == |params| && Distinct(params)
    requires forall i :: 0 <= i < |params| ==> Param(segments[i]) == Some((params[i].key, params[i].value))
    ensures LastValue(segments, key) == ValueOf(params, key)
  {
    if params == [] {
    } else {
      var n := |params| - 1;
      LastValueStep(segments, n, key);
      if params[n].key == key {
        ValueOfMember(params, n);
      } else {
        LastValueRead(segments[..n], params[..n], key);
        ValueOfPrefix(params, n, key);
      }
    }
  }

  /** Parsing undoes rendering: the segments of a rendered Bearer challenge give back
      the value of every key, whatever the order and the space around the parameters. */
  lemma ChallengeRoundTrip(scheme: string, params: seq<Parameter>, key: string)
    requires IsBearer(scheme) && params != []
    requires (forall p :: p in params ==> WellFormed(p)) && Distinct(params)
    ensures var header := Render(scheme, params);
            && Scheme(header) == scheme && ' ' in header
            && Segments(header) == RenderSegments(params)
            && (forall segment :: segment in Segments(header) ==> '=' in segment)
            && LastValue(Segments(header), key) == ValueOf(params, key)
  {
    var segments := RenderSegments(params);
    assert forall i :: 0 <= i < 6 ==> Lower(scheme[i]) != ' ';
    CutAt(scheme, Join(segments, ','), ' ');
    forall i | 0 <= i < |segments|
      ensures Param(segments[i]) == Some((params[i].key, params[i].value)) && ',' !in segments[i] && '=' in segments[i]
    {
      ParamRoundTrip(params[i]);
      ParamIsOneSegment(params[i]);
    }
    SplitJoin(segments, ',');
    LastValueRead(segments, params, key);
  }

  /** So a rendered challenge that names a realm yields exactly its realm and service. */
  method ParseRendered(scheme: string, params: seq<Parameter>) returns (r: Outcome)
    requires IsBearer(scheme) && params != []
    requires (forall p :: p in params ==> WellFormed(p)) && Distinct(params)
    ensures ValueOf(params, "realm") != "" ==> r == Directive(ValueOf(params, "service"), ValueOf(params, "realm"))
    ensures ValueOf(params, "realm") == "" ==> r == MissingRealm
  {
    ChallengeRoundTrip(scheme, params, "realm");
    ChallengeRoundTrip(scheme, params, "service");
    r := ParseChallenge(Render(scheme, params));
  }
}
