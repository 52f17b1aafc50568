/** The integration-event envelope, its validation, and the broker subject printed for it. */
module Event {

  import opened Wrappers
  import Uuid

  /** A decoded JSON value. Only the distinction that validation makes is kept: an object or something else. */
  datatype Json = JsonObject(text: string) | OtherJson(text: string)

  /** `occurredAt` is None for the zero time. */
  datatype Envelope = Envelope(
    id: string,
    eventType: string,
    version: int,
    occurredAt: Option<int>,
    tenantId: Option<string>,
    aggregateType: string,
    aggregateId: string,
    correlationId: string,
    causationId: string,
    data: Json)

  // ---------- Dot-separated tokens ----------

  predicate IsLower(c: char) {
    'a' <= c <= 'z'
  }

  predicate IsDecimalDigit(c: char) {
    '0' <= c <= '9'
  }

  predicate IsWordChar(c: char) {
    IsLower(c) || IsDecimalDigit(c) || c == '_'
  }

  predicate AllDigits(s: string) {
    forall i :: 0 <= i < |s| ==> IsDecimalDigit(s[i])
  }

  predicate AllWordOrDot(s: string) {
    forall i :: 0 <= i < |s| ==> IsWordChar(s[i]) || s[i] == '.'
  }

  /** A lowercase snake-case segment. */
  predicate IsSegment(s: string) {
    s != [] && IsLower(s[0]) && forall i :: 0 <= i < |s| ==> IsWordChar(s[i])
  }

  predicate AllSegments(tokens: seq<string>) {
    forall i :: 0 <= i < |tokens| ==> IsSegment(tokens[i])
  }

  /** The tokens between the dots of `s`. */
  function Split(s: string): (tokens: seq<string>)
    ensures tokens != []
  {
    if s == [] then [[]]
    else
      var rest := Split(s[1..]);
      if s[0] == '.' then [[]] + rest else [[s[0]] + rest[0]] + rest[1..]
  }

  function Join(tokens: seq<string>): string {
    if tokens == [] then [] else if |tokens| == 1 then tokens[0] else tokens[0] + "." + Join(tokens[1..])
  }

  /** At least two segments separated by dots. */
  predicate IsEventType(s: string) {
    |Split(s)| >= 2 && AllSegments(Split(s))
  }

  lemma {:induction false} SplitAppend(a: string, b: string)
    ensures Split(a + "." + b) == Split(a) + Split(b)
  {
    if a == [] {
      assert (a + "." + b)[1..] == b;
    } else {
      SplitAppend(a[1..], b);
      assert (a + "." + b)[1..] == a[1..] + "." + b;
      var c, ra, rb := a[0], Split(a[1..]), Split(b);
      if c != '.' {
        assert [[c] + (ra + rb)[0]] + (ra + rb)[1..] == ([[c] + ra[0]] + ra[1..]) + rb;
      }
    }
  }

  lemma {:induction false} SplitUndotted(s: string)
    requires '.' !in s
    ensures Split(s) == [s]
  {
    if s != [] {
      assert s[0] in s && s == [s[0]] + s[1..];
      SplitUndotted(s[1..]);
    }
  }

  lemma {:induction false} SplitJoin(tokens: seq<string>)
    requires tokens != [] && forall t <- tokens :: '.' !in t
    ensures Split(Join(tokens)) == tokens
  {
    if |tokens| == 1 {
      SplitUndotted(tokens[0]);
    } else {
      SplitJoin(tokens[1..]);
      SplitUndotted(tokens[0]);
      SplitAppend(tokens[0], Join(tokens[1..]));
      assert tokens == [tokens[0]] + tokens[1..];
    }
  }

  lemma {:induction false} JoinPrepend(c: char, rest: seq<string>)
    requires rest != []
    ensures Join([[c] + rest[0]] + rest[1..]) == [c] + Join(rest)
  {
    var tokens := [[c] + rest[0]] + rest[1..];
    assert tokens[1..] == rest[1..];
    if |rest| > 1 {
      assert Join(tokens) == ([c] + rest[0]) + "." + Join(rest[1..]);
      assert Join(rest) == rest[0] + "." + Join(rest[1..]);
    }
  }

  lemma {:induction false} JoinSplit(s: string)
    ensures Join(Split(s)) == s
  {
    if s != [] {
      var rest := Split(s[1..]);
      JoinSplit(s[1..]);
      if s[0] == '.' {
        assert ([[]] + rest)[1..] == rest;
      } else {
        JoinPrepend(s[0], rest);
      }
    }
  }

  /** A segment is a lowercase letter followed by lowercase letters, digits and underscores. */
  lemma SegmentPattern(s: string)
    ensures IsSegment(s) <==>
      s != "" && 'a' <= s[0] <= 'z' && forall c <- s :: 'a' <= c <= 'z' || '0' <= c <= '9' || c == '_'
  {
    assert forall i :: 0 <= i < |s| ==> s[i] in s;
  }

  /** Event types are exactly the joins of two or more segments: the pattern read as a regular expression. */
  lemma EventTypeIsJoin(s: string)
    ensures IsEventType(s) <==> exists tokens: seq<string> ::
      |tokens| >= 2 && s == Join(tokens) && forall i :: 0 <= i < |tokens| ==> IsSegment(tokens[i])
  {
    JoinSplit(s);
    if tokens: seq<string> :|
      |tokens| >= 2 && s == Join(tokens) && forall i :: 0 <= i < |tokens| ==> IsSegment(tokens[i])
    {
      SplitJoin(tokens);
    }
  }

  lemma {:induction false} JoinedChars(tokens: seq<string>)
    requires tokens != [] && AllSegments(tokens)
    ensures tokens[0] <= Join(tokens)
    ensures AllWordOrDot(Join(tokens))
  {
    if |tokens| > 1 {
      JoinedChars(tokens[1..]);
    }
  }

  /** An event type starts with a lowercase letter and holds only word characters and dots. */
  lemma EventTypeChars(s: string)
    requires IsEventType(s)
    ensures s != [] && IsLower(s[0]) && AllWordOrDot(s)
  {
    JoinedChars(Split(s));
    JoinSplit(s);
    assert Split(s)[0][0] == s[0];
  }

  // ---------- Decimal numbers ----------

  function DecimalChar(d: int): char
    requires 0 <= d < 10
  {
    '0' + d as char
  }

  function Decimal(n: nat): (s: string)
    ensures s != [] && AllDigits(s)
    ensures n >= 1 ==> s[0] != '0'
  {
    if n < 10 then [DecimalChar(n)] else Decimal(n / 10) + [DecimalChar(n % 10)]
  }

  function ParseDecimal(s: string): nat
    requires AllDigits(s)
  {
    if s == [] then 0
    else 10 * ParseDecimal(s[..|s| - 1]) + (s[|s| - 1] as int - '0' as int)
  }

  lemma {:induction false} ParsePrinted(n: nat)
    ensures ParseDecimal(Decimal(n)) == n
  {
    if n >= 10 {
      ParsePrinted(n / 10);
      var s := Decimal(n);
      assert s[..|s| - 1] == Decimal(n / 10);
    }
  }

  // ---------- Subjects ----------

  const PREFIX := "manoreck.events."

  /** The consumer's filter subject. */
  const INFRASTRUCTURE_SUBJECT := "manoreck.events.infrastructure.probe.v1"

  function SubjectOf(eventType: string, version: nat): string {
    PREFIX + eventType + ".v" + Decimal(version)
  }

  /** The position of the last dot, or -1. */
  function LastDot(s: string): (i: int)
    ensures -1 <= i < |s|
    ensures i >= 0 ==> s[i] == '.'
  {
    if s == [] then -1 else if s[|s| - 1] == '.' then |s| - 1 else LastDot(s[..|s| - 1])
  }

  /** Reads a subject back: what lies between the prefix and the last dot, and the number after `v`. */
  function ParseSubject(s: string): Option<(string, nat)> {
    if |s| < |PREFIX| || s[..|PREFIX|] != PREFIX then None
    else
      var body := s[|PREFIX|..];
      var i := LastDot(body);
      if i < 0 || i + 2 >= |body| || body[i + 1] != 'v' then None
      else if AllDigits(body[i + 2..]) then Some((body[..i], ParseDecimal(body[i + 2..])))
      else None
  }

  lemma {:induction false} LastDotOf(a: string, b: string)
    requires '.' !in b
    ensures LastDot(a + "." + b) == |a|
  {
    var s := a + "." + b;
    if b != [] {
      assert s[..|s| - 1] == a + "." + b[..|b| - 1];
      LastDotOf(a, b[..|b| - 1]);
    }
  }

  /** Splitting a subject at its last dot recovers the type and version it was printed from. */
  lemma SubjectRoundTrip(eventType: string, version: nat)
    ensures ParseSubject(SubjectOf(eventType, version)) == Some((eventType, version))
  {
    var s, d := SubjectOf(eventType, version), Decimal(version);
    var body := s[|PREFIX|..];
    assert body == eventType + "." + ("v" + d);
    LastDotOf(eventType, "v" + d);
    assert body[|eventType| + 2..] == d && body[..|eventType|] == eventType;
    ParsePrinted(version);
  }

  lemma SubjectInjective(type1: string, version1: nat, type2: string, version2: nat)
    ensures SubjectOf(type1, version1) == SubjectOf(type2, version2) <==> type1 == type2 && version1 == version2
  {
    SubjectRoundTrip(type1, version1);
    SubjectRoundTrip(type2, version2);
  }

  /** The table's subject constraint, with the parts that the pattern's two repetitions match. */
  predicate MatchesSubjectFormat(s: string, middle: string, number: string) {
    && s == PREFIX + middle + ".v" + number
    && middle != [] && IsLower(middle[0]) && AllWordOrDot(middle)
    && number != [] && '1' <= number[0] <= '9' && AllDigits(number)
  }

  /** A valid envelope's subject meets the table's constraint. */
  lemma SubjectMeetsConstraint(eventType: string, version: nat)
    requires IsEventType(eventType) && version >= 1
    ensures MatchesSubjectFormat(SubjectOf(eventType, version), eventType, Decimal(version))
  {
    EventTypeChars(eventType);
  }

  lemma HeadTokens(first: string, second: string)
    requires '.' !in first && '.' !in second
    ensures Split(first + "." + second) == [first, second]
  {
    SplitAppend(first, second);
    SplitUndotted(first);
    SplitUndotted(second);
  }

  /** The tokens of a subject are those of its parts; for a valid envelope none of them is empty. */
  lemma SubjectTokens(eventType: string, version: nat)
    ensures Split(SubjectOf(eventType, version)) == ["manoreck", "events"] + Split(eventType) + ["v" + Decimal(version)]
    ensures IsEventType(eventType) ==> [] !in Split(SubjectOf(eventType, version))
  {
    var head, last := "manoreck" + "." + "events", "v" + Decimal(version);
    assert PREFIX == head + ".";
    assert SubjectOf(eventType, version) == (head + "." + eventType) + "." + last;
    SplitAppend(head + "." + eventType, last);
    SplitAppend(head, eventType);
    HeadTokens("manoreck", "events");
    SplitUndotted(last);
  }

  /** The consumer's filter selects exactly version 1 of the infrastructure probe. */
  lemma FilterSubject(eventType: string, version: nat)
    ensures SubjectOf(eventType, version) == INFRASTRUCTURE_SUBJECT
       <==> eventType == "infrastructure.probe" && version == 1
  {
    assert SubjectOf("infrastructure.probe", 1) == INFRASTRUCTURE_SUBJECT;
    SubjectInjective(eventType, version, "infrastructure.probe", 1);
  }

  // ---------- Validation ----------

  /** The identifier fields that validation checks, in its order. */
  function Identifiers(e: Envelope): seq<(string, string)> {
    [("id", e.id), ("aggregate.id", e.aggregateId),
     ("correlation_id", e.correlationId), ("causation_id", e.causationId)]
    + (if e.tenantId.Some? then [("tenant_id", e.tenantId.value)] else [])
  }

  predicate Valid(e: Envelope) {
    && Uuid.IsV7(e.id) && Uuid.IsV7(e.aggregateId) && Uuid.IsV7(e.correlationId) && Uuid.IsV7(e.causationId)
    && (e.tenantId.Some? ==> Uuid.IsV7(e.tenantId.value))
    && IsEventType(e.eventType)
    && e.version >= 1
    && e.occurredAt.Some?
    && IsSegment(e.aggregateType)
    && e.data.JsonObject?
  }

  /** The identifier loop finds the first invalid identifier. */
  lemma FirstInvalidIdentifier(e: Envelope, i: nat)
    requires i < |Identifiers(e)| && !Uuid.IsV7(Identifiers(e)[i].1)
    requires forall j :: 0 <= j < i ==> Uuid.IsV7(Identifiers(e)[j].1)
    ensures Identifiers(e)[i].0 ==
      if !Uuid.IsV7(e.id) then "id"
      else if !Uuid.IsV7(e.aggregateId) then "aggregate.id"
      else if !Uuid.IsV7(e.correlationId) then "correlation_id"
      else if !Uuid.IsV7(e.causationId) then "causation_id"
      else "tenant_id"
    ensures !Uuid.IsV7(e.id) || !Uuid.IsV7(e.aggregateId) || !Uuid.IsV7(e.correlationId)
      || !Uuid.IsV7(e.causationId) || (e.tenantId.Some? && !Uuid.IsV7(e.tenantId.value))
  {
    var fields := Identifiers(e);
    assert fields[0] == ("id", e.id) && fields[1] == ("aggregate.id", e.aggregateId);
    assert fields[2] == ("correlation_id", e.correlationId) && fields[3] == ("causation_id", e.causationId);
    assert 0 < i ==> Uuid.IsV7(fields[0].1);
    assert 1 < i ==> Uuid.IsV7(fields[1].1);
    assert 2 < i ==> Uuid.IsV7(fields[2].1);
    assert 3 < i ==> Uuid.IsV7(fields[3].1);
  }

  /** Envelope.Validate: no error means a valid envelope; an error names the first field that is invalid. */
  method Validate(e: Envelope) returns (error: Option<string>)
    ensures error.None? <==> Valid(e)
    ensures error ==
      if !Uuid.IsV7(e.id) then Some("id")
      else if !Uuid.IsV7(e.aggregateId) then Some("aggregate.id")
      else if !Uuid.IsV7(e.correlationId) then Some("correlation_id")
      else if !Uuid.IsV7(e.causationId) then Some("causation_id")
      else if e.tenantId.Some? && !Uuid.IsV7(e.tenantId.value) then Some("tenant_id")
      else if !IsEventType(e.eventType) then Some("type")
      else if e.version < 1 then Some("version")
      else if e.occurredAt.None? then Some("occurred_at")
      else if !IsSegment(e.aggregateType) then Some("aggregate.type")
      else if !e.data.JsonObject? then Some("data")
      else None
  {
    var fields := Identifiers(e);
    for i := 0 to |fields|
      invariant forall j :: 0 <= j < i ==> Uuid.IsV7(fields[j].1)
    {
      var ok := Uuid.IsUuidV7(fields[i].1);
      if !ok {
        FirstInvalidIdentifier(e, i);
        return Some(fields[i].0);
      }
    }
    assert Uuid.IsV7(fields[0].1) && Uuid.IsV7(fields[1].1) && Uuid.IsV7(fields[2].1) && Uuid.IsV7(fields[3].1);
    assert e.tenantId.Some? ==> Uuid.IsV7(fields[4].1);
    if !IsEventType(e.eventType) {
      return Some("type");
    }
    if e.version < 1 {
      return Some("version");
    }
    if e.occurredAt.None? {
      return Some("occurred_at");
    }
    if !IsSegment(e.aggregateType) {
      return Some("aggregate.type");
    }
    if !e.data.JsonObject? {
      return Some("data");
    }
    return None;
  }

  /** Envelope.Subject: refuses an invalid envelope; otherwise the subject reads back to its type and version. */
  method Subject(e: Envelope) returns (r: Result<string, string>)
    ensures r.Ok? <==> Valid(e)
    ensures r.Ok? ==> r.value == SubjectOf(e.eventType, e.version)
    ensures r.Ok? ==> ParseSubject(r.value) == Some((e.eventType, e.version as nat))
  {
    var error := Validate(e);
    if error.Some? {
      return Err(error.value);
    }
    SubjectRoundTrip(e.eventType, e.version);
    return Ok(PREFIX + e.eventType + ".v" + Decimal(e.version));
  }
}
