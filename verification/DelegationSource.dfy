/** The source string of a delegated run: who started it, and at what depth. */
module DelegationSource {
  import opened Wrappers
  import opened TextCodec

  function Prefix(): string { "agent-delegation:v1:" }

  const MAX_DEPTH: nat := 3
  const MAX_ID: nat := 256

  /** An id as a string holds it: any sequence of UTF-16 code units. */
  type Id = t: Text | IsText(t)

  /** The session id is never empty. */
  datatype Provenance = Provenance(session: Text, run: Option<Text>, depth: nat)

  // ---- Numbers and fields ------------------------------------------------------

  function Decimal(n: nat): (s: string)
    ensures s != ""
    ensures forall i :: 0 <= i < |s| ==> '0' <= s[i] <= '9'
  {
    (if n < 10 then "" else Decimal(n / 10)) + [('0' as int + n % 10) as char]
  }

  /** None where the text is not a row of digits; the empty text is zero. */
  function Number(s: string): Option<nat> {
    if s == "" then Some(0)
    else
      var init, last := Number(s[..|s| - 1]), s[|s| - 1];
      if init.None? || !('0' <= last <= '9') then None else Some(init.value * 10 + (last as int - '0' as int))
  }

  lemma {:induction false} DecimalRoundTrip(n: nat)
    ensures Number(Decimal(n)) == Some(n)
  {
    var s := Decimal(n);
    if n < 10 {
      assert s[..|s| - 1] == "";
    } else {
      DecimalRoundTrip(n / 10);
      assert s[..|s| - 1] == Decimal(n / 10);
    }
  }

  function Split(s: string): (fields: seq<string>)
    ensures |fields| >= 1
  {
    if s == "" then [""]
    else if s[0] == ':' then [""] + Split(s[1..])
    else [[s[0]] + Split(s[1..])[0]] + Split(s[1..])[1..]
  }

  lemma {:induction false} SplitFirst(field: string, rest: string)
    requires ':' !in field
    ensures Split(field + ":" + rest) == [field] + Split(rest)
    ensures Split(field) == [field]
  {
    if field == "" {
      assert field + ":" + rest == ":" + rest;
      assert (":" + rest)[1..] == rest;
    } else {
      SplitFirst(field[1..], rest);
      var s := field + ":" + rest;
      assert s[1..] == field[1..] + ":" + rest;
      assert field == [field[0]] + field[1..];
      assert s[0] == field[0] && field[0] in field;
      assert Split(s) == [[s[0]] + ([field[1..]] + Split(rest))[0]] + ([field[1..]] + Split(rest))[1..];
    }
  }

  function More(more: string): string {
    if more != "" then ":" + more else ""
  }

  lemma LastField(c: string, more: string)
    requires ':' !in c
    ensures Split(c + More(more))[0] == c
  {
    hide Split;
    SplitFirst(c, more);
    if more == "" {
      assert c + More(more) == c;
    } else {
      assert c + More(more) == c + ":" + more;
    }
  }

  lemma ThreeFields(a: string, b: string, c: string, more: string)
    requires ':' !in a && ':' !in b && ':' !in c
    ensures var fields := Split(a + ":" + b + ":" + c + More(more));
      |fields| >= 3 && fields[0] == a && fields[1] == b && fields[2] == c
  {
    hide Split, More;
    var tail := c + More(more);
    LastField(c, more);
    SplitFirst(b, tail);
    SplitFirst(a, b + ":" + tail);
    Regrouped(a, ":", b, ":", c, More(more));
    assert Split(a + ":" + b + ":" + c + More(more)) == [a] + ([b] + Split(tail));
  }

  lemma Regrouped(a: string, x: string, b: string, y: string, c: string, z: string)
    ensures a + x + b + y + c + z == a + x + (b + y + (c + z))
  {
    assert a + x + b + y + c + z == a + x + (b + y + c + z);
    assert b + y + c + z == b + y + (c + z);
  }

  // ---- Print and parse ---------------------------------------------------------

  function RunField(run: Option<Id>): string {
    if run.Some? && run.value != [] then ToBase64Url(Encode(run.value)) else "-"
  }

  /** digest: the hashed idempotency key, empty when there is none. */
  function Source(session: Id, run: Option<Id>, depth: nat, digest: string): string {
    Prefix() + (Decimal(depth) + ":" + ToBase64Url(Encode(session)) + ":" + RunField(run) + More(digest))
  }

  function Parse(source: string): Option<Provenance> {
    if Prefix() <= source then ParseFields(Split(source[|Prefix()|..])) else None
  }

  function ParseFields(fields: seq<string>): Option<Provenance>
    requires |fields| >= 1
  {
    var depth := Number(fields[0]);
    var sessionRaw := if |fields| > 1 then fields[1] else "";
    var runRaw := if |fields| > 2 then fields[2] else "";
    if depth.None? || depth.value < 1 || depth.value > MAX_DEPTH || sessionRaw == "" then None
    else
      var session := Decode(FromBase64Url(sessionRaw));
      var run := if runRaw != "" && runRaw != "-" then Decode(FromBase64Url(runRaw)) else [];
      if session == [] || |session| > MAX_ID || |run| > MAX_ID then None
      else Some(Provenance(session, if run == [] then None else Some(run), depth.value))
  }

  lemma FieldRoundTrip(t: Text)
    requires IsText(t)
    ensures Decode(FromBase64Url(ToBase64Url(Encode(t)))) == Repair(t) && |Repair(t)| == |t|
    ensures ':' !in ToBase64Url(Encode(t))
    ensures if t == [] then ToBase64Url(Encode(t)) == "" else |ToBase64Url(Encode(t))| >= 2
  {
    Utf8RoundTrip(t);
    Base64UrlRoundTrip(Encode(t));
    RepairExact(t);
  }

  function RepairRun(run: Option<Id>): Option<Text> {
    if run.None? || run.value == [] then None else Some(Repair(run.value))
  }

  predicate Readable(session: Id, run: Option<Id>, depth: nat) {
    1 <= depth <= MAX_DEPTH && 1 <= |session| <= MAX_ID && (run.Some? ==> |run.value| <= MAX_ID)
  }

  lemma SourceFields(session: Id, run: Option<Id>, depth: nat, digest: string)
    ensures var source := Source(session, run, depth, digest);
      var fields := Split(source[|Prefix()|..]);
      |fields| >= 3 && fields[0] == Decimal(depth) && fields[1] == ToBase64Url(Encode(session)) && fields[2] == RunField(run)
  {
    hide Prefix, Split, Repair, Decode, FromBase64Url, ToBase64Url, Encode, Decimal;
    FieldRoundTrip(session);
    if run.Some? && run.value != [] {
      FieldRoundTrip(run.value);
    }
    assert ':' !in Decimal(depth) && ':' !in RunField(run);
    ThreeFields(Decimal(depth), ToBase64Url(Encode(session)), RunField(run), digest);
    var body := Decimal(depth) + ":" + ToBase64Url(Encode(session)) + ":" + RunField(run) + More(digest);
    assert Source(session, run, depth, digest)[|Prefix()|..] == body;
  }

  /** Parsing a printed source, whatever the idempotency key: at depth 1 to 3, with ids within 256
      units, it gives back the ids with lone surrogates replaced; otherwise it gives nothing. */
  lemma ParseOfSource(session: Id, run: Option<Id>, depth: nat, digest: string)
    ensures Parse(Source(session, run, depth, digest)) ==
      if Readable(session, run, depth) then Some(Provenance(Repair(session), RepairRun(run), depth)) else None
  {
    SourceFields(session, run, depth, digest);
    var source := Source(session, run, depth, digest);
    assert Prefix() <= source;
    ParseOfFields(session, run, depth, Split(source[|Prefix()|..]));
    hide ParseFields, Split, Source;
  }

  lemma ParseOfFields(session: Id, run: Option<Id>, depth: nat, fields: seq<string>)
    requires |fields| >= 3 && fields[0] == Decimal(depth) && fields[1] == ToBase64Url(Encode(session)) && fields[2] == RunField(run)
    ensures ParseFields(fields) ==
      if Readable(session, run, depth) then Some(Provenance(Repair(session), RepairRun(run), depth)) else None
  {
    hide Repair, Decode, FromBase64Url, ToBase64Url, Encode, Decimal, Number;
    DecimalRoundTrip(depth);
    FieldRoundTrip(session);
    if run.Some? {
      FieldRoundTrip(run.value);
    }
  }

  /** So parsing undoes printing just when the ids are within the limits and have no lone surrogate. */
  lemma RoundTripJustWhen(session: Id, run: Option<Id>, depth: nat, digest: string)
    requires run != Some([])
    ensures Parse(Source(session, run, depth, digest)) == Some(Provenance(session, run, depth)) <==>
      Readable(session, run, depth) && WellFormed(session) && (run.Some? ==> WellFormed(run.value))
  {
    ParseOfSource(session, run, depth, digest);
    RepairExact(session);
    if run.Some? {
      RepairExact(run.value);
    }
    hide Source, Repair, WellFormed, Parse;
  }

  lemma SameRunField(run: Option<Id>, run': Option<Id>)
    ensures RunField(run) == RunField(run') <==> RepairRun(run) == RepairRun(run')
  {
    hide Decode, FromBase64Url, ToBase64Url, Encode, Repair;
    if run.Some? && run.value != [] {
      FieldRoundTrip(run.value);
    }
    if run'.Some? && run'.value != [] {
      FieldRoundTrip(run'.value);
    }
    if run.Some? && run'.Some? {
      SameBytesJustWhen(run.value, run'.value);
    }
  }

  lemma SameEnd(front: string, digest: string, digest': string)
    requires front + More(digest) == front + More(digest')
    ensures digest == digest'
  {
    assert More(digest) == (front + More(digest))[|front|..] == More(digest');
    if digest != "" {
      assert digest == More(digest)[1..];
    }
    if digest' != "" {
      assert digest' == More(digest')[1..];
    }
  }

  /** Two starts print the same source just when their keys and depths are the same and their ids are,
      once lone surrogates are replaced. */
  lemma SameSourceJustWhen(session: Id, run: Option<Id>, depth: nat, digest: string, session': Id, run': Option<Id>,
      depth': nat, digest': string)
    ensures Source(session, run, depth, digest) == Source(session', run', depth', digest') <==>
      Repair(session) == Repair(session') && RepairRun(run) == RepairRun(run') && depth == depth' && digest == digest'
  {
    SameRunField(run, run');
    SameBytesJustWhen(session, session');
    if Source(session, run, depth, digest) == Source(session', run', depth', digest') {
      SameSourceSameFields(session, run, depth, digest, session', run', depth', digest');
      hide *;
    } else {
      hide Decimal, Repair, Encode, RepairRun, RunField, More;
    }
  }

  lemma SameSourceSameFields(session: Id, run: Option<Id>, depth: nat, digest: string, session': Id, run': Option<Id>,
      depth': nat, digest': string)
    requires Source(session, run, depth, digest) == Source(session', run', depth', digest')
    ensures Encode(session) == Encode(session') && RunField(run) == RunField(run') && depth == depth' && digest == digest'
  {
    var front := Prefix() + (Decimal(depth) + ":" + ToBase64Url(Encode(session)) + ":" + RunField(run));
    assert Source(session, run, depth, digest) == front + More(digest) by { hide Decimal, Prefix, Encode, RunField; }
    var front' := Prefix() + (Decimal(depth') + ":" + ToBase64Url(Encode(session')) + ":" + RunField(run'));
    assert Source(session', run', depth', digest') == front' + More(digest') by { hide Decimal, Prefix, Encode, RunField; }
    hide *;
    SourceFields(session, run, depth, digest);
    SourceFields(session', run', depth', digest');
    Base64UrlRoundTrip(Encode(session));
    Base64UrlRoundTrip(Encode(session'));
    DecimalRoundTrip(depth);
    DecimalRoundTrip(depth');
    assert front == front';
    SameEnd(front, digest, digest');
  }
}
