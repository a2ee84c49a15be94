/** What the control plane makes of a start: it trims session, run and key, refuses what is out of bounds,
    prints the source, and gives each session and key one run. */
module DelegationStamp {
  import opened Wrappers
  import opened TextCodec
  import opened DelegationSource

  const MAX_KEY: nat := 128
  const NUL: nat := 0

  /** What the backend says about the calling session: the run it belongs to and its own depth. */
  datatype Context = Context(run: Option<Id>, above: nat)

  /** A child is one deeper than the session that starts it. */
  function Depth(c: Context): nat {
    c.above + 1
  }

  // ---- White space -----------------------------------------------------------------

  predicate Space(u: nat) {
    9 <= u <= 13 || u == 0x20 || u == 0xA0 || u == 0x1680 || 0x2000 <= u <= 0x200A || u == 0x2028 || u == 0x2029 ||
    u == 0x202F || u == 0x205F || u == 0x3000 || u == 0xFEFF
  }

  function TrimStart(t: Id): (r: Id) {
    if t != [] && Space(t[0]) then TrimStart(t[1..]) else t
  }

  function TrimEnd(t: Id): (r: Id) {
    if t != [] && Space(t[|t| - 1]) then TrimEnd(t[..|t| - 1]) else t
  }

  function Trim(t: Id): (r: Id) {
    TrimEnd(TrimStart(t))
  }

  /** No white space at either end. */
  predicate Tidy(t: Id) {
    t == [] || (!Space(t[0]) && !Space(t[|t| - 1]))
  }

  lemma {:induction false} TrimStartExact(t: Id)
    ensures var r := TrimStart(t); |r| <= |t| && (r == [] || !Space(r[0])) && (r == t <==> |r| == |t|)
    ensures t == [] || !Space(t[0]) ==> TrimStart(t) == t
    ensures t != [] && Space(t[0]) ==> |TrimStart(t)| < |t|
  {
    if t != [] && Space(t[0]) {
      TrimStartExact(t[1..]);
    }
  }

  lemma {:induction false} TrimEndExact(t: Id)
    ensures var r := TrimEnd(t); r <= t && (r == [] || !Space(r[|r| - 1]))
    ensures t == [] || !Space(t[|t| - 1]) ==> TrimEnd(t) == t
    ensures t != [] && Space(t[|t| - 1]) ==> |TrimEnd(t)| < |t|
  {
    if t != [] && Space(t[|t| - 1]) {
      TrimEndExact(t[..|t| - 1]);
    }
  }

  /** Trimming gives tidy text, and the text itself just when it was tidy; otherwise it is shorter. */
  lemma TrimExact(t: Id)
    ensures Tidy(Trim(t)) && |Trim(t)| <= |t|
    ensures if Tidy(t) then Trim(t) == t else |Trim(t)| < |t|
  {
    TrimStartExact(t);
    TrimEndExact(TrimStart(t));
    var r := TrimStart(t);
    if Trim(t) != [] {
      assert Trim(t)[0] == r[0];
    }
  }

  // ---- Repairing ---------------------------------------------------------------------

  lemma RepairPair(t: Text)
    requires IsText(t) && |t| > 1 && High(t[0]) && Low(t[1])
    ensures Repair(t) == [t[0], t[1]] + Repair(t[2..])
  {
    assert Scalars(t)[1..] == Scalars(t[2..]);
    PairUnits(t[0], t[1]);
  }

  lemma RepairOne(t: Text)
    requires IsText(t) && t != [] && !(High(t[0]) && |t| > 1 && Low(t[1]))
    ensures Repair(t) == [if High(t[0]) || Low(t[0]) then REPLACEMENT else t[0]] + Repair(t[1..])
  {
    assert Scalars(t)[1..] == Scalars(t[1..]);
  }

  lemma {:induction false} RepairJoin(a: Text, b: Text)
    requires IsText(a) && IsText(b)
    ensures Repair(a + [NUL] + b) == Repair(a) + [NUL] + Repair(b)
  {
    hide Repair;
    var whole := a + [NUL] + b;
    if a == [] {
      assert Repair([]) == [] by { RepairExact([]); }
      assert whole[1..] == b;
      RepairOne(whole);
    } else if High(a[0]) && |a| > 1 && Low(a[1]) {
      RepairJoin(a[2..], b);
      assert whole[2..] == a[2..] + [NUL] + b && whole[0] == a[0] && whole[1] == a[1];
      RepairPair(a);
      RepairPair(whole);
      assert Repair(whole) == [a[0], a[1]] + (Repair(a[2..]) + [NUL] + Repair(b));
    } else {
      RepairJoin(a[1..], b);
      assert whole[1..] == a[1..] + [NUL] + b && whole[0] == a[0];
      RepairOne(a);
      RepairOne(whole);
      assert Repair(whole) == [Repair(a)[0]] + (Repair(a[1..]) + [NUL] + Repair(b));
    }
  }

  lemma RepairTwice(t: Text)
    requires IsText(t)
    ensures IsText(Repair(t)) && Repair(Repair(t)) == Repair(t)
  {
    ScalarsOfUnits(Scalars(t));
  }

  /** Repairing makes and removes no white space at the ends. */
  lemma RepairTidy(t: Id)
    ensures IsText(Repair(t)) && |Repair(t)| == |t|
    ensures Tidy(Repair(t)) <==> Tidy(t)
    ensures t != [] ==> (Space(Repair(t)[0]) <==> Space(t[0]))
  {
    RepairTwice(t);
    RepairExact(t);
    if t != [] {
      RepairEnds(t);
    }
  }

  lemma NoSpace(u: nat)
    ensures High(u) || Low(u) || u == REPLACEMENT ==> !Space(u)
  {}

  lemma NothingToRepair()
    ensures Repair([]) == []
  {}

  lemma {:induction false} RepairEnds(t: Text)
    requires IsText(t) && t != []
    ensures |Repair(t)| == |t| && (Space(Repair(t)[0]) <==> Space(t[0])) && (Space(Repair(t)[|t| - 1]) <==> Space(t[|t| - 1]))
  {
    hide Repair, Space, WellFormed;
    NothingToRepair();
    NoSpace(t[0]);
    NoSpace(REPLACEMENT);
    if High(t[0]) && |t| > 1 && Low(t[1]) {
      RepairPair(t);
      if |t| > 2 {
        RepairEnds(t[2..]);
      } else {
        assert t[2..] == [] && Repair(t)[1] == t[1];
      }
    } else {
      RepairOne(t);
      if |t| > 1 {
        RepairEnds(t[1..]);
      } else {
        assert t[1..] == [] && |Repair(t)| == 1;
      }
    }
  }

  // ---- Keys and sources --------------------------------------------------------------

  /** undefined, or neither blank nor too long. */
  predicate GoodKey(key: Id) {
    key == [] || (Trim(key) != [] && |key| <= MAX_KEY)
  }

  /** The hash of a key, which stands for the bytes that are hashed. */
  function Digest(key: Id): string {
    if key == [] then "" else ToBase64Url(Encode(key))
  }

  lemma SameDigestJustWhen(key: Id, key': Id)
    ensures Digest(key) == Digest(key') <==> Repair(key) == Repair(key')
  {
    hide ToBase64Url, Encode, Repair, Decode, FromBase64Url;
    SameBytesJustWhen(key, key');
    FieldRoundTrip(key);
    FieldRoundTrip(key');
    RepairExact(key);
    RepairExact(key');
  }

  function SourceOf(session: Id, c: Context, key: Id): string {
    Source(session, c.run, Depth(c), Digest(key))
  }

  lemma SameSourceOfJustWhen(s: Id, c: Context, key: Id, s': Id, c': Context, key': Id)
    ensures SourceOf(s, c, key) == SourceOf(s', c', key') <==>
      Repair(s) == Repair(s') && RepairRun(c.run) == RepairRun(c'.run) && Depth(c) == Depth(c') && Repair(key) == Repair(key')
  {
    SameSourceJustWhen(s, c.run, Depth(c), Digest(key), s', c'.run, Depth(c'), Digest(key'));
    SameDigestJustWhen(key, key');
    hide Source, Digest, Repair, RepairRun;
  }

  /** source: what the run will carry. unique: what no two runs share. */
  datatype Ticket = Ticket(source: string, unique: Option<seq<nat>>)

  function TrimRun(run: Option<Id>): Option<Id> {
    if run.None? || Trim(run.value) == [] then None else Some(Trim(run.value))
  }

  function Trimmed(c: Context): Context {
    c.(run := TrimRun(c.run))
  }

  function Unique(session: Id, key: Id): Option<seq<nat>> {
    if Trim(key) == [] then None else Some(Encode(Trim(session) + [NUL] + Trim(key)))
  }

  /** A session that can start runs at all. */
  predicate CanStart(session: Id) {
    1 <= |Trim(session)| <= MAX_ID
  }

  predicate InBounds(session: Id, c: Context) {
    CanStart(session) && (TrimRun(c.run).Some? ==> |TrimRun(c.run).value| <= MAX_ID) && Depth(c) <= MAX_DEPTH
  }

  function Stamp(session: Id, c: Context, key: Id): Option<Ticket> {
    if !InBounds(session, c) then None
    else Some(Ticket(SourceOf(Trim(session), Trimmed(c), Trim(key)), Unique(session, key)))
  }

  /** Whom a stamped source names: the starter, trimmed and with lone surrogates replaced. */
  function Plain(session: Id): Text {
    Repair(Trim(session))
  }

  lemma StampNames(session: Id, c: Context, key: Id)
    requires Stamp(session, c, key).Some?
    ensures var p := Parse(Stamp(session, c, key).value.source); p.Some? && p.value.session == Plain(session)
  {
    hide Source, Parse, Repair, Digest;
    ParseOfSource(Trim(session), Trimmed(c).run, Depth(c), Digest(Trim(key)));
  }

  /** A session's own id: nothing of it is trimmed or replaced. */
  predicate Counted(session: Id) {
    Tidy(session) && WellFormed(session)
  }

  lemma PlainExact(session: Id)
    ensures |Plain(session)| == |Trim(session)| <= |session| && IsText(Plain(session)) && Tidy(Plain(session))
    ensures Plain(session) == session <==> Counted(session)
  {
    TrimExact(session);
    RepairTidy(Trim(session));
    RepairExact(Trim(session));
  }

  // ---- One run for two sessions ----------------------------------------------------------

  /** p and the first part of q, up to a NUL, are the same, and the rest of q can begin a key. */
  predicate Joins(p: Text, q: Text) {
    p + [NUL] <= q && var rest := q[|p| + 1..]; |rest| + 2 <= MAX_KEY && (rest == [] || !Space(rest[0]))
  }

  /** Sessions the control plane cannot tell apart. */
  predicate Alike(s: Id, t: Id) {
    CanStart(s) && CanStart(t) && (Plain(s) == Plain(t) || Joins(Plain(s), Plain(t)) || Joins(Plain(t), Plain(s)))
  }

  lemma UniqueParts(s: Id, k: Id, t: Id, k': Id)
    requires Unique(s, k).Some? && Unique(t, k').Some?
    ensures Unique(s, k) == Unique(t, k') <==> Plain(s) + [NUL] + Plain(k) == Plain(t) + [NUL] + Plain(k')
  {
    hide Encode, Repair, Trim;
    SameBytesJustWhen(Trim(s) + [NUL] + Trim(k), Trim(t) + [NUL] + Trim(k'));
    RepairJoin(Trim(s), Trim(k));
    RepairJoin(Trim(t), Trim(k'));
  }

  lemma JoinedEnds(p: Text, x: Text, q: Text, y: Text)
    requires p + [NUL] + x == q + [NUL] + y && |p| < |q|
    ensures p + [NUL] <= q && x == q[|p| + 1..] + [NUL] + y
  {
    var whole := p + [NUL] + x;
    assert whole[..|p| + 1] == p + [NUL] && whole[..|q|] == q && whole[|q|] == NUL;
    assert x == whole[|p| + 1..] && y == whole[|q| + 1..];
    assert x[..|q| - |p| - 1] == q[|p| + 1..];
  }

  lemma JoinsIs(s: Id, k: Id, t: Id, k': Id)
    requires Unique(s, k).Some? && Unique(s, k) == Unique(t, k') && |k| <= MAX_KEY && |Plain(s)| < |Plain(t)|
    ensures Joins(Plain(s), Plain(t))
  {
    hide Repair, Trim;
    UniqueParts(s, k, t, k');
    JoinedEnds(Plain(s), Plain(k), Plain(t), Plain(k'));
    PlainExact(k);
    PlainExact(k');
    var rest := Plain(t)[|Plain(s)| + 1..];
    assert Plain(k) == rest + [NUL] + Plain(k');
    assert rest != [] ==> Plain(k)[0] == rest[0];
  }

  const ONE_KEY: Id := [0x61]

  lemma OneKeyGood()
    ensures GoodKey(ONE_KEY) && Trim(ONE_KEY) == ONE_KEY && Plain(ONE_KEY) == ONE_KEY
  {
    TrimExact(ONE_KEY);
    RepairExact(ONE_KEY);
  }

  /** A key that lets the first session name the second's run. */
  lemma JoiningKey(s: Id, t: Id) returns (k: Id)
    requires CanStart(s) && CanStart(t) && Joins(Plain(s), Plain(t))
    ensures GoodKey(k) && k != [] && Unique(s, k) == Unique(t, ONE_KEY)
  {
    hide Repair, Trim;
    PlainExact(t);
    OneKeyGood();
    var rest := Plain(t)[|Plain(s)| + 1..];
    k := rest + [NUL] + ONE_KEY;
    assert Plain(t) == Plain(s) + [NUL] + rest;
    assert k[|k| - 1] == 0x61 && k[0] == if rest == [] then NUL else rest[0];
    TrimExact(k);
    RestIsRepaired(s, t, rest);
    RepairJoin(rest, ONE_KEY);
    assert Plain(k) == rest + [NUL] + ONE_KEY;
    UniqueParts(s, k, t, ONE_KEY);
    assert Plain(s) + [NUL] + (rest + [NUL] + ONE_KEY) == Plain(t) + [NUL] + ONE_KEY;
  }

  lemma RestIsRepaired(s: Id, t: Id, rest: Text)
    requires IsText(rest) && Plain(t) == Plain(s) + [NUL] + rest
    ensures Repair(rest) == rest
  {
    hide Repair, Trim;
    RepairTwice(Trim(t));
    RepairTwice(Trim(s));
    RepairJoin(Plain(s), rest);
    assert Repair(Plain(t)) == Plain(s) + [NUL] + Repair(rest);
    assert Repair(rest) == Repair(Plain(t))[|Plain(s)| + 1..];
  }

  /** Two sessions that can start runs can share one run, each with some key, just when they are alike. */
  lemma OneRunForBothJustWhen(s: Id, t: Id)
    requires CanStart(s) && CanStart(t)
    ensures Alike(s, t) <==> exists k: Id, k': Id :: GoodKey(k) && GoodKey(k') && k != [] && k' != [] && Unique(s, k) == Unique(t, k')
  {
    hide Unique, Plain, Joins, GoodKey;
    if Alike(s, t) {
      var k, k' := KeysForBoth(s, t);
    }
    forall k: Id, k': Id | GoodKey(k) && GoodKey(k') && k != [] && k' != [] && Unique(s, k) == Unique(t, k')
      ensures Alike(s, t)
    {
      SharedMeansAlike(s, k, t, k');
    }
  }

  lemma KeysForBoth(s: Id, t: Id) returns (k: Id, k': Id)
    requires Alike(s, t)
    ensures GoodKey(k) && GoodKey(k') && k != [] && k' != [] && Unique(s, k) == Unique(t, k')
  {
    OneKeyGood();
    hide Repair, Trim;
    k, k' := ONE_KEY, ONE_KEY;
    if Plain(s) == Plain(t) {
      UniqueParts(s, k, t, k');
    } else if Joins(Plain(s), Plain(t)) {
      k := JoiningKey(s, t);
    } else {
      k' := JoiningKey(t, s);
    }
  }

  lemma SharedMeansAlike(s: Id, k: Id, t: Id, k': Id)
    requires CanStart(s) && CanStart(t) && GoodKey(k) && GoodKey(k') && k != [] && k' != [] && Unique(s, k) == Unique(t, k')
    ensures Alike(s, t)
  {
    hide Repair, Trim;
    if |Plain(s)| < |Plain(t)| {
      JoinsIs(s, k, t, k');
    } else if |Plain(t)| < |Plain(s)| {
      JoinsIs(t, k', s, k);
    } else {
      UniqueParts(s, k, t, k');
      var whole := Plain(s) + [NUL] + Plain(k);
      assert Plain(s) == whole[..|Plain(s)|] && Plain(t) == whole[..|Plain(t)|];
    }
  }
}
