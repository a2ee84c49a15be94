/** How long the receiver remembers a closed group: after any messages, timeouts and resets, exactly the last
    256 closings that have not expired. A late chunk of a forgotten one opens its group again. */
module RelayMemory {
  import opened Wrappers
  import opened Relay
  import opened RelaySafety

  /** The clock does not go back, and no unchunked message is too large, which would be remembered without an id. */
  ghost predicate Orderly(l: Limits, events: seq<Event>, now: int) {
    events != [] ==>
      var e := events[|events| - 1];
      var init := events[..|events| - 1];
      match e
      case Arrives(env, at) =>
        at <= now && Orderly(l, init, at) && (env.p.Some? && env.fc.None? ==> |env.p.value| <= l.maxBytes)
      case TimerFires(_, at) => at <= now && Orderly(l, init, at)
      case Reset => true
  }

  /** The group a step closes, delivered or rejected, and until when it is to be remembered. */
  function Closed(s: State, l: Limits, e: Event): Option<(Id, int)>
    requires Shaped(s)
  {
    match e
    case Arrives(env, now) =>
      if env.fc.Some? && !Accept(s, l, env, now).1.Incomplete? then Some((env.fc.value, now + l.timeoutMs)) else None
    case TimerFires(id, now) => if id in s.groups then Some((id, now + l.timeoutMs)) else None
    case Reset => None
  }

  /** All closings since the last reset, oldest first. */
  ghost function Closings(l: Limits, events: seq<Event>): seq<(Id, int)> {
    if events == [] || events[|events| - 1].Reset? then []
    else
      var init := events[..|events| - 1];
      var c := (StepOk(After(l, init), l, events[|events| - 1]); Closed(After(l, init), l, events[|events| - 1]));
      Closings(l, init) + if c.Some? then [c.value] else []
  }

  function Purged(rejected: seq<(Id, int)>, e: Event): seq<(Id, int)> {
    if e.Arrives? then Alive(rejected, e.now) else rejected
  }

  function Pushed(rejected: seq<(Id, int)>, c: (Id, int)): seq<(Id, int)> {
    (if |rejected| >= MAX_TOMBSTONES then rejected[1..] else rejected) + [c]
  }

  lemma BuryNew(rejected: seq<(Id, int)>, id: Id, expiry: int)
    requires !Entombed(rejected, id)
    ensures Bury(rejected, id, expiry) == Pushed(rejected, (id, expiry))
  {}

  lemma StoreRemembers(s: State, l: Limits, id: Id, i: nat, p: string, now: int)
    requires id in s.groups && i < |s.groups[id].parts|
    ensures var (s', o) := Store(s, l, id, i, p, now);
      s'.rejected == if o.Incomplete? then s.rejected else Bury(s.rejected, id, now + l.timeoutMs)
  {
    hide Bury, Join;
  }

  /** A message for a group that is not remembered as closed. */
  lemma ChunkRemembers(s: State, l: Limits, env: Envelope, now: int)
    requires Shaped(s) && env.p.Some? && env.fc.Some? && !Entombed(Alive(s.rejected, now), env.fc.value)
    ensures var (s', o) := Accept(s, l, env, now); var r := Alive(s.rejected, now);
      s'.rejected == if o.Incomplete? then r else Bury(r, env.fc.value, now + l.timeoutMs)
  {
    hide Bury, Store, Alive, Entombed, NewGroup;
    var s1, id := s.(rejected := Alive(s.rejected, now)), env.fc.value;
    if GoodMetadata(env.fi, env.fn) {
      if id in s1.groups {
        if s1.groups[id].total == env.fn.value { StoreRemembers(s1, l, id, env.fi.value, env.p.value, now); }
      } else {
        var open := s1.(groups := s1.groups[id := NewGroup(env.fn.value)]);
        assert |NewGroup(env.fn.value).parts| == env.fn.value by { NewSlots(env.fn.value); }
        StoreRemembers(open, l, id, env.fi.value, env.p.value, now);
      }
    }
  }

  lemma NewSlots(n: nat)
    ensures |NewGroup(n).parts| == n
  {}

  lemma AcceptRemembers(s: State, l: Limits, env: Envelope, now: int)
    requires Shaped(s) && (env.p.Some? && env.fc.None? ==> |env.p.value| <= l.maxBytes)
    ensures var (s', o) := Accept(s, l, env, now); var r := Alive(s.rejected, now);
      s'.rejected == if env.fc.None? || o.Incomplete? then r else Bury(r, env.fc.value, now + l.timeoutMs)
    ensures env.fc.Some? && !Accept(s, l, env, now).1.Incomplete? ==> !Entombed(Alive(s.rejected, now), env.fc.value)
  {
    if env.p.Some? && env.fc.Some? && !Entombed(Alive(s.rejected, now), env.fc.value) {
      ChunkRemembers(s, l, env, now);
    }
    hide Bury, Store, Alive, Entombed, NewGroup;
  }

  /** A step forgets what expired, and adds the group it closed behind the others. */
  lemma StepRemembers(s: State, l: Limits, e: Event)
    requires Inv(s, l) && !e.Reset? && Shaped(s)
    requires e.Arrives? && e.env.p.Some? && e.env.fc.None? ==> |e.env.p.value| <= l.maxBytes
    ensures var r, c := Purged(s.rejected, e), Closed(s, l, e);
      Step(s, l, e).rejected == if c.Some? then Pushed(r, c.value) else r
  {
    hide Bury, Pushed, Alive, Entombed, GroupOk, Accept;
    if e.TimerFires? && e.id in s.groups {
      BuryNew(s.rejected, e.id, e.now + l.timeoutMs);
    } else if e.Arrives? {
      AcceptRemembers(s, l, e.env, e.now);
      if Closed(s, l, e).Some? {
        BuryNew(Alive(s.rejected, e.now), e.env.fc.value, e.now + l.timeoutMs);
      }
    }
  }

  predicate Sorted(log: seq<(Id, int)>) {
    forall i, j :: 0 <= i < j < |log| ==> log[i].1 <= log[j].1
  }

  lemma {:induction false} AliveIsTail(r: seq<(Id, int)>, now: int) returns (d: nat)
    requires Sorted(r)
    ensures d <= |r| && Alive(r, now) == r[d..]
    ensures forall i :: 0 <= i < d ==> r[i].1 <= now
  {
    if r == [] || r[|r| - 1].1 <= now {
      d := |r|;
      AllExpired(r, now);
    } else {
      var n := |r| - 1;
      d := AliveIsTail(r[..n], now);
      hide Sorted;
      assert r[d..] == r[..n][d..] + [r[n]];
    }
  }

  lemma {:induction false} AllExpired(r: seq<(Id, int)>, now: int)
    requires forall i :: 0 <= i < |r| ==> r[i].1 <= now
    ensures Alive(r, now) == []
  {
    if r != [] { AllExpired(r[..|r| - 1], now); }
  }

  /** What is remembered is the end of the log; what is not is 256 closings old or expired. */
  ghost predicate Tail(log: seq<(Id, int)>, rejected: seq<(Id, int)>, l: Limits, now: int, d: nat) {
    d <= |log| && rejected == log[d..] && Sorted(log) && |rejected| <= MAX_TOMBSTONES &&
    (forall i :: 0 <= i < |log| ==> log[i].1 <= now + l.timeoutMs) &&
    (forall i :: 0 <= i < d ==> i < |log| - MAX_TOMBSTONES || log[i].1 <= now)
  }

  lemma TailPurged(log: seq<(Id, int)>, rejected: seq<(Id, int)>, l: Limits, before: int, d: nat, e: Event, now: int)
      returns (d': nat)
    requires Tail(log, rejected, l, before, d) && before <= now && (e.Arrives? ==> e.now == now)
    ensures Tail(log, Purged(rejected, e), l, now, d')
  {
    d' := d;
    if e.Arrives? {
      var k := AliveIsTail(rejected, now);
      d' := d + k;
      hide Alive;
      assert forall i :: d <= i < d' ==> log[i] == rejected[i - d];
      assert rejected[k..] == log[d'..];
    }
  }

  lemma TailPushed(log: seq<(Id, int)>, rejected: seq<(Id, int)>, l: Limits, now: int, d: nat, c: (Id, int)) returns (d': nat)
    requires Tail(log, rejected, l, now, d) && c.1 == now + l.timeoutMs
    ensures Tail(log + [c], Pushed(rejected, c), l, now, d')
  {
    d' := if |rejected| >= MAX_TOMBSTONES then d + 1 else d;
    assert (log + [c])[d'..] == log[d'..] + [c];
    assert |rejected| >= MAX_TOMBSTONES ==> rejected[1..] == log[d'..];
  }

  lemma {:induction false} RunRemembers(l: Limits, events: seq<Event>, now: int) returns (d: nat)
    requires Orderly(l, events, now)
    ensures Tail(Closings(l, events), After(l, events).rejected, l, now, d)
  {
    hide Step, Closed, Inv;
    if events == [] || events[|events| - 1].Reset? {
      d := 0;
      assert After(l, events).rejected == [] by {
        if events != [] { ResetForgets(After(l, events[..|events| - 1]), l); }
      }
    } else {
      var init, e := events[..|events| - 1], events[|events| - 1];
      d := RunRemembers(l, init, e.now);
      d := LastRemembers(l, events, e.now, d);
      hide *;
      TailLater(Closings(l, events), After(l, events).rejected, l, e.now, now, d);
    }
  }

  lemma LastRemembers(l: Limits, events: seq<Event>, now: int, d: nat) returns (d': nat)
    requires events != [] && !events[|events| - 1].Reset? && Orderly(l, events, now) && events[|events| - 1].now == now
    requires Tail(Closings(l, events[..|events| - 1]), After(l, events[..|events| - 1]).rejected, l, now, d)
    ensures Tail(Closings(l, events), After(l, events).rejected, l, now, d')
  {
    hide Step, Closed, Inv;
    var init, e := events[..|events| - 1], events[|events| - 1];
    var s := After(l, init);
    StepOk(s, l, e);
    StepRemembers(s, l, e);
    ClosedWhen(s, l, e);
    assert After(l, events) == Step(s, l, e);
    hide Tail, Purged, Pushed, Orderly;
    d' := TailPurged(Closings(l, init), s.rejected, l, now, d, e, now);
    if Closed(s, l, e).Some? {
      d' := TailPushed(Closings(l, init), Purged(s.rejected, e), l, now, d', Closed(s, l, e).value);
    } else {
      assert Closings(l, events) == Closings(l, init);
    }
  }

  lemma ResetForgets(s: State, l: Limits)
    requires Inv(s, l)
    ensures Shaped(s) && Step(s, l, Reset).rejected == []
  {
    ShapedIf(s, l);
  }

  lemma ClosedWhen(s: State, l: Limits, e: Event)
    requires Shaped(s) && !e.Reset?
    ensures Closed(s, l, e).Some? ==> Closed(s, l, e).value.1 == e.now + l.timeoutMs
  {
    hide Accept;
  }

  lemma TailLater(log: seq<(Id, int)>, rejected: seq<(Id, int)>, l: Limits, now: int, later: int, d: nat)
    requires Tail(log, rejected, l, now, d) && now <= later
    ensures Tail(log, rejected, l, later, d)
  {}

  /** Among the last 256 closings, and not expired. */
  predicate Recent(log: seq<(Id, int)>, id: Id, now: int) {
    exists k :: 0 <= k < |log| && |log| - MAX_TOMBSTONES <= k && log[k].0 == id && now < log[k].1
  }

  lemma RecentJustWhenKept(log: seq<(Id, int)>, rejected: seq<(Id, int)>, l: Limits, id: Id, now: int, d: nat)
    requires Tail(log, rejected, l, now, d) && Distinct(rejected)
    ensures Entombed(Alive(rejected, now), id) <==> Recent(log, id, now)
  {
    AliveKeeps(rejected, now, id);
    hide Alive, Entombed;
    if Recent(log, id, now) {
      var k :| 0 <= k < |log| && |log| - MAX_TOMBSTONES <= k && log[k].0 == id && now < log[k].1;
      assert rejected[k - d] == log[k];
    }
    if k :| 0 <= k < |rejected| && rejected[k].0 == id && now < rejected[k].1 {
      assert log[d + k] == rejected[k];
    }
  }

  /** A chunk of a group that is closed comes late: with room for another group it opens the group again just when
      256 groups were closed since or the closing expired. */
  lemma LateChunkReopensJustWhen(l: Limits, events: seq<Event>, env: Envelope, now: int)
    requires Orderly(l, events, now)
    requires env.p.Some? && env.fc.Some? && GoodMetadata(env.fi, env.fn) && env.fn.value > 1
    requires var s := After(l, events);
      env.fc.value !in s.groups && |s.groups| < l.maxGroups && s.buffered + |env.p.value| <= l.maxBytes
    ensures var s := After(l, events);
      Shaped(s) && (env.fc.value in Accept(s, l, env, now).0.groups <==> !Recent(Closings(l, events), env.fc.value, now))
  {
    var s := After(l, events);
    ShapedIf(s, l);
    var d := RunRemembers(l, events, now);
    RecentJustWhenKept(Closings(l, events), s.rejected, l, env.fc.value, now, d);
    hide Recent, Alive, Entombed, Tail, Orderly, Inv;
  }
}
