/** What the receiver keeps in every reachable state, and that it undoes the sender. */
module RelaySafety {
  import opened Wrappers
  import opened Relay

  // ---- Accounting --------------------------------------------------------

  function Filled(parts: seq<Option<string>>): (n: nat)
    ensures n <= |parts|
  {
    if parts == [] then 0 else Filled(parts[..|parts| - 1]) + if parts[|parts| - 1].Some? then 1 else 0
  }

  function PartBytes(parts: seq<Option<string>>): nat {
    if parts == [] then 0
    else PartBytes(parts[..|parts| - 1]) + if parts[|parts| - 1].Some? then |parts[|parts| - 1].value| else 0
  }

  lemma {:induction false} FillOne(parts: seq<Option<string>>, i: nat, p: string)
    requires i < |parts| && parts[i].None?
    ensures Filled(parts[i := Some(p)]) == Filled(parts) + 1
    ensures PartBytes(parts[i := Some(p)]) == PartBytes(parts) + |p|
  {
    var n := |parts| - 1;
    var parts' := parts[i := Some(p)];
    if i == n {
      assert parts'[..n] == parts[..n];
    } else {
      FillOne(parts[..n], i, p);
      assert parts'[..n] == parts[..n][i := Some(p)];
    }
  }

  lemma {:induction false} NothingFilled(n: nat)
    ensures Filled(NewGroup(n).parts) == 0 && PartBytes(NewGroup(n).parts) == 0
  {
    if n > 0 {
      NothingFilled(n - 1);
      assert NewGroup(n).parts[..n - 1] == NewGroup(n - 1).parts;
    }
  }

  lemma {:induction false} AllFilled(parts: seq<Option<string>>)
    ensures Filled(parts) == |parts| <==> forall i :: 0 <= i < |parts| ==> parts[i].Some?
  {
    if parts != [] {
      var front := parts[..|parts| - 1];
      AllFilled(front);
      assert forall i :: 0 <= i < |front| ==> front[i] == parts[i];
    }
  }

  ghost function SumBytes(groups: map<Id, Group>): nat {
    if groups == map[] then 0
    else
      var id :| id in groups;
      groups[id].bytes + SumBytes(groups - {id})
  }

  lemma {:induction false} SumWithout(groups: map<Id, Group>, id: Id)
    requires id in groups
    ensures SumBytes(groups) == groups[id].bytes + SumBytes(groups - {id})
    decreases |groups|
  {
    var k :| k in groups && SumBytes(groups) == groups[k].bytes + SumBytes(groups - {k});
    if k != id {
      SumWithout(groups - {k}, id);
      SumWithout(groups - {id}, k);
      assert groups - {k} - {id} == groups - {id} - {k};
    }
  }

  lemma SumUpdate(groups: map<Id, Group>, id: Id, g: Group)
    ensures SumBytes(groups[id := g]) == SumBytes(groups - {id}) + g.bytes
    ensures id !in groups ==> groups - {id} == groups
  {
    SumWithout(groups[id := g], id);
    assert groups[id := g] - {id} == groups - {id};
  }

  // ---- Tombstones --------------------------------------------------------

  ghost predicate Distinct(rejected: seq<(Id, int)>) {
    forall i, j :: 0 <= i < j < |rejected| ==> rejected[i].0 != rejected[j].0
  }

  lemma {:induction false} AliveKeeps(rejected: seq<(Id, int)>, now: int, id: Id)
    requires Distinct(rejected)
    ensures Distinct(Alive(rejected, now))
    ensures Entombed(Alive(rejected, now), id) <==> exists k :: 0 <= k < |rejected| && rejected[k].0 == id && now < rejected[k].1
    ensures forall t :: t in Alive(rejected, now) ==> t in rejected
  {
    if rejected != [] {
      var n := |rejected| - 1;
      var front, last := rejected[..n], rejected[n];
      var a := Alive(front, now);
      assert Alive(rejected, now) == if last.1 <= now then a else a + [last];
      assert Distinct(front);
      AliveKeeps(front, now, id);
      hide Alive, Distinct, Entombed;
      LastAlive(rejected, front, last, a, now, id);
    }
  }

  lemma LastAlive(rejected: seq<(Id, int)>, front: seq<(Id, int)>, last: (Id, int), a: seq<(Id, int)>, now: int, id: Id)
    requires rejected == front + [last] && Distinct(rejected) && Distinct(a) && forall t :: t in a ==> t in front
    requires Entombed(a, id) <==> exists k :: 0 <= k < |front| && front[k].0 == id && now < front[k].1
    ensures var alive := if last.1 <= now then a else a + [last];
      Distinct(alive) && (forall t :: t in alive ==> t in rejected) &&
      (Entombed(alive, id) <==> exists k :: 0 <= k < |rejected| && rejected[k].0 == id && now < rejected[k].1)
  {
    assert rejected[|front|] == last && (a + [last])[|a|] == last;
    assert forall k :: 0 <= k < |front| ==> rejected[k] == front[k];
    forall k | 0 <= k < |a| ensures a[k].0 != last.0 {
      assert a[k] in front;
      var i :| 0 <= i < |front| && front[i] == a[k];
      assert rejected[i].0 != rejected[|front|].0;
    }
    if Entombed(a, id) {
      var k :| 0 <= k < |a| && a[k].0 == id;
      assert (a + [last])[k].0 == id;
    }
  }

  lemma BuryKeeps(rejected: seq<(Id, int)>, id: Id, expiry: int)
    requires Distinct(rejected) && |rejected| <= MAX_TOMBSTONES
    ensures Distinct(Bury(rejected, id, expiry)) && |Bury(rejected, id, expiry)| <= MAX_TOMBSTONES
    ensures forall k :: Entombed(Bury(rejected, id, expiry), k) ==> k == id || Entombed(rejected, k)
    ensures Entombed(Bury(rejected, id, expiry), id)
  {
    var r := if |rejected| >= MAX_TOMBSTONES then rejected[1..] else rejected;
    var b := SetTombstone(r, id, expiry);
    assert Distinct(r);
    forall k | Entombed(b, k) && k != id ensures Entombed(rejected, k) {
      var i :| 0 <= i < |b| && b[i].0 == k;
      assert r[i].0 == k;
      if |rejected| >= MAX_TOMBSTONES { assert rejected[i + 1].0 == k; }
    }
    if Entombed(r, id) {
      var i :| 0 <= i < |r| && r[i].0 == id;
      assert b[i].0 == id;
    } else {
      assert b[|r|].0 == id;
    }
  }

  // ---- The invariant -----------------------------------------------------

  ghost predicate GroupOk(g: Group) {
    |g.parts| == g.total <= MAX_FRAME_CHUNKS && g.have == Filled(g.parts) < g.total && g.bytes == PartBytes(g.parts)
  }

  ghost predicate Inv(s: State, l: Limits) {
    (forall id :: id in s.groups ==> GroupOk(s.groups[id])) &&
    s.buffered == SumBytes(s.groups) && s.buffered <= l.maxBytes &&
    |s.groups| <= l.maxGroups && |s.rejected| <= MAX_TOMBSTONES && Distinct(s.rejected) &&
    (forall id :: id in s.groups ==> !Entombed(s.rejected, id))
  }

  lemma RemoveOk(s: State, l: Limits, id: Id)
    requires Inv(s, l)
    ensures Inv(Remove(s, id), l)
  {
    if id in s.groups { SumWithout(s.groups, id); }
  }

  lemma RejectOk(s: State, l: Limits, id: Id, now: int)
    requires Inv(s, l)
    ensures Inv(Reject(s, l, id, now), l)
  {
    hide GroupOk, Bury;
    RemoveOk(s, l, id);
    BuryKeeps(Remove(s, id).rejected, id, now + l.timeoutMs);
  }

  /** Reserving the slot of a new group may exceed nothing but the group count, checked before. */
  lemma OpenOk(s: State, l: Limits, id: Id, n: nat)
    requires Inv(s, l) && id !in s.groups && |s.groups| < l.maxGroups && !Entombed(s.rejected, id)
    requires 0 < n <= MAX_FRAME_CHUNKS
    ensures Inv(s.(groups := s.groups[id := NewGroup(n)]), l)
  {
    NothingFilled(n);
    SumUpdate(s.groups, id, NewGroup(n));
  }

  /** One more part: the sum grows by its length. */
  lemma FillSum(groups: map<Id, Group>, id: Id, i: nat, p: string)
    requires id in groups && GroupOk(groups[id]) && i < |groups[id].parts| && groups[id].parts[i].None?
    ensures SumBytes(groups[id := Fill(groups[id], i, p)]) == SumBytes(groups) + |p|
    ensures Fill(groups[id], i, p).have < groups[id].total ==> GroupOk(Fill(groups[id], i, p))
  {
    FillOne(groups[id].parts, i, p);
    SumUpdate(groups, id, Fill(groups[id], i, p));
    SumWithout(groups, id);
  }

  lemma DoneOk(s: State, l: Limits, id: Id, expiry: int)
    requires Inv(s, l)
    ensures Inv(Remove(s, id).(rejected := Bury(s.rejected, id, expiry)), l)
  {
    hide GroupOk, Bury;
    RemoveOk(s, l, id);
    BuryKeeps(s.rejected, id, expiry);
  }

  lemma StoreOk(s: State, l: Limits, id: Id, i: nat, p: string, now: int)
    requires Inv(s, l) && id in s.groups && i < |s.groups[id].parts|
    ensures Inv(Store(s, l, id, i, p, now).0, l)
  {
    hide Bury, Reject, SumBytes, GroupOk;
    var g := s.groups[id];
    RejectOk(s, l, id, now);
    if g.parts[i].None? && s.buffered + |p| <= l.maxBytes {
      var g' := Fill(g, i, p);
      FillSum(s.groups, id, i, p);
      if g'.have >= g'.total {
        DoneOk(s, l, id, now + l.timeoutMs);
        assert s.groups[id := g'] - {id} == s.groups - {id};
      }
    }
  }

  lemma AcceptOk(s: State, l: Limits, env: Envelope, now: int)
    requires Inv(s, l)
    ensures Inv(Accept(s, l, env, now).0, l)
  {
    hide GroupOk, Alive, SetTombstone, Bury;
    var s1 := s.(rejected := Alive(s.rejected, now));
    PurgeOk(s, l, now);
    assert Shaped(s) by { ShapedIf(s, l); }
    if env.p.Some? && env.fc.None? {
      RejectOk(s1, l, "unchunked", now);
    } else if env.p.Some? && !Entombed(s1.rejected, env.fc.value) {
      var id := env.fc.value;
      RejectOk(s1, l, id, now);
      if GoodMetadata(env.fi, env.fn) {
        if id in s1.groups {
          if s1.groups[id].total == env.fn.value { StoreOk(s1, l, id, env.fi.value, env.p.value, now); }
        } else if |s1.groups| < l.maxGroups {
          OpenOk(s1, l, id, env.fn.value);
          StoreOk(s1.(groups := s1.groups[id := NewGroup(env.fn.value)]), l, id, env.fi.value, env.p.value, now);
        }
      }
    }
  }

  lemma ShapedIf(s: State, l: Limits)
    requires Inv(s, l)
    ensures Shaped(s)
  {}

  lemma PurgeOk(s: State, l: Limits, now: int)
    requires Inv(s, l)
    ensures Inv(s.(rejected := Alive(s.rejected, now)), l)
  {
    hide GroupOk;
    forall id | id in s.groups ensures !Entombed(Alive(s.rejected, now), id) {
      AliveKeeps(s.rejected, now, id);
    }
    AliveKeeps(s.rejected, now, "");
  }

  // ---- Every history -----------------------------------------------------

  datatype Event = Arrives(env: Envelope, now: int) | TimerFires(id: Id, now: int) | Reset

  function Step(s: State, l: Limits, e: Event): State
    requires Shaped(s)
  {
    match e
    case Arrives(env, now) => Accept(s, l, env, now).0
    case TimerFires(id, now) => Timeout(s, l, id, now).0
    case Reset => EMPTY
  }

  lemma StepOk(s: State, l: Limits, e: Event)
    requires Inv(s, l)
    ensures Shaped(s) && Inv(Step(s, l, e), l)
  {
    hide GroupOk, Accept;
    ShapedIf(s, l);
    match e
    case Arrives(env, now) => AcceptOk(s, l, env, now);
    case TimerFires(id, now) => RejectOk(s, l, id, now);
    case Reset =>
  }

  ghost function After(l: Limits, events: seq<Event>): (s: State)
    ensures Inv(s, l)
  {
    if events == [] then EMPTY
    else
      var before := After(l, events[..|events| - 1]);
      StepOk(before, l, events[|events| - 1]);
      Step(before, l, events[|events| - 1])
  }

  /** After any messages, timeouts and resets: what is buffered is exactly what the open groups
      hold, within the limit; every open group lacks a part; the tables are bounded and disjoint. */
  lemma ExactAccounting(l: Limits, events: seq<Event>)
    ensures var s := After(l, events);
      s.buffered == SumBytes(s.groups) <= l.maxBytes && |s.groups| <= l.maxGroups && |s.rejected| <= MAX_TOMBSTONES &&
      forall id :: id in s.groups ==>
        s.groups[id].bytes == PartBytes(s.groups[id].parts) && s.groups[id].have == Filled(s.groups[id].parts) < s.groups[id].total &&
        !Entombed(s.rejected, id)
  {
    assert Inv(After(l, events), l);
  }
}
