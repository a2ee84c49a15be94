/** The frame reassembler as the source's closures over groups, rejected and buffered, updated in
    place; every method is proved to take the step of the same name. */
module RelayObjects {
  import opened Wrappers
  import opened Relay
  import opened RelaySafety

  class FrameReassembler {
    const limits: Limits
    var groups: map<Id, Group>
    var rejected: seq<(Id, int)>
    var buffered: int

    ghost function View(): State
      reads this
    {
      State(groups, rejected, buffered)
    }

    constructor (l: Limits)
      ensures limits == l && View() == EMPTY
    {
      limits, groups, rejected, buffered := l, map[], [], 0;
    }

    method RemoveGroup(id: Id)
      modifies this
      ensures View() == Remove(old(View()), id)
    {
      if id in groups {
        buffered := buffered - groups[id].bytes;
        groups := groups - {id};
      }
    }

    /** rejected.set after evicting the oldest tombstone of a full table. */
    method AddTombstone(id: Id, expiry: int)
      modifies `rejected
      ensures rejected == Bury(old(rejected), id, expiry)
    {
      if |rejected| >= MAX_TOMBSTONES { rejected := rejected[1..]; }
      var found := false;
      ghost var before := rejected;
      for k := 0 to |rejected|
        invariant |rejected| == |before|
        invariant found <==> exists j :: 0 <= j < k && before[j].0 == id
        invariant forall j :: 0 <= j < k ==> rejected[j] == if before[j].0 == id then (id, expiry) else before[j]
        invariant forall j :: k <= j < |before| ==> rejected[j] == before[j]
      {
        if rejected[k].0 == id {
          rejected := rejected[k := (id, expiry)];
          found := true;
        }
      }
      if !found {
        assert rejected == before;
        rejected := rejected + [(id, expiry)];
      }
      assert rejected == SetTombstone(before, id, expiry);
    }

    method RejectGroup(id: Id, reason: Reason, now: int) returns (out: Outcome)
      modifies this
      ensures View() == Reject(old(View()), limits, id, now) && out == Rejected(reason)
    {
      RemoveGroup(id);
      AddTombstone(id, now + limits.timeoutMs);
      return Rejected(reason);
    }

    /** The loop at the head of accept. */
    method Purge(now: int)
      modifies `rejected
      ensures rejected == Alive(old(rejected), now)
    {
      var all, kept := rejected, [];
      for k := 0 to |all|
        invariant kept == Alive(all[..k], now)
      {
        assert all[..k + 1][..k] == all[..k];
        if !(all[k].1 <= now) { kept := kept + [all[k]]; }
      }
      assert all[..|all|] == all;
      rejected := kept;
    }

    method StorePart(id: Id, i: nat, p: string, now: int) returns (out: Outcome)
      requires id in groups && i < |groups[id].parts|
      modifies this
      ensures (View(), out) == Store(old(View()), limits, id, i, p, now)
    {
      var group := groups[id];
      if group.parts[i].Some? { return Incomplete; }
      if buffered + |p| > limits.maxBytes {
        out := RejectGroup(id, MemoryLimit, now);
        return;
      }
      group := group.(parts := group.parts[i := Some(p)], have := group.have + 1, bytes := group.bytes + |p|);
      groups := groups[id := group];
      buffered := buffered + |p|;
      if group.have < group.total { return Incomplete; }
      var payload := JoinParts(group.parts);
      RemoveGroup(id);
      AddTombstone(id, now + limits.timeoutMs);
      return Delivered(payload);
    }

    method AcceptFrame(env: Envelope, now: int) returns (out: Outcome)
      requires Shaped(View())
      modifies this
      ensures (View(), out) == Accept(old(View()), limits, env, now)
    {
      hide Alive, Store, Bury;
      Purge(now);
      if env.p.None? { return Incomplete; }
      if env.fc.None? {
        if |env.p.value| <= limits.maxBytes { return Delivered(env.p.value); }
        out := RejectGroup("unchunked", TooLarge, now);
        return;
      }
      var id := env.fc.value;
      if Entombed(rejected, id) { return Incomplete; }
      if !GoodMetadata(env.fi, env.fn) {
        out := RejectGroup(id, BadMetadata, now);
        return;
      }
      if id in groups && groups[id].total != env.fn.value {
        out := RejectGroup(id, CountChanged, now);
        return;
      }
      if id !in groups {
        if |groups| >= limits.maxGroups {
          out := RejectGroup(id, TooManyGroups, now);
          return;
        }
        groups := groups[id := NewGroup(env.fn.value)];
      }
      out := StorePart(id, env.fi.value, env.p.value, now);
    }

    /** Every group is removed in turn; exact accounting brings the counter back to zero. */
    method ResetAll()
      requires Inv(View(), limits)
      modifies this
      ensures View() == EMPTY
    {
      while groups != map[]
        invariant Inv(View(), limits)
        decreases |groups|
      {
        ghost var before := View();
        var id :| id in groups;
        RemoveGroup(id);
        RemoveOk(before, limits, id);
      }
      rejected := [];
    }

    method TimerFires(id: Id, now: int) returns (out: Outcome)
      modifies this
      ensures (View(), out) == Timeout(old(View()), limits, id, now)
    {
      if id !in groups { return Incomplete; }
      out := RejectGroup(id, TimedOut, now);
    }
  }

  method JoinParts(parts: seq<Option<string>>) returns (s: string)
    ensures s == Join(parts)
  {
    s := "";
    for k := 0 to |parts|
      invariant s == Join(parts[..k])
    {
      assert parts[..k + 1][..k] == parts[..k];
      if parts[k].Some? { s := s + parts[k].value; }
    }
    assert parts[..|parts|] == parts;
  }
}
