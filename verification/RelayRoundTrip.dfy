/** The receiver undoes the sender: chunks of several payloads, in any order, interleaved and
    duplicated, give each payload back once, on the arrival of its last missing chunk. */
module RelayRoundTrip {
  import opened Wrappers
  import opened Numbers
  import opened Sets
  import opened Relay
  import opened RelaySafety

  /** Chunk i of the payload with this id arrives at this time. */
  datatype Arrival = Arrival(id: Id, i: nat, now: int)

  ghost function TotalLength(payloads: map<Id, string>): nat {
    if payloads == map[] then 0
    else
      var id :| id in payloads;
      |payloads[id]| + TotalLength(payloads - {id})
  }

  /** Payloads long enough to be chunked, within the receiver's limits. A completed id is remembered
      by a tombstone, of which there are 256. */
  ghost predicate Sendable(payloads: map<Id, string>, l: Limits) {
    |payloads| <= l.maxGroups && |payloads| <= MAX_TOMBSTONES && TotalLength(payloads) <= l.maxBytes &&
    forall id :: id in payloads ==> FRAME_CHUNK_BYTES < |payloads[id]| <= MAX_REASSEMBLY_BYTES
  }

  /** Every arrival is a chunk of a payload, and all come within one timeout. */
  ghost predicate Timely(payloads: map<Id, string>, l: Limits, arrivals: seq<Arrival>, from: int) {
    forall k :: 0 <= k < |arrivals| ==> GoodArrival(payloads, l, arrivals[k], from)
  }

  predicate GoodArrival(payloads: map<Id, string>, l: Limits, a: Arrival, from: int) {
    a.id in payloads && a.i < ChunkCount(|payloads[a.id]|) && from <= a.now < from + l.timeoutMs
  }

  function Received(arrivals: seq<Arrival>, id: Id): (r: set<nat>)
    ensures forall i :: i in r <==> exists k :: 0 <= k < |arrivals| && arrivals[k].id == id && arrivals[k].i == i
  {
    set k | 0 <= k < |arrivals| && arrivals[k].id == id :: arrivals[k].i
  }

  ghost predicate Complete(payloads: map<Id, string>, arrivals: seq<Arrival>, id: Id) {
    id in payloads && forall i :: 0 <= i < ChunkCount(|payloads[id]|) ==> i in Received(arrivals, id)
  }

  // ---- Chunks make up the payload ----------------------------------------

  ghost predicate Parts(payload: string, parts: seq<Option<string>>, got: set<nat>) {
    |parts| == ChunkCount(|payload|) &&
    forall i :: 0 <= i < |parts| ==> parts[i] == if i in got then Some(Chunk(payload, i)) else None
  }

  function Upto(payload: string, n: nat): nat {
    Min(n * FRAME_CHUNK_BYTES, |payload|)
  }

  lemma {:induction false} PartsBound(payload: string, parts: seq<Option<string>>, got: set<nat>, n: nat)
    requires Parts(payload, parts, got) && n <= |parts|
    ensures PartBytes(parts[..n]) <= Upto(payload, n)
    ensures (forall i :: 0 <= i < n ==> i in got) ==> Join(parts[..n]) == payload[..Upto(payload, n)]
  {
    if n > 0 {
      PartsBound(payload, parts, got, n - 1);
      assert parts[..n][..n - 1] == parts[..n - 1];
      ChunkBetween(payload, n - 1);
      hide Upto, Chunk;
      var i, j := Upto(payload, n - 1), Upto(payload, n);
      assert payload[..j] == payload[..i] + payload[i..j];
    }
  }

  lemma ChunkBetween(payload: string, i: nat)
    requires i < ChunkCount(|payload|)
    ensures Upto(payload, i) <= Upto(payload, i + 1)
    ensures Chunk(payload, i) == payload[Upto(payload, i)..Upto(payload, i + 1)]
  {}

  lemma PartsWhole(payload: string, parts: seq<Option<string>>, got: set<nat>)
    requires Parts(payload, parts, got)
    ensures PartBytes(parts) <= |payload|
    ensures (forall i :: 0 <= i < |parts| ==> i in got) ==> Join(parts) == payload
  {
    PartsBound(payload, parts, got, |parts|);
    assert parts[..|parts|] == parts;
    assert Upto(payload, |parts|) == |payload|;
    assert payload[..|payload|] == payload;
  }

  lemma {:induction false} LengthWithout(payloads: map<Id, string>, id: Id)
    requires id in payloads
    ensures TotalLength(payloads) == |payloads[id]| + TotalLength(payloads - {id})
    decreases |payloads|
  {
    var k :| k in payloads && TotalLength(payloads) == |payloads[k]| + TotalLength(payloads - {k});
    if k != id {
      LengthWithout(payloads - {k}, id);
      LengthWithout(payloads - {id}, k);
      assert payloads - {k} - {id} == payloads - {id} - {k};
    }
  }

  /** Groups that hold at most their payloads hold at most all payloads. */
  lemma {:induction false} SumDominated(groups: map<Id, Group>, payloads: map<Id, string>)
    requires forall id :: id in groups ==> id in payloads && groups[id].bytes <= |payloads[id]|
    ensures SumBytes(groups) <= TotalLength(payloads)
    decreases |groups|
  {
    if groups != map[] {
      var id :| id in groups && SumBytes(groups) == groups[id].bytes + SumBytes(groups - {id});
      LengthWithout(payloads, id);
      SumDominated(groups - {id}, payloads - {id});
    }
  }

  // ---- The expected state ------------------------------------------------

  /** What the receiver knows of one id: nothing, an open group with the chunks received, or that
      the payload is complete. */
  ghost predicate Knows(payloads: map<Id, string>, arrivals: seq<Arrival>, s: State, id: Id) {
    (id in s.groups <==> id in payloads && Received(arrivals, id) != {} && !Complete(payloads, arrivals, id)) &&
    (id in s.groups ==>
       s.groups[id].total == ChunkCount(|payloads[id]|) && Parts(payloads[id], s.groups[id].parts, Received(arrivals, id))) &&
    (Entombed(s.rejected, id) <==> Complete(payloads, arrivals, id))
  }

  ghost predicate Tracks(payloads: map<Id, string>, l: Limits, arrivals: seq<Arrival>, from: int, s: State) {
    Inv(s, l) && (forall id :: Knows(payloads, arrivals, s, id)) &&
    (forall t :: t in s.rejected ==> from + l.timeoutMs <= t.1)
  }

  /** Knowledge about an id changes only with its arrivals and its entries. */
  lemma KnowsFrame(payloads: map<Id, string>, arrivals: seq<Arrival>, arrivals': seq<Arrival>, s: State, s': State, id: Id)
    requires Knows(payloads, arrivals, s, id) && Received(arrivals', id) == Received(arrivals, id)
    requires id in s.groups <==> id in s'.groups
    requires id in s.groups ==> s.groups[id] == s'.groups[id]
    requires Entombed(s.rejected, id) <==> Entombed(s'.rejected, id)
    ensures Knows(payloads, arrivals', s', id)
  {
    hide Received, ChunkCount, Parts;
  }

  function Message(payloads: map<Id, string>, a: Arrival): Envelope
    requires a.id in payloads && a.i < ChunkCount(|payloads[a.id]|)
  {
    ChunkMessage(payloads[a.id], a.id, a.i)
  }

  /** What the receiver should answer to the last arrival. */
  ghost function Expected(payloads: map<Id, string>, arrivals: seq<Arrival>): Outcome
    requires arrivals != []
  {
    var n := |arrivals| - 1;
    var id := arrivals[n].id;
    if Complete(payloads, arrivals, id) && !Complete(payloads, arrivals[..n], id) then Delivered(payloads[id]) else Incomplete
  }

  lemma {:induction false} AliveAll(rejected: seq<(Id, int)>, now: int)
    requires forall t :: t in rejected ==> now < t.1
    ensures Alive(rejected, now) == rejected
  {
    if rejected != [] {
      var n := |rejected| - 1;
      assert rejected[n] in rejected;
      forall t | t in rejected[..n] ensures t in rejected {}
      AliveAll(rejected[..n], now);
    }
  }

  lemma ReceivedPush(arrivals: seq<Arrival>, a: Arrival, id: Id)
    ensures Received(arrivals + [a], id) == Received(arrivals, id) + if a.id == id then {a.i} else {}
  {
    var all := arrivals + [a];
    forall i | i in Received(arrivals, id) ensures i in Received(all, id) {
      var k :| 0 <= k < |arrivals| && arrivals[k].id == id && arrivals[k].i == i;
      assert all[k] == arrivals[k];
    }
    assert all[|arrivals|] == a;
  }

  lemma SmallerKeys<T>(small: map<Id, T>, payloads: map<Id, string>, id: Id)
    requires id in payloads && id !in small && small.Keys <= payloads.Keys
    ensures |small| < |payloads|
  {
    SubsetSize(small.Keys, payloads.Keys - {id});
    assert |small| == |small.Keys| && |payloads| == |payloads.Keys|;
  }

  /** Distinct tombstones of other ids leave room for one more. */
  lemma {:induction false} TombstoneRoom(rejected: seq<(Id, int)>, ids: set<Id>)
    requires Distinct(rejected)
    requires forall k :: 0 <= k < |rejected| ==> rejected[k].0 in ids
    ensures |rejected| <= |ids|
  {
    if rejected != [] {
      var n := |rejected| - 1;
      TombstoneRoom(rejected[..n], ids - {rejected[n].0});
    }
  }

  // ---- One arrival -------------------------------------------------------

  /** Arrivals that add nothing new leave what is tracked unchanged. */
  lemma NothingNew(payloads: map<Id, string>, l: Limits, arrivals: seq<Arrival>, from: int, s: State, a: Arrival)
    requires Tracks(payloads, l, arrivals, from, s) && a.i in Received(arrivals, a.id)
    ensures Tracks(payloads, l, arrivals + [a], from, s)
    ensures Complete(payloads, arrivals + [a], a.id) <==> Complete(payloads, arrivals, a.id)
  {
    hide Inv, Received, Knows;
    forall id ensures Knows(payloads, arrivals + [a], s, id) {
      ReceivedPush(arrivals, a, id);
      assert Received(arrivals + [a], id) == Received(arrivals, id);
      KnowsFrame(payloads, arrivals, arrivals + [a], s, s, id);
    }
    ReceivedPush(arrivals, a, a.id);
    assert Received(arrivals + [a], a.id) == Received(arrivals, a.id);
  }

  /** The group a new chunk goes to, opened if need be. */
  function Opened(s: State, id: Id, n: nat): State {
    if id in s.groups then s else s.(groups := s.groups[id := NewGroup(n)])
  }

  lemma OpenedOk(payloads: map<Id, string>, l: Limits, arrivals: seq<Arrival>, from: int, s: State, id: Id)
    requires Sendable(payloads, l) && Tracks(payloads, l, arrivals, from, s) && id in payloads
    requires !Complete(payloads, arrivals, id)
    ensures var n := ChunkCount(|payloads[id]|); var o := Opened(s, id, n);
      Inv(o, l) && id in o.groups && o.groups[id].total == n &&
      Parts(payloads[id], o.groups[id].parts, Received(arrivals, id)) &&
      (id !in s.groups ==> |s.groups| < l.maxGroups)
  {
    hide Received, Complete, Inv, ChunkCount;
    assert Knows(payloads, arrivals, s, id);
    if id !in s.groups {
      CountFits(payloads[id]);
      forall k | k in s.groups ensures k in payloads { assert Knows(payloads, arrivals, s, k); }
      SmallerKeys(s.groups, payloads, id);
      OpenOk(s, l, id, ChunkCount(|payloads[id]|));
    }
  }

  lemma CountFits(payload: string)
    requires FRAME_CHUNK_BYTES < |payload| <= MAX_REASSEMBLY_BYTES
    ensures 0 < ChunkCount(|payload|) <= MAX_FRAME_CHUNKS
  {}

  lemma HeldBytes(payloads: map<Id, string>, arrivals: seq<Arrival>, s: State, id: Id)
    requires Knows(payloads, arrivals, s, id) && id in s.groups && GroupOk(s.groups[id])
    ensures id in payloads && s.groups[id].bytes <= |payloads[id]|
  {
    PartsWhole(payloads[id], s.groups[id].parts, Received(arrivals, id));
  }

  lemma FilledBytes(payload: string, g: Group, got: set<nat>, i: nat)
    requires GroupOk(g) && Parts(payload, g.parts, got) && i < |g.parts| && i !in got
    ensures Fill(g, i, Chunk(payload, i)).bytes <= |payload|
  {
    hide ChunkCount, Chunk;
    var g' := Fill(g, i, Chunk(payload, i));
    FillOne(g.parts, i, Chunk(payload, i));
    PartsWhole(payload, g'.parts, got + {i});
  }

  lemma AllHeldBytes(payloads: map<Id, string>, l: Limits, arrivals: seq<Arrival>, from: int, s: State)
    requires Tracks(payloads, l, arrivals, from, s)
    ensures forall k :: k in s.groups ==> k in payloads && s.groups[k].bytes <= |payloads[k]|
  {
    hide Received, Complete, Knows;
    forall k | k in s.groups ensures k in payloads && s.groups[k].bytes <= |payloads[k]| {
      HeldBytes(payloads, arrivals, s, k);
    }
  }

  /** The byte limit is not reached: all groups together hold at most all payloads. */
  lemma RoomFor(payloads: map<Id, string>, l: Limits, arrivals: seq<Arrival>, from: int, s: State, a: Arrival)
    requires Sendable(payloads, l) && Tracks(payloads, l, arrivals, from, s) && GoodArrival(payloads, l, a, from)
    requires !Complete(payloads, arrivals, a.id) && a.i !in Received(arrivals, a.id)
    ensures s.buffered + |Chunk(payloads[a.id], a.i)| <= l.maxBytes
  {
    hide Received, Complete, Knows, Parts, ChunkCount, Chunk, Fill, SumBytes;
    GoodOne(payloads, l, a, from);
    var (id, p) := (a.id, Chunk(payloads[a.id], a.i));
    var o := Opened(s, id, ChunkCount(|payloads[id]|));
    OpenedOk(payloads, l, arrivals, from, s, id);
    GroupsOk(o, l, id);
    FilledBytes(payloads[id], o.groups[id], Received(arrivals, id), a.i);
    PartMissing(payloads, arrivals, o.groups[id], a);
    hide GroupOk;
    FillSum(o.groups, id, a.i, p);
    AllHeldBytes(payloads, l, arrivals, from, s);
    SumDominated(o.groups[id := Fill(o.groups[id], a.i, p)], payloads);
  }

  /** accept reaches Store, in the group of this payload. */
  lemma ReachesStore(payloads: map<Id, string>, l: Limits, arrivals: seq<Arrival>, from: int, s: State, a: Arrival)
    requires Sendable(payloads, l) && Tracks(payloads, l, arrivals, from, s) && GoodArrival(payloads, l, a, from)
    requires !Complete(payloads, arrivals, a.id)
    ensures Shaped(s) && var n := ChunkCount(|payloads[a.id]|);
      a.id in Opened(s, a.id, n).groups && a.i < |Opened(s, a.id, n).groups[a.id].parts| &&
      Accept(s, l, Message(payloads, a), a.now) == Store(Opened(s, a.id, n), l, a.id, a.i, Chunk(payloads[a.id], a.i), a.now)
  {
    hide Store, GroupOk, Received, Complete;
    ShapedIf(s, l);
    OpenedOk(payloads, l, arrivals, from, s, a.id);
    AliveAll(s.rejected, a.now);
    AcceptedFits(payloads[a.id]);
    assert s.(rejected := s.rejected) == s;
  }

  /** The state after a new chunk is stored in its group. */
  function Stored(s: State, id: Id, i: nat, p: string): State
    requires id in s.groups && i < |s.groups[id].parts|
  {
    s.(groups := s.groups[id := Fill(s.groups[id], i, p)], buffered := s.buffered + |p|)
  }

  ghost predicate Full(payload: string, got: set<nat>) {
    forall i :: 0 <= i < ChunkCount(|payload|) ==> i in got
  }

  /** Filled slots count the received chunks: the group is full just when the payload is complete. */
  lemma FullGroup(payload: string, g: Group, got: set<nat>, i: nat)
    requires GroupOk(g) && g.total == ChunkCount(|payload|) && Parts(payload, g.parts, got)
    requires i < g.total && i !in got
    ensures var g' := Fill(g, i, Chunk(payload, i));
      Parts(payload, g'.parts, got + {i}) && (g'.have >= g'.total <==> Full(payload, got + {i})) &&
      (Full(payload, got + {i}) ==> Join(g'.parts) == payload)
  {
    hide ChunkCount, Chunk;
    var g' := Fill(g, i, Chunk(payload, i));
    FillOne(g.parts, i, Chunk(payload, i));
    AllFilled(g'.parts);
    PartsWhole(payload, g'.parts, got + {i});
  }

  lemma BuryOne(payloads: map<Id, string>, l: Limits, arrivals: seq<Arrival>, from: int, s: State, id: Id, expiry: int)
    requires Sendable(payloads, l) && Tracks(payloads, l, arrivals, from, s) && id in payloads
    requires !Complete(payloads, arrivals, id)
    ensures Bury(s.rejected, id, expiry) == s.rejected + [(id, expiry)]
    ensures forall k :: Entombed(s.rejected + [(id, expiry)], k) <==> Entombed(s.rejected, k) || k == id
  {
    hide Received, Complete, Inv;
    var r := s.rejected;
    assert Distinct(r) by { InvDistinct(s, l); }
    assert Knows(payloads, arrivals, s, id);
    forall k | 0 <= k < |r| ensures r[k].0 in payloads.Keys - {id} {
      assert Entombed(r, r[k].0);
      assert Knows(payloads, arrivals, s, r[k].0);
      CompleteIn(payloads, arrivals, r[k].0);
    }
    TombstoneRoom(r, payloads.Keys - {id});
    assert |payloads.Keys - {id}| < |payloads.Keys| == |payloads|;
    var r' := r + [(id, expiry)];
    assert r'[|r|].0 == id;
    forall k ensures Entombed(r', k) <==> Entombed(r, k) || k == id {
      if Entombed(r, k) {
        var j :| 0 <= j < |r| && r[j].0 == k;
        assert r'[j].0 == k;
      }
    }
  }

  lemma InvDistinct(s: State, l: Limits)
    requires Inv(s, l)
    ensures Distinct(s.rejected)
  {}

  lemma CompleteIn(payloads: map<Id, string>, arrivals: seq<Arrival>, id: Id)
    requires Complete(payloads, arrivals, id)
    ensures id in payloads
  {}

  /** A new chunk of a payload that still lacks others is stored. */
  lemma StoredPart(payloads: map<Id, string>, l: Limits, arrivals: seq<Arrival>, from: int, s: State, a: Arrival, s': State)
    requires Tracks(payloads, l, arrivals, from, s) && a.id in payloads && Inv(s', l) && s'.rejected == s.rejected
    requires a.id in s'.groups && s'.groups - {a.id} == s.groups - {a.id}
    requires s'.groups[a.id].total == ChunkCount(|payloads[a.id]|)
    requires Parts(payloads[a.id], s'.groups[a.id].parts, Received(arrivals, a.id) + {a.i})
    requires !Complete(payloads, arrivals, a.id) && !Complete(payloads, arrivals + [a], a.id)
    ensures Tracks(payloads, l, arrivals + [a], from, s')
  {
    hide Inv, Received, Complete, ChunkCount, Parts, Entombed;
    forall id ensures Knows(payloads, arrivals + [a], s', id) {
      ReceivedPush(arrivals, a, id);
      if id != a.id {
        assert id in s.groups <==> id in s.groups - {a.id};
        assert id in s'.groups <==> id in s'.groups - {a.id};
        KnowsFrame(payloads, arrivals, arrivals + [a], s, s', id);
      } else {
        assert Knows(payloads, arrivals, s, id);
      }
    }
  }

  /** The last missing chunk closes the group and leaves a tombstone. */
  lemma ClosedGroup(payloads: map<Id, string>, l: Limits, arrivals: seq<Arrival>, from: int, s: State, a: Arrival, s': State)
    requires Tracks(payloads, l, arrivals, from, s) && Inv(s', l)
    requires !Complete(payloads, arrivals, a.id) && Complete(payloads, arrivals + [a], a.id)
    requires s'.groups == s.groups - {a.id}
    requires forall k :: Entombed(s'.rejected, k) <==> Entombed(s.rejected, k) || k == a.id
    requires forall t :: t in s'.rejected ==> from + l.timeoutMs <= t.1
    ensures Tracks(payloads, l, arrivals + [a], from, s')
  {
    hide Inv, Received, Complete, ChunkCount, Parts, Entombed;
    forall id ensures Knows(payloads, arrivals + [a], s', id) {
      ReceivedPush(arrivals, a, id);
      if id != a.id {
        assert Knows(payloads, arrivals, s, id);
        assert id in s.groups <==> id in s.groups - {a.id};
        KnowsFrame(payloads, arrivals, arrivals + [a], s, s', id);
      }
    }
  }

  /** Storing a new part that fits. */
  lemma StoreNew(s: State, l: Limits, id: Id, i: nat, p: string, now: int)
    requires id in s.groups && i < |s.groups[id].parts| && s.groups[id].parts[i].None? && s.buffered + |p| <= l.maxBytes
    ensures var g := Fill(s.groups[id], i, p); var (s', out) := Store(s, l, id, i, p, now);
      if g.have < g.total then s'.groups == s.groups[id := g] && s'.rejected == s.rejected && out == Incomplete
      else s'.groups == s.groups - {id} && s'.rejected == Bury(s.rejected, id, now + l.timeoutMs) && out == Delivered(Join(g.parts))
  {
    hide Bury, Reject, Join;
    assert s.groups[id := Fill(s.groups[id], i, p)] - {id} == s.groups - {id};
  }

  lemma PartMissing(payloads: map<Id, string>, arrivals: seq<Arrival>, g: Group, a: Arrival)
    requires a.id in payloads && Parts(payloads[a.id], g.parts, Received(arrivals, a.id))
    requires a.i < |g.parts| && a.i !in Received(arrivals, a.id)
    ensures g.parts[a.i].None?
  {}

  lemma CompleteIsFull(payloads: map<Id, string>, arrivals: seq<Arrival>, a: Arrival)
    requires a.id in payloads
    ensures Complete(payloads, arrivals + [a], a.id) <==> Full(payloads[a.id], Received(arrivals, a.id) + {a.i})
  {
    ReceivedPush(arrivals, a, a.id);
  }

  lemma TombsLast(payloads: map<Id, string>, l: Limits, arrivals: seq<Arrival>, from: int, s: State)
    requires Tracks(payloads, l, arrivals, from, s)
    ensures forall t :: t in s.rejected ==> from + l.timeoutMs <= t.1
  {}

  lemma OpenedRest(s: State, id: Id, n: nat)
    ensures Opened(s, id, n).rejected == s.rejected && Opened(s, id, n).groups - {id} == s.groups - {id}
  {}

  lemma OnlyThatGroup(groups: map<Id, Group>, id: Id, g: Group)
    ensures groups[id := g] - {id} == groups - {id}
  {}

  /** What accepting a new chunk does to the state. */
  lemma NewStore(payloads: map<Id, string>, l: Limits, arrivals: seq<Arrival>, from: int, s: State, a: Arrival)
    requires Sendable(payloads, l) && Tracks(payloads, l, arrivals, from, s) && GoodArrival(payloads, l, a, from)
    requires a.id in payloads && !Complete(payloads, arrivals, a.id) && a.i !in Received(arrivals, a.id)
    ensures Shaped(s)
    ensures var (s', out) := Accept(s, l, Message(payloads, a), a.now);
      Inv(s', l) &&
      if Complete(payloads, arrivals + [a], a.id) then
        s'.groups == s.groups - {a.id} && s'.rejected == Bury(s.rejected, a.id, a.now + l.timeoutMs) &&
        out == Delivered(payloads[a.id])
      else
        a.id in s'.groups && s'.groups - {a.id} == s.groups - {a.id} && s'.rejected == s.rejected &&
        s'.groups[a.id].total == ChunkCount(|payloads[a.id]|) &&
        Parts(payloads[a.id], s'.groups[a.id].parts, Received(arrivals, a.id) + {a.i}) && out == Incomplete
  {
    hide Sendable, Inv, Received, Complete, Bury, Accept, Full, Parts, Knows, ChunkCount, Chunk, Store, Fill, Entombed;
    GoodOne(payloads, l, a, from);
    var (id, p) := (a.id, Chunk(payloads[a.id], a.i));
    var o := Opened(s, id, ChunkCount(|payloads[id]|));
    ReachesStore(payloads, l, arrivals, from, s, a);
    RoomFor(payloads, l, arrivals, from, s, a);
    OpenedOk(payloads, l, arrivals, from, s, id);
    GroupsOk(o, l, id);
    hide Tracks, GoodArrival, Join, Message;
    PartMissing(payloads, arrivals, o.groups[id], a);
    FullGroup(payloads[id], o.groups[id], Received(arrivals, id), a.i);
    CompleteIsFull(payloads, arrivals, a);
    StoreOk(o, l, id, a.i, p, a.now);
    StoreNew(o, l, id, a.i, p, a.now);
    FillTotal(o.groups[id], a.i, p);
    OpenedRest(s, id, ChunkCount(|payloads[id]|));
    OnlyThatGroup(o.groups, id, Fill(o.groups[id], a.i, p));
    hide GroupOk, Opened;
  }

  /** A new chunk: stored, and if it is the last one, delivered and remembered. */
  lemma NewChunk(payloads: map<Id, string>, l: Limits, arrivals: seq<Arrival>, from: int, s: State, a: Arrival)
    requires Sendable(payloads, l) && Tracks(payloads, l, arrivals, from, s) && GoodArrival(payloads, l, a, from)
    requires !Complete(payloads, arrivals, a.id) && a.i !in Received(arrivals, a.id)
    ensures Shaped(s)
    ensures Tracks(payloads, l, arrivals + [a], from, Accept(s, l, Message(payloads, a), a.now).0)
    ensures Accept(s, l, Message(payloads, a), a.now).1 ==
      if Complete(payloads, arrivals + [a], a.id) then Delivered(payloads[a.id]) else Incomplete
  {
    hide Sendable, Inv, Received, Complete, Bury, Accept, Parts, Knows, ChunkCount, Entombed;
    GoodOne(payloads, l, a, from);
    NewStore(payloads, l, arrivals, from, s, a);
    TombsLast(payloads, l, arrivals, from, s);
    var s' := Accept(s, l, Message(payloads, a), a.now).0;
    if Complete(payloads, arrivals + [a], a.id) {
      BuryOne(payloads, l, arrivals, from, s, a.id, a.now + l.timeoutMs);
      ClosedGroup(payloads, l, arrivals, from, s, a, s');
    } else {
      StoredPart(payloads, l, arrivals, from, s, a, s');
    }
  }

  lemma GroupsOk(s: State, l: Limits, id: Id)
    requires Inv(s, l) && id in s.groups
    ensures GroupOk(s.groups[id])
  {}

  lemma FillTotal(g: Group, i: nat, p: string)
    requires i < |g.parts|
    ensures Fill(g, i, p).total == g.total
  {}

  lemma GoodOne(payloads: map<Id, string>, l: Limits, a: Arrival, from: int)
    requires GoodArrival(payloads, l, a, from)
    ensures a.id in payloads && a.i < ChunkCount(|payloads[a.id]|)
  {}

  lemma CompleteHas(payloads: map<Id, string>, arrivals: seq<Arrival>, id: Id, i: nat)
    requires Complete(payloads, arrivals, id) && i < ChunkCount(|payloads[id]|)
    ensures i in Received(arrivals, id)
  {}

  lemma KnownPart(payloads: map<Id, string>, l: Limits, arrivals: seq<Arrival>, from: int, s: State, a: Arrival)
    requires Sendable(payloads, l) && Tracks(payloads, l, arrivals, from, s) && GoodArrival(payloads, l, a, from)
    requires !Complete(payloads, arrivals, a.id) && a.i in Received(arrivals, a.id)
    ensures var o := Opened(s, a.id, ChunkCount(|payloads[a.id]|));
      o == s && a.id in s.groups && a.i < |s.groups[a.id].parts| &&
      Store(o, l, a.id, a.i, Chunk(payloads[a.id], a.i), a.now) == (s, Incomplete)
  {
    hide Inv, Received, Complete, Chunk, Reject;
    assert Knows(payloads, arrivals, s, a.id);
  }

  lemma OneArrival(payloads: map<Id, string>, l: Limits, arrivals: seq<Arrival>, from: int, s: State, a: Arrival)
    requires Sendable(payloads, l) && Tracks(payloads, l, arrivals, from, s) && GoodArrival(payloads, l, a, from)
    ensures Shaped(s)
    ensures Tracks(payloads, l, arrivals + [a], from, Accept(s, l, Message(payloads, a), a.now).0)
    ensures Accept(s, l, Message(payloads, a), a.now).1 == Expected(payloads, arrivals + [a])
  {
    hide Inv, Received, Complete, Parts, Store;
    var id := a.id;
    assert (arrivals + [a])[..|arrivals|] == arrivals;
    assert Knows(payloads, arrivals, s, id);
    ShapedIf(s, l);
    AliveAll(s.rejected, a.now);
    assert s.(rejected := s.rejected) == s;
    if Complete(payloads, arrivals, id) {
      CompleteHas(payloads, arrivals, id, a.i);
      NothingNew(payloads, l, arrivals, from, s, a);
    } else if a.i in Received(arrivals, id) {
      NothingNew(payloads, l, arrivals, from, s, a);
      ReachesStore(payloads, l, arrivals, from, s, a);
      KnownPart(payloads, l, arrivals, from, s, a);
    } else {
      NewChunk(payloads, l, arrivals, from, s, a);
    }
  }

  // ---- All arrivals ------------------------------------------------------

  lemma NothingReceived(payloads: map<Id, string>, l: Limits, from: int)
    requires Sendable(payloads, l)
    ensures Tracks(payloads, l, [], from, EMPTY)
  {
    forall id ensures Knows(payloads, [], EMPTY, id) {
      if id in payloads {
        CountFits(payloads[id]);
        assert 0 !in Received([], id);
      }
    }
  }

  lemma TracksShaped(payloads: map<Id, string>, l: Limits, arrivals: seq<Arrival>, from: int, s: State)
    requires Tracks(payloads, l, arrivals, from, s)
    ensures Shaped(s)
  {
    ShapedIf(s, l);
  }

  lemma TimelyPrefix(payloads: map<Id, string>, l: Limits, arrivals: seq<Arrival>, from: int, k: nat)
    requires Timely(payloads, l, arrivals, from) && k < |arrivals|
    ensures Timely(payloads, l, arrivals[..k], from) && GoodArrival(payloads, l, arrivals[k], from)
    ensures arrivals[k].id in payloads && arrivals[k].i < ChunkCount(|payloads[arrivals[k].id]|)
  {}

  /** The receiver after these arrivals. */
  ghost function Receive(payloads: map<Id, string>, l: Limits, arrivals: seq<Arrival>, from: int): (s: State)
    requires Sendable(payloads, l) && Timely(payloads, l, arrivals, from)
    ensures Tracks(payloads, l, arrivals, from, s) && Shaped(s)
  {
    hide Tracks, Sendable, GoodArrival, Timely, Accept, Message;
    if arrivals == [] then NothingReceived(payloads, l, from); EMPTY
    else
      var n := |arrivals| - 1;
      TimelyPrefix(payloads, l, arrivals, from, n);
      var s := Receive(payloads, l, arrivals[..n], from);
      OneArrival(payloads, l, arrivals[..n], from, s, arrivals[n]);
      assert arrivals[..n] + [arrivals[n]] == arrivals;
      var s' := Accept(s, l, Message(payloads, arrivals[n]), arrivals[n].now).0;
      TracksShaped(payloads, l, arrivals, from, s');
      s'
  }

  /** What it answers to arrival k. */
  ghost function Answer(payloads: map<Id, string>, l: Limits, arrivals: seq<Arrival>, from: int, k: nat): Outcome
    requires Sendable(payloads, l) && Timely(payloads, l, arrivals, from) && k < |arrivals|
  {
    hide Sendable, GoodArrival, Timely, Accept, Message;
    TimelyPrefix(payloads, l, arrivals, from, k);
    Accept(Receive(payloads, l, arrivals[..k], from), l, Message(payloads, arrivals[k]), arrivals[k].now).1
  }

  /** The arrival that completes a payload. */
  ghost predicate Completes(payloads: map<Id, string>, arrivals: seq<Arrival>, id: Id, k: nat)
    requires k < |arrivals|
  {
    arrivals[k].id == id && Complete(payloads, arrivals[..k + 1], id) && !Complete(payloads, arrivals[..k], id)
  }

  /** Every arrival is answered with the payload it completes, or with nothing. */
  lemma AnswerIs(payloads: map<Id, string>, l: Limits, arrivals: seq<Arrival>, from: int, k: nat)
    requires Sendable(payloads, l) && Timely(payloads, l, arrivals, from) && k < |arrivals|
    ensures Completes(payloads, arrivals, arrivals[k].id, k) ==>
      arrivals[k].id in payloads && Answer(payloads, l, arrivals, from, k) == Delivered(payloads[arrivals[k].id])
    ensures !Completes(payloads, arrivals, arrivals[k].id, k) ==> Answer(payloads, l, arrivals, from, k) == Incomplete
  {
    hide Accept, Receive, Tracks, Complete, Sendable, GoodArrival, Timely, Message;
    TimelyPrefix(payloads, l, arrivals, from, k);
    OneArrival(payloads, l, arrivals[..k], from, Receive(payloads, l, arrivals[..k], from), arrivals[k]);
    assert arrivals[..k] + [arrivals[k]] == arrivals[..k + 1];
    assert arrivals[..k + 1][..k] == arrivals[..k];
  }

  lemma {:induction false} CompleteGrows(payloads: map<Id, string>, arrivals: seq<Arrival>, id: Id, j: nat, k: nat)
    requires j <= k <= |arrivals| && Complete(payloads, arrivals[..j], id)
    ensures Complete(payloads, arrivals[..k], id)
  {
    forall i | i in Received(arrivals[..j], id) ensures i in Received(arrivals[..k], id) {
      var m :| 0 <= m < j && arrivals[..j][m].id == id && arrivals[..j][m].i == i;
      assert arrivals[..k][m] == arrivals[..j][m];
    }
  }

  lemma {:induction false} CompletionExists(payloads: map<Id, string>, arrivals: seq<Arrival>, id: Id) returns (k: nat)
    requires Complete(payloads, arrivals, id) && ChunkCount(|payloads[id]|) > 0
    ensures k < |arrivals| && Completes(payloads, arrivals, id, k)
    decreases |arrivals|
  {
    assert 0 in Received(arrivals, id);
    var n := |arrivals| - 1;
    assert arrivals[..n + 1] == arrivals;
    if Complete(payloads, arrivals[..n], id) {
      k := CompletionExists(payloads, arrivals[..n], id);
      assert arrivals[..n][..k + 1] == arrivals[..k + 1] && arrivals[..n][..k] == arrivals[..k];
    } else {
      assert arrivals == arrivals[..n] + [arrivals[n]];
      ReceivedPush(arrivals[..n], arrivals[n], id);
      k := n;
    }
  }

  /** Each payload comes back exactly once and unchanged: at the arrival of its last missing chunk.
      Every other arrival is answered with nothing, and nothing is rejected. */
  lemma ExactlyOnce(payloads: map<Id, string>, l: Limits, arrivals: seq<Arrival>, from: int, id: Id) returns (k: nat)
    requires Sendable(payloads, l) && Timely(payloads, l, arrivals, from)
    requires Complete(payloads, arrivals, id)
    ensures k < |arrivals| && arrivals[k].id == id && Answer(payloads, l, arrivals, from, k) == Delivered(payloads[id])
    ensures Complete(payloads, arrivals[..k + 1], id) && !Complete(payloads, arrivals[..k], id)
    ensures forall j :: 0 <= j < |arrivals| && j != k && arrivals[j].id == id ==>
      Answer(payloads, l, arrivals, from, j) == Incomplete
  {
    CompleteIn(payloads, arrivals, id);
    CountFits(payloads[id]);
    hide Complete, Received, Answer, ChunkCount, Sendable, Timely;
    k := CompletionExists(payloads, arrivals, id);
    AnswerIs(payloads, l, arrivals, from, k);
    forall j | 0 <= j < |arrivals| && j != k && arrivals[j].id == id
      ensures Answer(payloads, l, arrivals, from, j) == Incomplete
    {
      AnswerIs(payloads, l, arrivals, from, j);
      if k < j { CompleteGrows(payloads, arrivals, id, k + 1, j); }
      if j < k && Complete(payloads, arrivals[..j + 1], id) { CompleteGrows(payloads, arrivals, id, j + 1, k); }
    }
  }
}
