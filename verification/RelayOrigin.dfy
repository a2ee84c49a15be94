/** Whatever messages come in, well formed or not: a delivered payload is a message that came, or is made of the
    chunks that came under one id and one count. */
module RelayOrigin {
  import opened Wrappers
  import opened Relay
  import opened RelaySafety

  /** Slice i of n of a group came as this text. */
  ghost predicate Came(events: seq<Event>, id: Id, n: nat, i: nat, p: string) {
    exists k :: 0 <= k < |events| && events[k].Arrives? && events[k].env == Envelope(Some(p), Some(id), Some(i), Some(n))
  }

  /** Every slot of a group is empty or holds a slice that came. */
  ghost predicate PartsCame(events: seq<Event>, id: Id, g: Group) {
    forall i :: 0 <= i < |g.parts| && g.parts[i].Some? ==> Came(events, id, g.total, i, g.parts[i].value)
  }

  ghost predicate GroupsCame(events: seq<Event>, s: State) {
    forall id :: id in s.groups ==> PartsCame(events, id, s.groups[id])
  }

  lemma CameStays(events: seq<Event>, e: Event, id: Id, n: nat, i: nat, p: string)
    requires Came(events, id, n, i, p)
    ensures Came(events + [e], id, n, i, p)
  {
    var k :| 0 <= k < |events| && events[k].Arrives? && events[k].env == Envelope(Some(p), Some(id), Some(i), Some(n));
    assert (events + [e])[k] == events[k];
  }

  lemma PartsStay(events: seq<Event>, e: Event, id: Id, g: Group)
    requires PartsCame(events, id, g)
    ensures PartsCame(events + [e], id, g)
  {
    forall i | 0 <= i < |g.parts| && g.parts[i].Some? ensures Came(events + [e], id, g.total, i, g.parts[i].value) {
      CameStays(events, e, id, g.total, i, g.parts[i].value);
    }
  }

  /** A new slice in its slot. */
  lemma FillCame(events: seq<Event>, id: Id, g: Group, i: nat, p: string, now: int)
    requires PartsCame(events, id, g) && i < |g.parts|
    ensures PartsCame(events + [Arrives(Envelope(Some(p), Some(id), Some(i), Some(g.total)), now)], id, Fill(g, i, p))
  {
    var e := Arrives(Envelope(Some(p), Some(id), Some(i), Some(g.total)), now);
    PartsStay(events, e, id, g);
    assert (events + [e])[|events|] == e;
    assert Came(events + [e], id, g.total, i, p);
  }

  /** The text of n slices. */
  function Whole(parts: seq<string>): string {
    if parts == [] then "" else Whole(parts[..|parts| - 1]) + parts[|parts| - 1]
  }

  ghost predicate Slices(events: seq<Event>, id: Id, n: nat, parts: seq<string>) {
    |parts| == n && forall i :: 0 <= i < n ==> Came(events, id, n, i, parts[i])
  }

  /** The message itself, or all the slices of its group. */
  ghost predicate Justified(events: seq<Event>, env: Envelope, payload: string, l: Limits) {
    if env.fc.None? then env.p == Some(payload) && |payload| <= l.maxBytes
    else
      env.fn.Some? && env.fn.value > 0 &&
      exists parts :: Slices(events, env.fc.value, env.fn.value, parts) && payload == Whole(parts)
  }

  lemma {:induction false} JoinIsWhole(slots: seq<Option<string>>) returns (parts: seq<string>)
    requires forall i :: 0 <= i < |slots| ==> slots[i].Some?
    ensures |parts| == |slots| && (forall i :: 0 <= i < |parts| ==> slots[i] == Some(parts[i])) && Join(slots) == Whole(parts)
  {
    if slots == [] {
      parts := [];
    } else {
      var n := |slots| - 1;
      var front := JoinIsWhole(slots[..n]);
      parts := front + [slots[n].value];
      assert parts[..n] == front;
    }
  }

  lemma StoreJustified(s: State, l: Limits, events: seq<Event>, id: Id, i: nat, p: string, now: int)
    requires id in s.groups && i < |s.groups[id].parts| && GroupOk(s.groups[id]) && s.groups[id].total > 0 && GroupsCame(events, s)
    ensures var e := Arrives(Envelope(Some(p), Some(id), Some(i), Some(s.groups[id].total)), now);
      var (s', out) := Store(s, l, id, i, p, now);
      GroupsCame(events + [e], s') && (out.Delivered? ==> Justified(events + [e], e.env, out.payload, l))
  {
    hide Bury, PartsCame, Came;
    var g := s.groups[id];
    var e := Arrives(Envelope(Some(p), Some(id), Some(i), Some(g.total)), now);
    forall k | k in s.groups ensures PartsCame(events + [e], k, s.groups[k]) {
      PartsStay(events, e, k, s.groups[k]);
    }
    FillCame(events, id, g, i, p, now);
    if g.parts[i].None? && s.buffered + |p| <= l.maxBytes {
      var g' := Fill(g, i, p);
      FillOne(g.parts, i, p);
      if g'.have >= g'.total {
        AllFilled(g'.parts);
        var parts := JoinIsWhole(g'.parts);
        SlicesOf(events + [e], id, g', parts);
      }
    }
  }

  lemma SlicesOf(events: seq<Event>, id: Id, g: Group, parts: seq<string>)
    requires PartsCame(events, id, g) && |parts| == |g.parts| == g.total
    requires forall i :: 0 <= i < |parts| ==> g.parts[i] == Some(parts[i])
    ensures Slices(events, id, g.total, parts)
  {
    hide Came;
  }

  lemma AcceptJustified(s: State, l: Limits, events: seq<Event>, env: Envelope, now: int)
    requires Inv(s, l) && GroupsCame(events, s)
    ensures Shaped(s)
    ensures var (s', out) := Accept(s, l, env, now);
      GroupsCame(events + [Arrives(env, now)], s') &&
      (out.Delivered? ==> Justified(events + [Arrives(env, now)], env, out.payload, l))
  {
    ShapedIf(s, l);
    var e := Arrives(env, now);
    hide Bury, PartsCame, Alive, Store, Justified, GroupOk, Entombed;
    forall k | k in s.groups ensures PartsCame(events + [e], k, s.groups[k]) {
      PartsStay(events, e, k, s.groups[k]);
    }
    if env.p.Some? && env.fc.Some? && GoodMetadata(env.fi, env.fn) {
      var id, n, s1 := env.fc.value, env.fn.value, s.(rejected := Alive(s.rejected, now));
      var open := if id in s.groups then s1 else s1.(groups := s1.groups[id := NewGroup(n)]);
      NewCame(events, id, n);
      if open.groups[id].total == n {
        assert GroupOk(open.groups[id]);
        SlotsAre(open.groups[id]);
        StoreJustified(open, l, events, id, env.fi.value, env.p.value, now);
      }
    }
    UnchunkedJustified(events + [e], env, l);
  }

  lemma SlotsAre(g: Group)
    requires GroupOk(g)
    ensures |g.parts| == g.total
  {}

  lemma UnchunkedJustified(events: seq<Event>, env: Envelope, l: Limits)
    ensures env.p.Some? && env.fc.None? && |env.p.value| <= l.maxBytes ==> Justified(events, env, env.p.value, l)
  {}

  lemma NewCame(events: seq<Event>, id: Id, n: nat)
    requires 0 < n <= MAX_FRAME_CHUNKS
    ensures PartsCame(events, id, NewGroup(n)) && GroupOk(NewGroup(n)) && NewGroup(n).total == n
  {
    NothingFilled(n);
  }

  lemma {:induction false} AllCame(l: Limits, events: seq<Event>)
    ensures GroupsCame(events, After(l, events))
  {
    if events != [] {
      var init, e := events[..|events| - 1], events[|events| - 1];
      assert events == init + [e];
      AllCame(l, init);
      var s := After(l, init);
      if e.Arrives? {
        AcceptJustified(s, l, init, e.env, e.now);
      } else {
        forall k | k in s.groups ensures PartsCame(events, k, s.groups[k]) {
          PartsStay(init, e, k, s.groups[k]);
        }
        hide PartsCame;
      }
    }
  }

  /** In every history, what a message is answered with is that message, within the limit, or the slices of its group
      that came, each in its place. */
  lemma NothingInvented(l: Limits, events: seq<Event>, env: Envelope, now: int)
    ensures Shaped(After(l, events))
    ensures var out := Accept(After(l, events), l, env, now).1;
      out.Delivered? ==> Justified(events + [Arrives(env, now)], env, out.payload, l)
  {
    AllCame(l, events);
    AcceptJustified(After(l, events), l, events, env, now);
  }

  // ---- Nothing is lost silently ----------------------------------------------------

  /** The slice is kept in an open group of its count. */
  predicate Held(s: State, id: Id, i: int, n: int) {
    id in s.groups && s.groups[id].total == n && 0 <= i < |s.groups[id].parts| && s.groups[id].parts[i].Some?
  }

  lemma StoreHolds(s: State, l: Limits, id: Id, i: nat, p: string, now: int)
    requires id in s.groups && i < |s.groups[id].parts|
    ensures var (s', out) := Store(s, l, id, i, p, now);
      (out.Incomplete? ==> Held(s', id, i, s.groups[id].total)) &&
      (out.Rejected? ==> id !in s'.groups && s'.rejected == Bury(s.rejected, id, now + l.timeoutMs))
  {
    hide Bury, Join;
  }

  /** Delivered, kept in its group, or ignored because its group is remembered; otherwise its group is closed,
      remembered and reported. */
  predicate Accounted(s: State, l: Limits, env: Envelope, now: int)
    requires Shaped(s)
  {
    var (s', out) := Accept(s, l, env, now);
    var alive := Alive(s.rejected, now);
    match out
    case Delivered(_) => true
    case Incomplete =>
      env.fc.Some? &&
      (Entombed(alive, env.fc.value) || (env.fi.Some? && env.fn.Some? && Held(s', env.fc.value, env.fi.value, env.fn.value)))
    case Rejected(_) =>
      if env.fc.None? then s'.rejected == Bury(alive, "unchunked", now + l.timeoutMs)
      else env.fc.value !in s'.groups && s'.rejected == Bury(alive, env.fc.value, now + l.timeoutMs)
  }

  lemma ChunkAccounted(s: State, l: Limits, env: Envelope, now: int)
    requires Shaped(s) && env.p.Some? && env.fc.Some?
    ensures Accounted(s, l, env, now)
  {
    hide Bury, Alive, Entombed, Store, Held, NewGroup;
    if GoodMetadata(env.fi, env.fn) {
      var id, n, s1 := env.fc.value, env.fn.value, s.(rejected := Alive(s.rejected, now));
      if id in s1.groups {
        if s1.groups[id].total == n { StoreHolds(s1, l, id, env.fi.value, env.p.value, now); }
      } else {
        var open := s1.(groups := s1.groups[id := NewGroup(n)]);
        SlotsOfNew(n);
        StoreHolds(open, l, id, env.fi.value, env.p.value, now);
      }
    }
  }

  lemma SlotsOfNew(n: nat)
    ensures |NewGroup(n).parts| == n && NewGroup(n).total == n
  {}

  /** In every history every message with a payload is accounted for. */
  lemma NothingLostSilently(l: Limits, events: seq<Event>, env: Envelope, now: int)
    requires env.p.Some?
    ensures Shaped(After(l, events)) && Accounted(After(l, events), l, env, now)
  {
    var s := After(l, events);
    ShapedIf(s, l);
    if env.fc.Some? {
      hide *;
      ChunkAccounted(s, l, env, now);
    } else {
      hide After, Bury, Alive, Inv;
    }
  }
}
