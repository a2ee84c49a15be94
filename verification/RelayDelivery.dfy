/** Short payloads and chunked ones together: whatever the sender accepts comes back once and unchanged, at the message
    that completes it, under any interleaving. */
module RelayDelivery {
  import opened Wrappers
  import opened Relay
  import opened RelaySafety
  import opened RelayRoundTrip

  function Longs(payloads: map<Id, string>): map<Id, string> {
    map id | id in payloads && |payloads[id]| > FRAME_CHUNK_BYTES :: payloads[id]
  }

  /** The sender accepts every payload, the chunked ones fit the receiver together and the others one by one. */
  ghost predicate Accepted(payloads: map<Id, string>, l: Limits) {
    Sendable(Longs(payloads), l) &&
    forall id :: id in payloads ==> |payloads[id]| <= MAX_REASSEMBLY_BYTES && |payloads[id]| <= l.maxBytes
  }

  /** Message i of a payload arrives within the timeout. */
  predicate Fine(payloads: map<Id, string>, l: Limits, a: Arrival, from: int) {
    a.id in payloads && a.i < |Messages(payloads[a.id], a.id)| && from <= a.now < from + l.timeoutMs
  }

  ghost predicate AllFine(payloads: map<Id, string>, l: Limits, arrivals: seq<Arrival>, from: int) {
    forall k :: 0 <= k < |arrivals| ==> Fine(payloads, l, arrivals[k], from)
  }

  predicate IsChunk(payloads: map<Id, string>, a: Arrival) {
    a.id in Longs(payloads)
  }

  /** The arrivals that are chunks. */
  function Chunks(payloads: map<Id, string>, arrivals: seq<Arrival>): seq<Arrival> {
    if arrivals == [] then []
    else
      var last := arrivals[|arrivals| - 1];
      Chunks(payloads, arrivals[..|arrivals| - 1]) + if IsChunk(payloads, last) then [last] else []
  }

  lemma {:induction false} ChunksTimely(payloads: map<Id, string>, l: Limits, arrivals: seq<Arrival>, from: int)
    requires AllFine(payloads, l, arrivals, from)
    ensures Timely(Longs(payloads), l, Chunks(payloads, arrivals), from)
  {
    hide Messages, ChunkCount;
    if arrivals != [] {
      var n := |arrivals| - 1;
      assert forall k :: 0 <= k < n ==> arrivals[..n][k] == arrivals[k];
      ChunksTimely(payloads, l, arrivals[..n], from);
      assert Fine(payloads, l, arrivals[n], from);
    }
  }

  function Wire(payloads: map<Id, string>, a: Arrival): Envelope
    requires a.id in payloads && a.i < |Messages(payloads[a.id], a.id)|
  {
    Messages(payloads[a.id], a.id)[a.i]
  }

  /** A short message is delivered as it is, and nothing else changes. */
  lemma ShortDelivered(payloads: map<Id, string>, l: Limits, chunks: seq<Arrival>, from: int, s: State, a: Arrival)
    requires Accepted(payloads, l) && Fine(payloads, l, a, from) && !IsChunk(payloads, a)
    requires Tracks(Longs(payloads), l, chunks, from, s) && Shaped(s)
    ensures Accept(s, l, Wire(payloads, a), a.now) == (s, Delivered(payloads[a.id]))
  {
    hide Knows, Inv;
    AliveAll(s.rejected, a.now);
    assert s.(rejected := s.rejected) == s;
  }

  /** The state that the chunks among the arrivals lead to. */
  ghost function ByChunks(payloads: map<Id, string>, l: Limits, arrivals: seq<Arrival>, from: int): (s: State)
    requires Accepted(payloads, l) && AllFine(payloads, l, arrivals, from)
    ensures Shaped(s) && Tracks(Longs(payloads), l, Chunks(payloads, arrivals), from, s)
  {
    ChunksTimely(payloads, l, arrivals, from);
    Receive(Longs(payloads), l, Chunks(payloads, arrivals), from)
  }

  lemma FineAt(payloads: map<Id, string>, l: Limits, arrivals: seq<Arrival>, from: int, k: nat)
    requires AllFine(payloads, l, arrivals, from) && k < |arrivals|
    ensures AllFine(payloads, l, arrivals[..k], from) && Fine(payloads, l, arrivals[k], from)
    ensures arrivals[k].id in payloads && arrivals[k].i < |Messages(payloads[arrivals[k].id], arrivals[k].id)|
  {
    hide Fine;
    assert forall j :: 0 <= j < k ==> arrivals[..k][j] == arrivals[j];
    assert Fine(payloads, l, arrivals[k], from);
    FineHas(payloads, l, arrivals[k], from);
  }

  lemma FineHas(payloads: map<Id, string>, l: Limits, a: Arrival, from: int)
    requires Fine(payloads, l, a, from)
    ensures a.id in payloads && a.i < |Messages(payloads[a.id], a.id)|
  {}

  /** A chunk goes to its group as in the round trip of chunks alone. */
  lemma ChunkAccepted(payloads: map<Id, string>, l: Limits, a: Arrival, from: int)
    requires Accepted(payloads, l) && Fine(payloads, l, a, from) && IsChunk(payloads, a)
    ensures GoodArrival(Longs(payloads), l, a, from) && Wire(payloads, a) == Message(Longs(payloads), a)
  {
    hide ChunkMessage;
  }

  lemma NextState(payloads: map<Id, string>, l: Limits, arrivals: seq<Arrival>, from: int)
    requires Accepted(payloads, l) && AllFine(payloads, l, arrivals, from) && arrivals != []
    requires var n := |arrivals| - 1; Fine(payloads, l, arrivals[n], from) && AllFine(payloads, l, arrivals[..n], from)
    ensures var n := |arrivals| - 1;
      ByChunks(payloads, l, arrivals, from) ==
        Accept(ByChunks(payloads, l, arrivals[..n], from), l, Wire(payloads, arrivals[n]), arrivals[n].now).0
  {
    var n := |arrivals| - 1;
    var a, before, chunks := arrivals[n], ByChunks(payloads, l, arrivals[..n], from), Chunks(payloads, arrivals);
    hide Accept, Tracks, Accepted, AllFine, Timely, Wire, Messages;
    ChunksTimely(payloads, l, arrivals, from);
    if IsChunk(payloads, a) {
      ChunkAccepted(payloads, l, a, from);
      assert chunks[..|chunks| - 1] == Chunks(payloads, arrivals[..n]);
    } else {
      ShortDelivered(payloads, l, Chunks(payloads, arrivals[..n]), from, before, a);
      assert chunks == Chunks(payloads, arrivals[..n]);
    }
  }

  /** The receiver after all these messages. */
  ghost function After(payloads: map<Id, string>, l: Limits, arrivals: seq<Arrival>, from: int): (s: State)
    requires Accepted(payloads, l) && AllFine(payloads, l, arrivals, from)
    ensures Shaped(s) && s == ByChunks(payloads, l, arrivals, from)
  {
    hide Accept, Tracks, Accepted, AllFine, Messages, Fine, ByChunks;
    if arrivals == [] then NoneYet(payloads, l, from); EMPTY
    else
      var n := |arrivals| - 1;
      FineAt(payloads, l, arrivals, from, n);
      NextState(payloads, l, arrivals, from);
      Accept(After(payloads, l, arrivals[..n], from), l, Wire(payloads, arrivals[n]), arrivals[n].now).0
  }

  lemma NoneYet(payloads: map<Id, string>, l: Limits, from: int)
    requires Accepted(payloads, l) && AllFine(payloads, l, [], from)
    ensures ByChunks(payloads, l, [], from) == EMPTY && Shaped(EMPTY)
  {
    hide Accepted, Tracks;
  }

  /** What it answers to message k. */
  ghost function AnswerTo(payloads: map<Id, string>, l: Limits, arrivals: seq<Arrival>, from: int, k: nat): Outcome
    requires Accepted(payloads, l) && AllFine(payloads, l, arrivals, from) && k < |arrivals|
  {
    hide Accept, Accepted, AllFine, Messages, Fine;
    FineAt(payloads, l, arrivals, from, k);
    Accept(After(payloads, l, arrivals[..k], from), l, Wire(payloads, arrivals[k]), arrivals[k].now).1
  }

  lemma ShortAnswer(payloads: map<Id, string>, l: Limits, arrivals: seq<Arrival>, from: int, k: nat)
    requires Accepted(payloads, l) && AllFine(payloads, l, arrivals, from) && k < |arrivals|
    requires !IsChunk(payloads, arrivals[k])
    ensures arrivals[k].id in payloads && AnswerTo(payloads, l, arrivals, from, k) == Delivered(payloads[arrivals[k].id])
    ensures AllFine(payloads, l, arrivals[..k], from) && AllFine(payloads, l, arrivals[..k + 1], from)
    ensures After(payloads, l, arrivals[..k + 1], from) == After(payloads, l, arrivals[..k], from)
  {
    hide Accept, Tracks, Accepted, AllFine, Messages, Fine, Wire;
    FineAt(payloads, l, arrivals, from, k);
    PrefixFine(payloads, l, arrivals, from, k + 1);
    var s := After(payloads, l, arrivals[..k], from);
    ShortDelivered(payloads, l, Chunks(payloads, arrivals[..k]), from, s, arrivals[k]);
    assert arrivals[..k + 1][..k] == arrivals[..k];
  }

  lemma PrefixFine(payloads: map<Id, string>, l: Limits, arrivals: seq<Arrival>, from: int, k: nat)
    requires AllFine(payloads, l, arrivals, from) && k <= |arrivals|
    ensures AllFine(payloads, l, arrivals[..k], from)
  {
    hide Fine;
  }

  // ---- Chunks among the messages -------------------------------------------------

  lemma {:induction false} ChunksOfPrefix(payloads: map<Id, string>, arrivals: seq<Arrival>, k: nat)
    requires k <= |arrivals|
    ensures Chunks(payloads, arrivals[..k]) <= Chunks(payloads, arrivals)
    decreases |arrivals|
  {
    hide IsChunk;
    if k < |arrivals| {
      var n := |arrivals| - 1;
      ChunksOfPrefix(payloads, arrivals[..n], k);
      assert arrivals[..n][..k] == arrivals[..k];
    } else {
      assert arrivals[..k] == arrivals;
    }
  }

  /** Message k, when it is a chunk, is this one of the chunks, and gets the answer that one gets. */
  lemma ChunkAnswer(payloads: map<Id, string>, l: Limits, arrivals: seq<Arrival>, from: int, k: nat)
    requires Accepted(payloads, l) && AllFine(payloads, l, arrivals, from) && k < |arrivals|
    requires IsChunk(payloads, arrivals[k])
    ensures var chunks, c := Chunks(payloads, arrivals), |Chunks(payloads, arrivals[..k])|;
      Timely(Longs(payloads), l, chunks, from) && c < |chunks| && chunks[c] == arrivals[k] &&
      chunks[..c] == Chunks(payloads, arrivals[..k]) &&
      AnswerTo(payloads, l, arrivals, from, k) == Answer(Longs(payloads), l, chunks, from, c)
  {
    hide Accept, Tracks, Accepted, AllFine, Messages, Fine, Wire, IsChunk, Timely;
    FineAt(payloads, l, arrivals, from, k);
    ChunksTimely(payloads, l, arrivals, from);
    ChunksOfPrefix(payloads, arrivals, k);
    ChunksOfPrefix(payloads, arrivals, k + 1);
    assert arrivals[..k + 1][..k] == arrivals[..k];
    assert Chunks(payloads, arrivals[..k + 1]) == Chunks(payloads, arrivals[..k]) + [arrivals[k]];
    ChunkAccepted(payloads, l, arrivals[k], from);
  }

  lemma {:induction false} ChunkFrom(payloads: map<Id, string>, arrivals: seq<Arrival>, c: nat) returns (k: nat)
    requires c < |Chunks(payloads, arrivals)|
    ensures k < |arrivals| && IsChunk(payloads, arrivals[k]) && |Chunks(payloads, arrivals[..k])| == c
  {
    hide IsChunk;
    var n := |arrivals| - 1;
    if c < |Chunks(payloads, arrivals[..n])| {
      k := ChunkFrom(payloads, arrivals[..n], c);
      assert arrivals[..n][..k] == arrivals[..k];
    } else {
      k := n;
    }
  }

  lemma {:induction false} ChunkStays(payloads: map<Id, string>, arrivals: seq<Arrival>, k: nat)
    requires k < |arrivals| && IsChunk(payloads, arrivals[k])
    ensures arrivals[k] in Chunks(payloads, arrivals)
  {
    hide IsChunk;
    var n := |arrivals| - 1;
    if k < n { ChunkStays(payloads, arrivals[..n], k); }
  }

  /** Two chunks that arrive one after the other stand in that order among the chunks. */
  lemma ChunksApart(payloads: map<Id, string>, arrivals: seq<Arrival>, j: nat, k: nat)
    requires j < k < |arrivals| && IsChunk(payloads, arrivals[j])
    ensures |Chunks(payloads, arrivals[..j])| < |Chunks(payloads, arrivals[..k])|
  {
    hide IsChunk;
    assert arrivals[..k][..j + 1] == arrivals[..j + 1] && arrivals[..j + 1][..j] == arrivals[..j];
    ChunksOfPrefix(payloads, arrivals[..k], j + 1);
  }

  predicate Came(arrivals: seq<Arrival>, id: Id, i: nat) {
    exists k :: 0 <= k < |arrivals| && arrivals[k].id == id && arrivals[k].i == i
  }

  /** Every message of the payload arrived. */
  ghost predicate AllCame(payloads: map<Id, string>, arrivals: seq<Arrival>, id: Id) {
    id in payloads &&
    forall i :: 0 <= i < |Messages(payloads[id], id)| ==> Came(arrivals, id, i)
  }

  lemma ChunksComplete(payloads: map<Id, string>, l: Limits, arrivals: seq<Arrival>, from: int, id: Id)
    requires AllFine(payloads, l, arrivals, from) && id in Longs(payloads) && AllCame(payloads, arrivals, id)
    ensures Complete(Longs(payloads), Chunks(payloads, arrivals), id)
  {
    hide ChunkCount, ChunkMessage;
    var chunks := Chunks(payloads, arrivals);
    forall i | 0 <= i < ChunkCount(|payloads[id]|) ensures i in RelayRoundTrip.Received(chunks, id) {
      assert Came(arrivals, id, i);
      var k :| 0 <= k < |arrivals| && arrivals[k].id == id && arrivals[k].i == i;
      ChunkStays(payloads, arrivals, k);
      var c :| 0 <= c < |chunks| && chunks[c] == arrivals[k];
    }
  }

  /** The chunked ones: at one message and at no other. */
  lemma ChunkedComesBack(payloads: map<Id, string>, l: Limits, arrivals: seq<Arrival>, from: int, id: Id) returns (k: nat)
    requires Accepted(payloads, l) && AllFine(payloads, l, arrivals, from) && AllCame(payloads, arrivals, id)
    requires id in Longs(payloads)
    ensures k < |arrivals| && arrivals[k].id == id && AnswerTo(payloads, l, arrivals, from, k) == Delivered(payloads[id])
    ensures forall j :: 0 <= j < |arrivals| && j != k && arrivals[j].id == id ==>
      AnswerTo(payloads, l, arrivals, from, j) == Incomplete
  {
    hide AnswerTo, Accepted, AllFine, AllCame, Chunks, ChunkCount, ChunkMessage, Answer, Complete, Timely, Sendable;
    var chunks := Chunks(payloads, arrivals);
    ChunksComplete(payloads, l, arrivals, from, id);
    ChunksTimely(payloads, l, arrivals, from);
    AcceptedSendable(payloads, l);
    var c := ExactlyOnce(Longs(payloads), l, chunks, from, id);
    k := ChunkFrom(payloads, arrivals, c);
    ChunkAnswer(payloads, l, arrivals, from, k);
    forall j | 0 <= j < |arrivals| && j != k && arrivals[j].id == id
      ensures AnswerTo(payloads, l, arrivals, from, j) == Incomplete
    {
      ChunkAnswer(payloads, l, arrivals, from, j);
      if j < k { ChunksApart(payloads, arrivals, j, k); } else { ChunksApart(payloads, arrivals, k, j); }
    }
  }

  /** The short ones: at their one message, however often it comes. */
  lemma ShortComesBack(payloads: map<Id, string>, l: Limits, arrivals: seq<Arrival>, from: int, id: Id) returns (k: nat)
    requires Accepted(payloads, l) && AllFine(payloads, l, arrivals, from) && AllCame(payloads, arrivals, id)
    requires id !in Longs(payloads)
    ensures k < |arrivals| && arrivals[k].id == id && AnswerTo(payloads, l, arrivals, from, k) == Delivered(payloads[id])
    ensures forall j :: 0 <= j < |arrivals| && arrivals[j].id == id ==> arrivals[j].i == arrivals[k].i
  {
    hide AnswerTo, Accepted;
    assert Came(arrivals, id, 0);
    k :| 0 <= k < |arrivals| && arrivals[k].id == id && arrivals[k].i == 0;
    forall j | 0 <= j < |arrivals| && arrivals[j].id == id ensures arrivals[j].i == 0 {
      assert Fine(payloads, l, arrivals[j], from);
    }
    assert !IsChunk(payloads, arrivals[k]);
    hide *;
    ShortAnswer(payloads, l, arrivals, from, k);
  }

  /** Each payload the sender accepts, short or chunked, comes back unchanged once all its messages arrived: at one of
      them, and a chunked one at no other. A short one has one message only. */
  lemma EveryPayloadComesBack(payloads: map<Id, string>, l: Limits, arrivals: seq<Arrival>, from: int, id: Id) returns (k: nat)
    requires Accepted(payloads, l) && AllFine(payloads, l, arrivals, from) && AllCame(payloads, arrivals, id)
    ensures k < |arrivals| && arrivals[k].id == id && AnswerTo(payloads, l, arrivals, from, k) == Delivered(payloads[id])
    ensures forall j :: 0 <= j < |arrivals| && j != k && arrivals[j].id == id ==>
      if |payloads[id]| <= FRAME_CHUNK_BYTES then arrivals[j].i == arrivals[k].i
      else AnswerTo(payloads, l, arrivals, from, j) == Incomplete
  {
    assert id in payloads;
    hide AnswerTo, Accepted, AllFine, AllCame;
    if id in Longs(payloads) {
      k := ChunkedComesBack(payloads, l, arrivals, from, id);
    } else {
      k := ShortComesBack(payloads, l, arrivals, from, id);
    }
  }

  lemma AcceptedSendable(payloads: map<Id, string>, l: Limits)
    requires Accepted(payloads, l)
    ensures Sendable(Longs(payloads), l)
  {}

  /** When every message comes once, every payload comes back exactly once. */
  lemma ExactlyOneAnswer(payloads: map<Id, string>, l: Limits, arrivals: seq<Arrival>, from: int, id: Id) returns (k: nat)
    requires Accepted(payloads, l) && AllFine(payloads, l, arrivals, from) && AllCame(payloads, arrivals, id)
    requires forall i, j :: 0 <= i < j < |arrivals| ==> arrivals[i].id != arrivals[j].id || arrivals[i].i != arrivals[j].i
    ensures k < |arrivals| && arrivals[k].id == id
    ensures forall j :: 0 <= j < |arrivals| && arrivals[j].id == id ==>
      AnswerTo(payloads, l, arrivals, from, j) == if j == k then Delivered(payloads[id]) else Incomplete
  {
    hide AnswerTo, Accepted, AllFine, AllCame;
    k := EveryPayloadComesBack(payloads, l, arrivals, from, id);
    forall j | 0 <= j < |arrivals| && j != k && arrivals[j].id == id
      ensures AnswerTo(payloads, l, arrivals, from, j) == Incomplete
    {
      assert arrivals[j].i != arrivals[k].i;
    }
  }
}
