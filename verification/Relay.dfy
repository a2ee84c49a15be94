/** Relay frames: a payload is cut into chunks, a receiver puts interleaved chunks of several
    payloads together again within memory limits. */
module Relay {
  import opened Wrappers
  import opened Numbers

  const FRAME_CHUNK_BYTES: nat := 192 * 1024
  const MAX_REASSEMBLY_BYTES: nat := 32 * 1024 * 1024
  const MAX_FRAME_CHUNKS: nat := 4096
  const MAX_TOMBSTONES: nat := 256

  type Id = string

  /** A message as received: p when it is a string, fc when present, fi and fn when integers. */
  datatype Envelope = Envelope(p: Option<string>, fc: Option<Id>, fi: Option<int>, fn: Option<int>)

  // ---- Cutting -----------------------------------------------------------

  function ChunkCount(len: nat): nat {
    (len + FRAME_CHUNK_BYTES - 1) / FRAME_CHUNK_BYTES
  }

  function Chunk(payload: string, i: nat): (c: string)
    requires i < ChunkCount(|payload|)
  {
    payload[i * FRAME_CHUNK_BYTES..Min((i + 1) * FRAME_CHUNK_BYTES, |payload|)]
  }

  function ChunkMessage(payload: string, id: Id, i: nat): Envelope
    requires i < ChunkCount(|payload|)
  {
    Envelope(Some(Chunk(payload, i)), Some(id), Some(i), Some(ChunkCount(|payload|)))
  }

  /** The wire messages of a payload: itself when it is short, its slices otherwise. */
  function Messages(payload: string, id: Id): (ms: seq<Envelope>)
    ensures |ms| == if |payload| <= FRAME_CHUNK_BYTES then 1 else ChunkCount(|payload|)
  {
    if |payload| <= FRAME_CHUNK_BYTES then [Envelope(Some(payload), None, None, None)]
    else seq(ChunkCount(|payload|), i requires 0 <= i < ChunkCount(|payload|) => ChunkMessage(payload, id, i))
  }

  /** None stands for the error thrown when the payload exceeds the receiver's limit. */
  method FrameMessages(payload: string, id: Id) returns (r: Option<seq<Envelope>>)
    ensures r == if |payload| > MAX_REASSEMBLY_BYTES then None else Some(Messages(payload, id))
  {
    if |payload| > MAX_REASSEMBLY_BYTES { return None; }
    if |payload| <= FRAME_CHUNK_BYTES { return Some([Envelope(Some(payload), None, None, None)]); }
    var total := ChunkCount(|payload|);
    var out := [];
    for i := 0 to total
      invariant |out| == i && forall k :: 0 <= k < i ==> out[k] == ChunkMessage(payload, id, k)
    {
      var slice := payload[i * FRAME_CHUNK_BYTES..Min((i + 1) * FRAME_CHUNK_BYTES, |payload|)];
      out := out + [Envelope(Some(slice), Some(id), Some(i), Some(total))];
    }
    assert out == Messages(payload, id);
    return Some(out);
  }

  /** Whatever the sender accepts passes the receiver's limits on chunk count and bytes. */
  lemma AcceptedFits(payload: string)
    requires FRAME_CHUNK_BYTES < |payload| <= MAX_REASSEMBLY_BYTES
    ensures 2 <= ChunkCount(|payload|) <= 171 <= MAX_FRAME_CHUNKS
    ensures forall i :: 0 <= i < ChunkCount(|payload|) ==> 0 < |Chunk(payload, i)| <= FRAME_CHUNK_BYTES
  {}

  // ---- State -------------------------------------------------------------

  datatype Group = Group(total: nat, parts: seq<Option<string>>, have: nat, bytes: nat)

  /** rejected keeps insertion order: the oldest tombstone is evicted first. */
  datatype State = State(groups: map<Id, Group>, rejected: seq<(Id, int)>, buffered: int)

  datatype Limits = Limits(maxGroups: nat, maxBytes: nat, timeoutMs: nat)

  datatype Reason = TooLarge | BadMetadata | CountChanged | TooManyGroups | TimedOut | MemoryLimit

  datatype Outcome = Incomplete | Rejected(reason: Reason) | Delivered(payload: string)

  const EMPTY := State(map[], [], 0)

  function Entombed(rejected: seq<(Id, int)>, id: Id): bool {
    exists k :: 0 <= k < |rejected| && rejected[k].0 == id
  }

  /** Tombstones that have expired are dropped at the start of accept. */
  function Alive(rejected: seq<(Id, int)>, now: int): (r: seq<(Id, int)>)
    ensures |r| <= |rejected|
  {
    if rejected == [] then []
    else
      var last := rejected[|rejected| - 1];
      Alive(rejected[..|rejected| - 1], now) + if last.1 <= now then [] else [last]
  }

  /** Map.set: an existing key keeps its place. */
  function SetTombstone(rejected: seq<(Id, int)>, id: Id, expiry: int): seq<(Id, int)> {
    if Entombed(rejected, id)
    then seq(|rejected|, k requires 0 <= k < |rejected| => if rejected[k].0 == id then (id, expiry) else rejected[k])
    else rejected + [(id, expiry)]
  }

  function Bury(rejected: seq<(Id, int)>, id: Id, expiry: int): seq<(Id, int)> {
    SetTombstone(if |rejected| >= MAX_TOMBSTONES then rejected[1..] else rejected, id, expiry)
  }

  function Remove(s: State, id: Id): State {
    if id in s.groups then s.(groups := s.groups - {id}, buffered := s.buffered - s.groups[id].bytes) else s
  }

  function Reject(s: State, l: Limits, id: Id, now: int): State {
    var s' := Remove(s, id);
    s'.(rejected := Bury(s'.rejected, id, now + l.timeoutMs))
  }

  function Join(parts: seq<Option<string>>): string {
    if parts == [] then ""
    else
      var last := parts[|parts| - 1];
      Join(parts[..|parts| - 1]) + if last.Some? then last.value else ""
  }

  function NewGroup(n: nat): Group {
    Group(n, seq(n, _ => None), 0, 0)
  }

  predicate GoodMetadata(fi: Option<int>, fn: Option<int>) {
    fi.Some? && fn.Some? && 0 < fn.value <= MAX_FRAME_CHUNKS && 0 <= fi.value < fn.value
  }

  function Fill(g: Group, i: nat, p: string): Group
    requires i < |g.parts|
  {
    g.(parts := g.parts[i := Some(p)], have := g.have + 1, bytes := g.bytes + |p|)
  }

  /** A part for an open group. */
  function Store(s: State, l: Limits, id: Id, i: nat, p: string, now: int): (State, Outcome)
    requires id in s.groups && i < |s.groups[id].parts|
  {
    var g := s.groups[id];
    if g.parts[i].Some? then (s, Incomplete)
    else if s.buffered + |p| > l.maxBytes then (Reject(s, l, id, now), Rejected(MemoryLimit))
    else
      var g' := Fill(g, i, p);
      var s' := s.(groups := s.groups[id := g'], buffered := s.buffered + |p|);
      if g'.have < g'.total then (s', Incomplete)
      else
        var done := Remove(s', id);
        (done.(rejected := Bury(done.rejected, id, now + l.timeoutMs)), Delivered(Join(g'.parts)))
  }

  /** The partsOk of a state: every group has as many slots as its count says. */
  predicate Shaped(s: State) {
    forall id :: id in s.groups ==> |s.groups[id].parts| == s.groups[id].total
  }

  function Accept(s0: State, l: Limits, env: Envelope, now: int): (State, Outcome)
    requires Shaped(s0)
  {
    var s := s0.(rejected := Alive(s0.rejected, now));
    if env.p.None? then (s, Incomplete)
    else if env.fc.None? then
      if |env.p.value| <= l.maxBytes then (s, Delivered(env.p.value))
      else (Reject(s, l, "unchunked", now), Rejected(TooLarge))
    else
      var id := env.fc.value;
      if Entombed(s.rejected, id) then (s, Incomplete)
      else if !GoodMetadata(env.fi, env.fn) then (Reject(s, l, id, now), Rejected(BadMetadata))
      else if id in s.groups && s.groups[id].total != env.fn.value then (Reject(s, l, id, now), Rejected(CountChanged))
      else if id !in s.groups && |s.groups| >= l.maxGroups then (Reject(s, l, id, now), Rejected(TooManyGroups))
      else
        var open := if id in s.groups then s else s.(groups := s.groups[id := NewGroup(env.fn.value)]);
        Store(open, l, id, env.fi.value, env.p.value, now)
  }

  /** The timer of an open group. */
  function Timeout(s: State, l: Limits, id: Id, now: int): (State, Outcome) {
    if id in s.groups then (Reject(s, l, id, now), Rejected(TimedOut)) else (s, Incomplete)
  }
}
