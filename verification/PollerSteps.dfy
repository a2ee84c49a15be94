/** The work-queue poller of one node as atomic steps: every await of the source is a cut point,
    and a step is what runs, synchronously, between two of them. */
module PollerSteps {
  import opened Wrappers
  import opened Numbers

  type Id = nat
  type Token = nat

  // ---- Data --------------------------------------------------------------

  datatype Action = Complete | Fail | NeedsAttention
  datatype WorkResult = WorkResult(id: Id, token: Option<Token>, action: Action)

  datatype RunState = Active | Cancelled | Lost

  /** What a run is waiting for. */
  datatype Phase =
    | Claiming                    // the claim reply (after the preference delay)
    | Starting                    // the reply to the running transition
    | Announcing                  // the first evidence report
    | Executing                   // runItem
    | Settling(action: Action)    // an evidence report, then the result is recorded
    | Delivering                  // the reply to a result
    | Pausing                     // the pause before a result is sent again
    | Reserving                   // the reply to an attempt reservation
    | ReserveSleep                // the pause before a reservation is sent again
    | ReserveCheck                // the lease check after a rejected reservation
    | BackingOff                  // reports and the policy's delay before the next attempt

  /** calls and puts are history: the attempts given to runItem, the results recorded. */
  datatype Run = Run(serial: nat, state: RunState, token: Option<Token>, deadline: Option<int>, phase: Phase,
    start: nat, attempt: nat, limit: nat, calls: seq<nat>, puts: seq<WorkResult>)

  /** disk is the outbox file. flushing: what is left of the snapshot of the pass over the outbox, its
      head sent and not answered. waiting, fetches: the ticks that wait for the pass to end, and those
      that wait for their listing of the queue. finished is history. */
  datatype Node = Node(durable: bool, inFlight: map<Id, Run>, pending: map<Id, WorkResult>, disk: map<Id, WorkResult>,
    flushing: Option<seq<WorkResult>>, waiting: nat, fetches: nat, handingOff: set<Id>, keepHere: set<Id>,
    nextSerial: nat, finished: seq<(Id, Run)>)

  /** A queue listing entry, with the outcome of the two tests the loop makes on it. */
  datatype Listed = Listed(id: Id, eligible: bool, handOff: bool)

  // ---- Replies and choices of the environment ----------------------------

  datatype ClaimReply = Denied | Claimed(token: Option<Token>, expiry: Option<int>, attempt: int, maxAttempts: int)
  datatype AttemptReply = Granted(attempt: int) | Refused | Unavailable
  datatype LeaseReply = Renewed(expiry: Option<int>) | Revoked(cancelled: bool) | NoAnswer
  datatype Delivery = Acknowledged | LostClaim | Retry
  datatype Failure = FilterError | AdmissionError | RetryOrReroute | Park | GiveUp
  /** How the synchronous write of the outbox file ends: done, thrown before the rename took
      effect, or thrown after it. */
  datatype Write = Written | ThrewBefore | ThrewAfter

  // ---- Lease timer -------------------------------------------------------

  function MinReal(a: real, b: real): real {
    if a <= b then a else b
  }

  /** max(1, r - min(1000, r / 10)), in whole milliseconds. */
  function TimerDelay(remaining: int): int {
    Max(1, (remaining as real - MinReal(1000.0, remaining as real / 10.0)).Floor)
  }

  /** The timer never outlives the lease: it fires a second early, or a tenth of a shorter lease. */
  lemma TimerWithinLease(remaining: int)
    requires remaining >= 1
    ensures 1 <= TimerDelay(remaining) <= remaining
    ensures remaining >= 10000 ==> TimerDelay(remaining) == remaining - 1000
    ensures 2 <= remaining < 10000 ==> 10 * TimerDelay(remaining) <= 9 * remaining < 10 * TimerDelay(remaining) + 10
  {
    var r := remaining as real;
    assert r - MinReal(1000.0, r / 10.0) <= r;
  }

  function SetLeaseDeadline(run: Run, expiry: Option<int>, now: int): Run {
    if expiry.None? && run.token.None? then run
    else if expiry.None? || expiry.value - now <= 0 then Lose(run.(deadline := None))
    else run.(deadline := Some(now + TimerDelay(expiry.value - now)))
  }

  function Lose(run: Run): Run {
    if run.state != Active then run else run.(state := Lost)
  }

  /** maxAttempts of the item, 10 when absent or zero, within 1 .. 10. */
  function Limit(maxAttempts: int): (n: nat)
    ensures 1 <= n <= 10
  {
    Max(1, Min(10, if maxAttempts == 0 then 10 else maxAttempts))
  }

  // ---- The outbox --------------------------------------------------------

  function Save(n: Node, w: Write): Node {
    if n.durable && w != ThrewBefore then n.(disk := n.pending) else n
  }

  predicate Throws(n: Node, w: Write) {
    n.durable && w != Written
  }

  function Put(n: Node, r: WorkResult, w: Write): Node {
    Save(n.(pending := n.pending[r.id := r]), w)
  }

  /** The write after a removal is taken to succeed. */
  function Remove(n: Node, id: Id): Node {
    Save(n.(pending := n.pending - {id}), Written)
  }

  // ---- Steps of a run ----------------------------------------------------

  function Update(n: Node, id: Id, run: Run): Node {
    n.(inFlight := n.inFlight[id := run])
  }

  /** The finally clause of runOne. */
  function End(n: Node, id: Id, run: Run): Node {
    n.(inFlight := n.inFlight - {id}, finished := n.finished + [(id, run)])
  }

  /** finishWork up to the first reply; a failing put ends the run, the entry stays in memory. */
  function Finish(n: Node, id: Id, run: Run, action: Action, w: Write): Node {
    var r := WorkResult(id, run.token, action);
    var run' := run.(phase := Delivering, puts := run.puts + [r]);
    if Throws(n, w) then End(Put(n, r, w), id, run') else Update(Put(n, r, w), id, run')
  }

  function Execute(n: Node, id: Id, run: Run): Node {
    Update(n, id, run.(phase := Executing, calls := run.calls + [run.attempt]))
  }

  function Fresh(serial: nat): Run {
    Run(serial, Active, None, None, Claiming, 1, 1, 10, [], [])
  }

  /** One entry of the loop in tick. full: the concurrency cap is reached. */
  function Consider(n: Node, item: Listed, full: bool): Node {
    if item.id in n.inFlight || item.id in n.pending || item.id in n.handingOff then n
    else if item.handOff && item.id !in n.keepHere then n.(handingOff := n.handingOff + {item.id})
    else if !item.eligible || full then n
    else Update(n, item.id, Fresh(n.nextSerial)).(nextSerial := n.nextSerial + 1)
  }

  /** The loop of tick over one listing; max = 0 means no cap, and the cap ends the loop. */
  function Intake(n: Node, items: seq<Listed>, max: nat): Node
    decreases |items|
  {
    if items == [] then n
    else
      var item := items[0];
      var full := max > 0 && |n.inFlight| >= max;
      var n' := Consider(n, item, full);
      var stops := full && !(item.id in n.inFlight || item.id in n.pending || item.id in n.handingOff) &&
                   !(item.handOff && item.id !in n.keepHere) && item.eligible;
      if stops then n' else Intake(n', items[1..], max)
  }

  function HandedOff(n: Node, id: Id, handed: bool): Node {
    if id !in n.handingOff then n
    else n.(handingOff := n.handingOff - {id}, keepHere := if handed then n.keepHere else n.keepHere + {id})
  }

  /** A step of run `serial` of this item; anything else leaves the node alone. */
  predicate At(n: Node, id: Id, serial: nat, phase: Phase) {
    id in n.inFlight && n.inFlight[id].serial == serial && n.inFlight[id].phase == phase
  }

  function OnClaim(n: Node, id: Id, serial: nat, reply: ClaimReply, now: int): Node {
    if !At(n, id, serial, Claiming) then n
    else
      var run := n.inFlight[id];
      if reply.Denied? || run.state != Active then End(n, id, run)
      else
        var first := Max(1, reply.attempt);
        Update(n, id, SetLeaseDeadline(run.(token := reply.token, phase := Starting,
          start := first, attempt := first, limit := Limit(reply.maxAttempts)), reply.expiry, now))
  }

  function OnRunning(n: Node, id: Id, serial: nat, ok: bool): Node {
    if !At(n, id, serial, Starting) then n
    else
      var run := n.inFlight[id];
      if !ok || run.state != Active then End(n, id, run) else Update(n, id, run.(phase := Announcing))
  }

  /** The evidence report is answered and runWithPolicy begins. */
  function OnAnnounced(n: Node, id: Id, serial: nat): Node {
    if !At(n, id, serial, Announcing) then n
    else
      var run := n.inFlight[id];
      if run.state != Active then End(n, id, run) else Execute(n, id, run)
  }

  function OnReturn(n: Node, id: Id, serial: nat, w: Write): Node {
    if !At(n, id, serial, Executing) then n
    else
      var run := n.inFlight[id];
      if run.state != Active then End(n, id, run) else Finish(n, id, run, Complete, w)
  }

  function OnThrow(n: Node, id: Id, serial: nat, failure: Failure, w: Write): Node {
    if !At(n, id, serial, Executing) then n
    else
      var run := n.inFlight[id];
      if id in n.pending || run.state != Active then End(n, id, run)
      else match failure
        case FilterError | AdmissionError | Park => Update(n, id, run.(phase := Settling(NeedsAttention)))
        case RetryOrReroute =>
          if run.attempt >= run.limit then Update(n, id, run.(phase := Settling(NeedsAttention)))
          else if run.token.Some? then Update(n, id, run.(phase := Reserving))
          else Update(n, id, run.(phase := BackingOff, attempt := run.attempt + 1))
        case GiveUp => Finish(n, id, run, Fail, w)
  }

  function OnSettled(n: Node, id: Id, serial: nat, w: Write): Node {
    if !(id in n.inFlight && n.inFlight[id].serial == serial && n.inFlight[id].phase.Settling?) then n
    else
      var run := n.inFlight[id];
      if run.state != Active then End(n, id, run) else Finish(n, id, run, run.phase.action, w)
  }

  function OnAttempt(n: Node, id: Id, serial: nat, reply: AttemptReply): Node {
    if !At(n, id, serial, Reserving) then n
    else
      var run := n.inFlight[id];
      if reply.Refused? then Update(n, id, run.(phase := ReserveCheck))
      else if run.state != Active then End(n, id, run)
      else if reply.Granted? && reply.attempt == run.attempt + 1
      then Update(n, id, run.(phase := BackingOff, attempt := run.attempt + 1))
      else Update(n, id, run.(phase := ReserveSleep))
  }

  function OnReserveWake(n: Node, id: Id, serial: nat): Node {
    if !At(n, id, serial, ReserveSleep) then n
    else
      var run := n.inFlight[id];
      if run.state != Active then End(n, id, run) else Update(n, id, run.(phase := Reserving))
  }

  function OnReserveChecked(n: Node, id: Id, serial: nat, w: Write): Node {
    if !At(n, id, serial, ReserveCheck) then n
    else
      var run := n.inFlight[id];
      if run.state != Active then End(n, id, run) else Finish(n, id, run, NeedsAttention, w)
  }

  function OnBackedOff(n: Node, id: Id, serial: nat): Node {
    if !At(n, id, serial, BackingOff) then n
    else
      var run := n.inFlight[id];
      if run.state != Active then End(n, id, run) else Execute(n, id, run)
  }

  function OnDelivered(n: Node, id: Id, serial: nat, reply: Delivery): Node {
    if !At(n, id, serial, Delivering) then n
    else
      var run := n.inFlight[id];
      if !reply.Retry? then End(Remove(n, id), id, run)
      else if run.token.None? then End(n, id, run)
      else Update(n, id, run.(phase := Pausing))
  }

  function OnPauseOver(n: Node, id: Id, serial: nat): Node {
    if !At(n, id, serial, Pausing) then n
    else
      var run := n.inFlight[id];
      if run.state != Active then End(n, id, run) else Update(n, id, run.(phase := Delivering))
  }

  /** A heartbeat reply; one that belongs to an earlier run of the item is dropped. */
  function OnHeartbeat(n: Node, id: Id, serial: nat, reply: LeaseReply, now: int): Node {
    if !(id in n.inFlight && n.inFlight[id].serial == serial && n.inFlight[id].state == Active) then n
    else
      var run := n.inFlight[id];
      match reply
      case Renewed(expiry) => Update(n, id, SetLeaseDeadline(run, expiry, now))
      case Revoked(cancelled) => Update(n, id, run.(state := if cancelled then Cancelled else Lost))
      case NoAnswer => n
  }

  predicate Due(run: Run, now: int) {
    run.deadline.Some? && run.deadline.value <= now
  }

  function OnDeadline(n: Node, id: Id, now: int): Node {
    if !(id in n.inFlight && Due(n.inFlight[id], now)) then n
    else Update(n, id, Lose(n.inFlight[id].(deadline := None)))
  }

  // ---- Reconciling the outbox --------------------------------------------

  /** All entries once, in some order. */
  ghost predicate Snapshot(pending: map<Id, WorkResult>, s: seq<WorkResult>) {
    |s| == |pending| && (forall i :: 0 <= i < |s| ==> s[i].id in pending && pending[s[i].id] == s[i]) &&
    (forall i, j :: 0 <= i < j < |s| ==> s[i].id != s[j].id)
  }

  /** The pass goes on to the first entry that no run owns and sends it. When none is left the pass is
      over, and the ticks that waited for it fetch their listings. */
  function Advance(n: Node, queue: seq<WorkResult>): Node {
    if queue == [] then n.(flushing := None, fetches := n.fetches + n.waiting, waiting := 0)
    else if queue[0].id in n.inFlight then Advance(n, queue[1..])
    else n.(flushing := Some(queue))
  }

  /** A tick joins the pass in progress or begins one with a snapshot of the entries. */
  ghost function TickBegin(n: Node, snapshot: seq<WorkResult>): Node {
    if n.flushing.Some? then n.(waiting := n.waiting + 1)
    else if Snapshot(n.pending, snapshot) then Advance(n.(waiting := n.waiting + 1), snapshot)
    else n
  }

  /** The listing a tick waited for: its items, or none when the fetch failed. */
  function Fetched(n: Node, items: seq<Listed>, max: nat): Node {
    if n.fetches == 0 then n else Intake(n.(fetches := n.fetches - 1), items, max)
  }

  predicate Awaiting(n: Node, id: Id) {
    n.flushing.Some? && n.flushing.value != [] && n.flushing.value[0].id == id
  }

  function FlushReply(n: Node, id: Id, reply: Delivery): Node {
    if !Awaiting(n, id) then n
    else Advance(if reply.Retry? then n else Remove(n, id), n.flushing.value[1..])
  }

  /** The process dies and a new one reloads the file. */
  function Crash(n: Node): Node {
    Node(n.durable, map[], n.disk, n.disk, None, 0, 0, {}, {}, n.nextSerial, n.finished)
  }

  // ---- Events ------------------------------------------------------------

  datatype Event =
    | Listing(items: seq<Listed>, max: nat)
    | HandOffDone(id: Id, handed: bool)
    | ClaimAnswer(id: Id, serial: nat, claim: ClaimReply)
    | RunningAnswer(id: Id, serial: nat, ok: bool)
    | Announced(id: Id, serial: nat)
    | AgentReturned(id: Id, serial: nat, w: Write)
    | AgentThrew(id: Id, serial: nat, failure: Failure, w: Write)
    | Settled(id: Id, serial: nat, w: Write)
    | AttemptAnswer(id: Id, serial: nat, attempt: AttemptReply)
    | ReserveWake(id: Id, serial: nat)
    | ReserveChecked(id: Id, serial: nat, w: Write)
    | BackedOff(id: Id, serial: nat)
    | ResultAnswer(id: Id, serial: nat, reply: Delivery)
    | PauseOver(id: Id, serial: nat)
    | HeartbeatAnswer(id: Id, serial: nat, lease: LeaseReply)
    | DeadlineFired(id: Id)
    | TickStarted(snapshot: seq<WorkResult>)
    | FlushAnswer(id: Id, reply: Delivery)
    | Crashed

  ghost function Handle(n: Node, e: Event, now: int): Node {
    match e
    case Listing(items, max) => Fetched(n, items, max)
    case HandOffDone(id, handed) => HandedOff(n, id, handed)
    case ClaimAnswer(id, serial, claim) => OnClaim(n, id, serial, claim, now)
    case RunningAnswer(id, serial, ok) => OnRunning(n, id, serial, ok)
    case Announced(id, serial) => OnAnnounced(n, id, serial)
    case AgentReturned(id, serial, w) => OnReturn(n, id, serial, w)
    case AgentThrew(id, serial, failure, w) => OnThrow(n, id, serial, failure, w)
    case Settled(id, serial, w) => OnSettled(n, id, serial, w)
    case AttemptAnswer(id, serial, attempt) => OnAttempt(n, id, serial, attempt)
    case ReserveWake(id, serial) => OnReserveWake(n, id, serial)
    case ReserveChecked(id, serial, w) => OnReserveChecked(n, id, serial, w)
    case BackedOff(id, serial) => OnBackedOff(n, id, serial)
    case ResultAnswer(id, serial, reply) => OnDelivered(n, id, serial, reply)
    case PauseOver(id, serial) => OnPauseOver(n, id, serial)
    case HeartbeatAnswer(id, serial, lease) => OnHeartbeat(n, id, serial, lease, now)
    case DeadlineFired(id) => OnDeadline(n, id, now)
    case TickStarted(snapshot) => TickBegin(n, snapshot)
    case FlushAnswer(id, reply) => FlushReply(n, id, reply)
    case Crashed => Crash(n)
  }

  function Boot(durable: bool, disk: map<Id, WorkResult>): Node {
    Node(durable, map[], if durable then disk else map[], if durable then disk else map[], None, 0, 0, {}, {}, 0, [])
  }

  ghost function RunAll(n: Node, events: seq<(Event, int)>): Node {
    if events == [] then n
    else
      var last := events[|events| - 1];
      Handle(RunAll(n, events[..|events| - 1]), last.0, last.1)
  }
}
