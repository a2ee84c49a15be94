/** What every run of one poller keeps: results are recorded once, attempts are counted one by
    one, and an item with a recorded result is not run again. */
module PollerSafety {
  import opened Wrappers
  import opened Numbers
  import opened PollerSteps

  // ---- The invariant -----------------------------------------------------

  function Attempts(start: nat, n: nat): (s: seq<nat>)
    ensures |s| == n
  {
    seq(n, i requires 0 <= i < n => start + i)
  }

  /** Attempts are numbered without gaps and bounded by the item's limit. */
  ghost predicate Counted(run: Run) {
    run.calls == Attempts(run.start, |run.calls|) &&
    |run.calls| <= Max(1, run.limit - run.start + 1) &&
    |run.puts| <= 1
  }

  predicate Recorded(run: Run) {
    run.phase.Delivering? || run.phase.Pausing?
  }

  ghost predicate RunOk(n: Node, id: Id, run: Run) {
    Counted(run) && run.serial < n.nextSerial &&
    (if Recorded(run) then |run.puts| == 1 else run.puts == [] && id !in n.pending) &&
    (match run.phase
     case Claiming => run.calls == [] && run.token.None?
     case Starting | Announcing => run.calls == [] && run.attempt == run.start
     case BackingOff => 0 < |run.calls| && run.attempt == run.start + |run.calls| && run.attempt <= run.limit
     case Delivering | Pausing => true
     case _ => 0 < |run.calls| && run.attempt == run.start + |run.calls| - 1 && (|run.calls| == 1 || run.attempt <= run.limit)) &&
    (run.phase.Reserving? || run.phase.ReserveSleep? || run.phase.ReserveCheck? ==> run.attempt < run.limit)
  }

  ghost predicate OutboxOk(n: Node) {
    (!n.durable ==> n.disk == map[]) &&
    (forall id :: id in n.pending ==> n.pending[id].id == id) &&
    (forall id :: id in n.disk ==> id in n.pending && n.disk[id] == n.pending[id])
  }

  ghost predicate Inv(n: Node) {
    OutboxOk(n) &&
    (forall id :: id in n.inFlight ==> RunOk(n, id, n.inFlight[id])) &&
    (forall k :: 0 <= k < |n.finished| ==> Counted(n.finished[k].1))
  }

  // ---- One step at a time ------------------------------------------------

  lemma UpdateOk(n: Node, id: Id, run: Run)
    requires Inv(n) && RunOk(n, id, run)
    ensures Inv(Update(n, id, run))
  {
    hide Counted;
  }

  lemma EndOk(n: Node, id: Id, run: Run)
    requires Inv(n) && Counted(run)
    ensures Inv(End(n, id, run))
  {
    hide Counted;
  }

  lemma RemoveOk(n: Node, id: Id)
    requires Inv(n)
    ensures Inv(Remove(n, id))
  {
    hide Counted;
  }

  lemma FinishOk(n: Node, id: Id, run: Run, action: Action, w: Write)
    requires Inv(n) && id in n.inFlight && n.inFlight[id] == run && !Recorded(run)
    ensures Inv(Finish(n, id, run, action, w))
  {
    var r := WorkResult(id, run.token, action);
    var run' := run.(phase := Delivering, puts := run.puts + [r]);
    var n' := Put(n, r, w);
    assert OutboxOk(n') by { hide RunOk; }
    assert RunOk(n', id, run');
    forall k | k in n.inFlight && k != id ensures RunOk(n', k, n'.inFlight[k]) {
      SamePending(n, n', k, n.inFlight[k]);
    }
    hide RunOk, OutboxOk, Counted;
    assert Counted(run') by { Revealed(n', id, run'); }
  }

  lemma Revealed(n: Node, id: Id, run: Run)
    requires RunOk(n, id, run)
    ensures Counted(run)
  {
    hide Counted;
  }

  lemma SamePending(n: Node, n': Node, id: Id, run: Run)
    requires RunOk(n, id, run) && n'.nextSerial >= n.nextSerial
    requires id in n'.pending ==> id in n.pending
    ensures RunOk(n', id, run)
  {
    hide Counted;
  }

  /** The next call has the number after the last one, and there is room for it. */
  lemma ExecuteOk(n: Node, id: Id, run: Run)
    requires Inv(n) && id in n.inFlight && n.inFlight[id] == run
    requires run.phase.Announcing? || run.phase.BackingOff?
    ensures Inv(Execute(n, id, run))
  {
    var run' := run.(phase := Executing, calls := run.calls + [run.attempt]);
    assert run'.calls == Attempts(run.start, |run'.calls|);
    assert RunOk(n, id, run');
    UpdateOk(n, id, run');
  }

  lemma ConsiderOk(n: Node, item: Listed, full: bool)
    requires Inv(n)
    ensures Inv(Consider(n, item, full))
  {
    hide Counted;
    var run, n' := Fresh(n.nextSerial), n.(nextSerial := n.nextSerial + 1);
    assert Counted(run) by { FreshCounted(n.nextSerial); }
    forall k | k in n.inFlight ensures RunOk(n', k, n.inFlight[k]) {
      SamePending(n, n', k, n.inFlight[k]);
    }
    assert Inv(n');
    if item.id !in n.pending { UpdateOk(n', item.id, run); }
    hide RunOk;
  }

  lemma FreshCounted(serial: nat)
    ensures Counted(Fresh(serial))
  {}

  lemma {:induction false} IntakeOk(n: Node, items: seq<Listed>, max: nat)
    requires Inv(n)
    ensures Inv(Intake(n, items, max))
    decreases |items|
  {
    hide Inv, Consider;
    if items != [] {
      var full := max > 0 && |n.inFlight| >= max;
      ConsiderOk(n, items[0], full);
      IntakeOk(Consider(n, items[0], full), items[1..], max);
    }
  }

  lemma ClaimOk(n: Node, id: Id, serial: nat, reply: ClaimReply, now: int)
    requires Inv(n)
    ensures Inv(OnClaim(n, id, serial, reply, now))
  {
    if At(n, id, serial, Claiming) {
      var run := n.inFlight[id];
      if reply.Denied? || run.state != Active {
        EndOk(n, id, run);
      } else {
        var first := Max(1, reply.attempt);
        var run' := SetLeaseDeadline(run.(token := reply.token, phase := Starting,
          start := first, attempt := first, limit := Limit(reply.maxAttempts)), reply.expiry, now);
        assert run'.calls == [] == Attempts(first, 0);
        UpdateOk(n, id, run');
      }
    }
  }

  lemma ThrowOk(n: Node, id: Id, serial: nat, failure: Failure, w: Write)
    requires Inv(n)
    ensures Inv(OnThrow(n, id, serial, failure, w))
  {
    if At(n, id, serial, Executing) {
      var run := n.inFlight[id];
      if run.state != Active {
        EndOk(n, id, run);
      } else if failure.GiveUp? {
        FinishOk(n, id, run, Fail, w);
      } else {
        hide Inv;
        OnThrowRuns(n, id, run, failure);
        if !failure.RetryOrReroute? || run.attempt >= run.limit {
          UpdateOk(n, id, run.(phase := Settling(NeedsAttention)));
        } else if run.token.Some? {
          UpdateOk(n, id, run.(phase := Reserving));
        } else {
          UpdateOk(n, id, run.(phase := BackingOff, attempt := run.attempt + 1));
        }
      }
    }
  }

  lemma OnThrowRuns(n: Node, id: Id, run: Run, failure: Failure)
    requires RunOk(n, id, run) && run.phase == Executing
    ensures RunOk(n, id, run.(phase := Settling(NeedsAttention)))
    ensures run.attempt < run.limit ==> RunOk(n, id, run.(phase := Reserving))
    ensures run.attempt < run.limit ==> RunOk(n, id, run.(phase := BackingOff, attempt := run.attempt + 1))
  {}

  lemma ReservePhases(n: Node, id: Id, run: Run)
    requires RunOk(n, id, run)
    ensures run.phase.Reserving? ==> RunOk(n, id, run.(phase := ReserveCheck)) && RunOk(n, id, run.(phase := ReserveSleep))
    ensures run.phase.Reserving? ==> RunOk(n, id, run.(phase := BackingOff, attempt := run.attempt + 1))
    ensures run.phase.ReserveSleep? ==> RunOk(n, id, run.(phase := Reserving))
  {}

  lemma AttemptOk(n: Node, id: Id, serial: nat, reply: AttemptReply)
    requires Inv(n)
    ensures Inv(OnAttempt(n, id, serial, reply))
  {
    if At(n, id, serial, Reserving) {
      var run := n.inFlight[id];
      ReservePhases(n, id, run);
      Revealed(n, id, run);
      hide Inv, RunOk, Counted;
      if reply.Refused? {
        UpdateOk(n, id, run.(phase := ReserveCheck));
      } else if run.state != Active {
        EndOk(n, id, run);
      } else if reply.Granted? && reply.attempt == run.attempt + 1 {
        UpdateOk(n, id, run.(phase := BackingOff, attempt := run.attempt + 1));
      } else {
        UpdateOk(n, id, run.(phase := ReserveSleep));
      }
    }
  }

  lemma WakeOk(n: Node, id: Id, serial: nat)
    requires Inv(n)
    ensures Inv(OnReserveWake(n, id, serial))
  {
    if At(n, id, serial, ReserveSleep) {
      var run := n.inFlight[id];
      ReservePhases(n, id, run);
      Revealed(n, id, run);
      hide Inv, RunOk, Counted;
      EndOk(n, id, run);
      UpdateOk(n, id, run.(phase := Reserving));
    }
  }

  lemma DeliveryOk(n: Node, id: Id, serial: nat, reply: Delivery)
    requires Inv(n)
    ensures Inv(OnDelivered(n, id, serial, reply))
    ensures Inv(OnPauseOver(n, id, serial))
  {
    if id in n.inFlight && Recorded(n.inFlight[id]) {
      var run := n.inFlight[id];
      RemoveOk(n, id);
      EndOk(n, id, run);
      EndOk(Remove(n, id), id, run);
      assert RunOk(n, id, run.(phase := Pausing));
      assert RunOk(n, id, run.(phase := Delivering));
      hide Inv, RunOk;
      UpdateOk(n, id, run.(phase := Pausing));
      UpdateOk(n, id, run.(phase := Delivering));
    }
  }

  /** The state, token and deadline of a run are free to change: nothing counted depends on them. */
  lemma LeaseFieldsFree(n: Node, id: Id, run: Run, run': Run)
    requires RunOk(n, id, run)
    requires run' == run.(state := run'.state, deadline := run'.deadline)
    ensures RunOk(n, id, run')
  {}

  lemma LeaseOk(n: Node, id: Id, serial: nat, reply: LeaseReply, now: int)
    requires Inv(n)
    ensures Inv(OnHeartbeat(n, id, serial, reply, now))
    ensures Inv(OnDeadline(n, id, now))
  {
    if id in n.inFlight {
      var run := n.inFlight[id];
      var n1, n2 := OnHeartbeat(n, id, serial, reply, now), OnDeadline(n, id, now);
      if n1 != n {
        LeaseFieldsFree(n, id, run, n1.inFlight[id]);
        UpdateOk(n, id, n1.inFlight[id]);
      }
      if n2 != n {
        LeaseFieldsFree(n, id, run, n2.inFlight[id]);
        UpdateOk(n, id, n2.inFlight[id]);
      }
    }
  }

  lemma BeginOk(n: Node, id: Id, serial: nat, ok: bool)
    requires Inv(n)
    ensures Inv(OnRunning(n, id, serial, ok)) && Inv(OnAnnounced(n, id, serial)) && Inv(OnBackedOff(n, id, serial))
  {
    if id in n.inFlight {
      var run := n.inFlight[id];
      EndOk(n, id, run);
      if run.phase == Starting { AnnouncingOk(n, id, run); }
      hide Inv, RunOk, Counted;
      if run.phase == Starting { UpdateOk(n, id, run.(phase := Announcing)); }
      if run.phase == Announcing || run.phase == BackingOff { ExecuteOk(n, id, run); }
    }
  }

  lemma AnnouncingOk(n: Node, id: Id, run: Run)
    requires RunOk(n, id, run) && run.phase == Starting
    ensures RunOk(n, id, run.(phase := Announcing))
  {}

  lemma RecordOk(n: Node, id: Id, serial: nat, w: Write)
    requires Inv(n)
    ensures Inv(OnReturn(n, id, serial, w)) && Inv(OnSettled(n, id, serial, w)) && Inv(OnReserveChecked(n, id, serial, w))
  {
    if id in n.inFlight && !Recorded(n.inFlight[id]) {
      var run := n.inFlight[id];
      EndOk(n, id, run);
      hide Inv, RunOk, Counted;
      if run.phase == Executing { FinishOk(n, id, run, Complete, w); }
      if run.phase == ReserveCheck { FinishOk(n, id, run, NeedsAttention, w); }
      if run.phase.Settling? { FinishOk(n, id, run, run.phase.action, w); }
    }
  }

  /** Neither the flush pass and its ticks nor the handoff sets are part of the invariant. */
  lemma BookkeepingFree(n: Node, n': Node)
    requires Inv(n) && SameWork(n, n')
    ensures Inv(n')
  {
    hide Counted;
    forall k | k in n.inFlight ensures RunOk(n', k, n.inFlight[k]) {
      SamePending(n, n', k, n.inFlight[k]);
    }
    hide RunOk;
  }

  predicate SameWork(n: Node, n': Node) {
    n' == n.(flushing := n'.flushing, waiting := n'.waiting, fetches := n'.fetches, handingOff := n'.handingOff,
             keepHere := n'.keepHere)
  }

  lemma {:induction false} AdvanceSame(n: Node, queue: seq<WorkResult>)
    ensures SameWork(n, Advance(n, queue))
  {
    if queue != [] && queue[0].id in n.inFlight {
      AdvanceSame(n, queue[1..]);
    }
  }

  lemma TickSame(n: Node, snapshot: seq<WorkResult>)
    ensures SameWork(n, TickBegin(n, snapshot))
  {
    AdvanceSame(n.(waiting := n.waiting + 1), snapshot);
  }

  lemma FlushOk(n: Node, snapshot: seq<WorkResult>, id: Id, reply: Delivery, handed: bool)
    requires Inv(n)
    ensures Inv(TickBegin(n, snapshot)) && Inv(FlushReply(n, id, reply)) && Inv(HandedOff(n, id, handed))
  {
    hide Inv, TickBegin, Advance;
    TickSame(n, snapshot);
    BookkeepingFree(n, TickBegin(n, snapshot));
    BookkeepingFree(n, HandedOff(n, id, handed));
    if Awaiting(n, id) {
      RemoveOk(n, id);
      var n' := if reply.Retry? then n else Remove(n, id);
      AdvanceSame(n', n.flushing.value[1..]);
      BookkeepingFree(n', FlushReply(n, id, reply));
    }
  }

  lemma FetchedOk(n: Node, items: seq<Listed>, max: nat)
    requires Inv(n)
    ensures Inv(Fetched(n, items, max))
  {
    hide Inv, Intake;
    if n.fetches > 0 {
      var n' := n.(fetches := n.fetches - 1);
      BookkeepingFree(n, n');
      IntakeOk(n', items, max);
    }
  }

  lemma CrashOk(n: Node)
    requires Inv(n)
    ensures Inv(Crash(n))
  {
    hide Counted, RunOk;
  }

  lemma HandleOk(n: Node, e: Event, now: int)
    requires Inv(n)
    ensures Inv(Handle(n, e, now))
  {
    hide Inv, Fetched, HandedOff, OnClaim, OnRunning, OnAnnounced, OnReturn, OnThrow, OnSettled, OnAttempt, OnReserveWake,
      OnReserveChecked, OnBackedOff, OnDelivered, OnPauseOver, OnHeartbeat, OnDeadline, TickBegin, FlushReply, Crash;
    match e
    case Listing(items, max) => FetchedOk(n, items, max);
    case HandOffDone(id, handed) => FlushOk(n, [], id, Retry, handed);
    case ClaimAnswer(id, serial, claim) => ClaimOk(n, id, serial, claim, now);
    case RunningAnswer(id, serial, ok) => BeginOk(n, id, serial, ok);
    case Announced(id, serial) => BeginOk(n, id, serial, true);
    case AgentReturned(id, serial, w) => RecordOk(n, id, serial, w);
    case AgentThrew(id, serial, failure, w) => ThrowOk(n, id, serial, failure, w);
    case Settled(id, serial, w) => RecordOk(n, id, serial, w);
    case AttemptAnswer(id, serial, attempt) => AttemptOk(n, id, serial, attempt);
    case ReserveWake(id, serial) => WakeOk(n, id, serial);
    case ReserveChecked(id, serial, w) => RecordOk(n, id, serial, w);
    case BackedOff(id, serial) => BeginOk(n, id, serial, true);
    case ResultAnswer(id, serial, reply) => DeliveryOk(n, id, serial, reply);
    case PauseOver(id, serial) => DeliveryOk(n, id, serial, Retry);
    case HeartbeatAnswer(id, serial, lease) => LeaseOk(n, id, serial, lease, now);
    case DeadlineFired(id) => LeaseOk(n, id, 0, NoAnswer, now);
    case TickStarted(snapshot) => FlushOk(n, snapshot, 0, Retry, true);
    case FlushAnswer(id, reply) => FlushOk(n, [], id, reply, true);
    case Crashed => CrashOk(n);
  }

  // ---- Every run of a poller ---------------------------------------------

  ghost predicate GoodFile(disk: map<Id, WorkResult>) {
    forall id :: id in disk ==> disk[id].id == id
  }

  lemma {:induction false} AllOk(n: Node, events: seq<(Event, int)>)
    requires Inv(n)
    ensures Inv(RunAll(n, events))
  {
    hide Inv, Handle;
    if events != [] {
      AllOk(n, events[..|events| - 1]);
      HandleOk(RunAll(n, events[..|events| - 1]), events[|events| - 1].0, events[|events| - 1].1);
    }
  }

  lemma BootOk(durable: bool, disk: map<Id, WorkResult>)
    requires GoodFile(disk)
    ensures Inv(Boot(durable, disk))
  {}

  ghost predicate Ever(n: Node, id: Id, run: Run) {
    (id in n.inFlight && n.inFlight[id] == run) || (id, run) in n.finished
  }

  /** Whatever happens, in any order: a run calls runItem with attempts start, start+1, ... and at
      most max(1, limit - start + 1) times, and records at most one result. */
  lemma RunHistory(durable: bool, disk: map<Id, WorkResult>, events: seq<(Event, int)>, id: Id, run: Run)
    requires GoodFile(disk)
    requires Ever(RunAll(Boot(durable, disk), events), id, run)
    ensures forall k :: 0 <= k < |run.calls| ==> run.calls[k] == run.start + k
    ensures |run.calls| <= Max(1, run.limit - run.start + 1)
    ensures |run.puts| <= 1
  {
    BootOk(durable, disk);
    AllOk(Boot(durable, disk), events);
    var n := RunAll(Boot(durable, disk), events);
    hide Counted;
    assert Counted(run) by {
      if id in n.inFlight && n.inFlight[id] == run { Revealed(n, id, run); }
    }
    Means(run);
  }

  lemma Means(run: Run)
    requires Counted(run)
    ensures forall k :: 0 <= k < |run.calls| ==> run.calls[k] == run.start + k
    ensures |run.calls| <= Max(1, run.limit - run.start + 1)
    ensures |run.puts| <= 1
  {}

  /** runItem is entered for this item in the step from n to n'. */
  predicate Called(n: Node, n': Node, id: Id) {
    id in n'.inFlight && n'.inFlight[id].phase == Executing && !(id in n.inFlight && n.inFlight[id].phase == Executing)
  }

  /** Taking items in changes no outbox and no existing run; a new run has no kept result. */
  ghost predicate OnlyAdds(n: Node, n': Node) {
    n'.pending == n.pending && n'.disk == n.disk && n'.durable == n.durable &&
    (forall id :: id in n.inFlight ==> id in n'.inFlight && n'.inFlight[id] == n.inFlight[id]) &&
    (forall id :: id in n'.inFlight && id !in n.inFlight ==>
       id !in n.pending && n'.inFlight[id].phase == Claiming && n'.inFlight[id].token.None?)
  }

  lemma ConsiderOnlyAdds(n: Node, item: Listed, full: bool)
    ensures OnlyAdds(n, Consider(n, item, full))
  {}

  lemma {:induction false} IntakeOnlyAdds(n: Node, items: seq<Listed>, max: nat)
    ensures OnlyAdds(n, Intake(n, items, max))
    decreases |items|
  {
    hide Consider;
    if items != [] {
      var n1 := Consider(n, items[0], max > 0 && |n.inFlight| >= max);
      ConsiderOnlyAdds(n, items[0], max > 0 && |n.inFlight| >= max);
      IntakeOnlyAdds(n1, items[1..], max);
    }
  }

  /** The control plane answered ok, 404 or 409 to a result of this item. */
  predicate Answers(e: Event, id: Id) {
    (e.ResultAnswer? && e.id == id && !e.reply.Retry?) || (e.FlushAnswer? && e.id == id && !e.reply.Retry?)
  }

  predicate SameRun(n: Node, n': Node, id: Id) {
    id in n.inFlight && id in n'.inFlight && n.inFlight[id].serial == n'.inFlight[id].serial
  }

  /** What a step may do to one item. */
  ghost predicate StepFacts(n: Node, n': Node, id: Id, answered: bool, renewed: bool) {
    // runItem is only entered by an active run, and never while a result of the item is kept
    (Called(n, n', id) ==> id in n.inFlight && n.inFlight[id].state == Active && id !in n.pending && id !in n.disk) &&
    // a result is recorded only by an active run, with its claim token
    (id in n'.pending && !(id in n.pending && n.pending[id] == n'.pending[id]) ==>
       id in n.inFlight && n.inFlight[id].state == Active && n'.pending[id].token == n.inFlight[id].token) &&
    // once lost or cancelled, a run stays so
    (SameRun(n, n', id) && n.inFlight[id].state != Active ==> n'.inFlight[id].state == n.inFlight[id].state) &&
    // an entry goes away only when answered
    (id in n.pending && id !in n'.pending ==> answered) &&
    (id in n.disk && id !in n'.disk ==> answered) &&
    // no run of an item begins while a result of it is kept
    (id in n'.inFlight ==> id in n.inFlight || id !in n.pending) &&
    // only a confirmed claim or renewal moves a deadline, or makes a claimed run
    (Holds(n', id) && !renewed ==> Holds(n, id) && SameLease(n.inFlight[id], n'.inFlight[id]))
  }

  /** This node holds an active run of the item, with a confirmed claim token. */
  predicate Holds(n: Node, id: Id) {
    id in n.inFlight && n.inFlight[id].state == Active && n.inFlight[id].token.Some?
  }

  predicate SameLease(a: Run, b: Run) {
    a.serial == b.serial && a.token == b.token && a.deadline == b.deadline
  }

  lemma FactsUpdate(n: Node, at: Id, run: Run, id: Id, renewed: bool)
    requires at in n.inFlight && run.serial == n.inFlight[at].serial
    requires n.inFlight[at].state != Active ==> run.state == n.inFlight[at].state
    requires run.phase == Executing ==> n.inFlight[at].phase == Executing
    requires SameLease(n.inFlight[at], run) || run.state != Active || renewed || run.token.None?
    ensures StepFacts(n, Update(n, at, run), id, false, at == id && renewed)
  {}

  lemma FactsEnd(n: Node, at: Id, run: Run, id: Id)
    ensures StepFacts(n, End(n, at, run), id, false, false) && StepFacts(n, End(n, at, run), id, false, true)
  {}

  lemma FactsExecute(n: Node, at: Id, run: Run, id: Id)
    requires Inv(n) && at in n.inFlight && n.inFlight[at] == run
    requires run.phase.Announcing? || run.phase.BackingOff?
    requires run.state == Active
    ensures StepFacts(n, Execute(n, at, run), id, false, false)
  {
    hide Counted;
  }

  lemma FactsFinish(n: Node, at: Id, run: Run, action: Action, w: Write, id: Id)
    requires Inv(n) && at in n.inFlight && n.inFlight[at] == run
    requires run.state == Active
    ensures StepFacts(n, Finish(n, at, run, action, w), id, false, false)
  {
    hide RunOk;
  }

  lemma FactsClaim(n: Node, at: Id, serial: nat, reply: ClaimReply, now: int, id: Id)
    ensures StepFacts(n, OnClaim(n, at, serial, reply, now), id, false, at == id && reply.Claimed? && reply.token.Some?)
  {
    hide StepFacts;
    var n' := OnClaim(n, at, serial, reply, now);
    if At(n, at, serial, Claiming) {
      FactsEnd(n, at, n.inFlight[at], id);
      if at in n'.inFlight { FactsUpdate(n, at, n'.inFlight[at], id, reply.Claimed? && reply.token.Some?); }
    } else {
      FactsSame(n, id);
    }
  }

  lemma FactsSame(n: Node, id: Id)
    ensures StepFacts(n, n, id, false, false) && StepFacts(n, n, id, false, true)
  {}

  lemma FactsSimple(n: Node, at: Id, serial: nat, ok: bool, w: Write, id: Id)
    requires Inv(n)
    ensures StepFacts(n, OnRunning(n, at, serial, ok), id, false, false)
    ensures StepFacts(n, OnAnnounced(n, at, serial), id, false, false)
    ensures StepFacts(n, OnBackedOff(n, at, serial), id, false, false)
    ensures StepFacts(n, OnReturn(n, at, serial, w), id, false, false)
    ensures StepFacts(n, OnSettled(n, at, serial, w), id, false, false)
    ensures StepFacts(n, OnReserveChecked(n, at, serial, w), id, false, false)
  {
    hide StepFacts, Inv, Finish, Execute;
    FactsSame(n, id);
    if at in n.inFlight {
      var run := n.inFlight[at];
      FactsEnd(n, at, run, id);
      FactsUpdate(n, at, run.(phase := Announcing), id, false);
      if run.state == Active {
        if run.phase.Announcing? || run.phase.BackingOff? { FactsExecute(n, at, run, id); }
        FactsFinish(n, at, run, Complete, w, id);
        FactsFinish(n, at, run, NeedsAttention, w, id);
        if run.phase.Settling? { FactsFinish(n, at, run, run.phase.action, w, id); }
      }
    }
  }

  lemma FactsThrow(n: Node, at: Id, serial: nat, failure: Failure, w: Write, id: Id)
    requires Inv(n)
    ensures StepFacts(n, OnThrow(n, at, serial, failure, w), id, false, false)
  {
    hide StepFacts, Inv, Finish;
    FactsSame(n, id);
    if at in n.inFlight {
      var run := n.inFlight[at];
      FactsEnd(n, at, run, id);
      FactsUpdate(n, at, run.(phase := Settling(NeedsAttention)), id, false);
      FactsUpdate(n, at, run.(phase := Reserving), id, false);
      FactsUpdate(n, at, run.(phase := BackingOff, attempt := run.attempt + 1), id, false);
      if run.state == Active { FactsFinish(n, at, run, Fail, w, id); }
    }
  }

  lemma FactsReserve(n: Node, at: Id, serial: nat, reply: AttemptReply, id: Id)
    ensures StepFacts(n, OnAttempt(n, at, serial, reply), id, false, false)
    ensures StepFacts(n, OnReserveWake(n, at, serial), id, false, false)
    ensures StepFacts(n, OnPauseOver(n, at, serial), id, false, false)
  {
    hide StepFacts;
    FactsSame(n, id);
    if at in n.inFlight {
      var run := n.inFlight[at];
      FactsEnd(n, at, run, id);
      FactsUpdate(n, at, run.(phase := ReserveCheck), id, false);
      FactsUpdate(n, at, run.(phase := ReserveSleep), id, false);
      FactsUpdate(n, at, run.(phase := Reserving), id, false);
      FactsUpdate(n, at, run.(phase := Delivering), id, false);
      FactsUpdate(n, at, run.(phase := BackingOff, attempt := run.attempt + 1), id, false);
    }
  }

  lemma FactsDelivered(n: Node, at: Id, serial: nat, reply: Delivery, id: Id)
    requires Inv(n)
    ensures StepFacts(n, OnDelivered(n, at, serial, reply), id, at == id && !reply.Retry?, false)
  {
    hide RunOk;
  }

  lemma FactsLease(n: Node, at: Id, serial: nat, reply: LeaseReply, now: int, id: Id)
    ensures StepFacts(n, OnHeartbeat(n, at, serial, reply, now), id, false, at == id && Renews(n, at, reply))
    ensures StepFacts(n, OnDeadline(n, at, now), id, false, false)
  {
    hide StepFacts;
    FactsSame(n, id);
    if at in n.inFlight {
      var n1, n2 := OnHeartbeat(n, at, serial, reply, now), OnDeadline(n, at, now);
      FactsUpdate(n, at, n1.inFlight[at], id, Renews(n, at, reply));
      FactsUpdate(n, at, n2.inFlight[at], id, false);
    }
  }

  lemma FactsBookkeeping(n: Node, n': Node, id: Id)
    requires SameWork(n, n')
    ensures StepFacts(n, n', id, false, false)
  {}

  lemma FactsRemove(n: Node, n': Node, at: Id, id: Id)
    requires Inv(n) && SameWork(Remove(n, at), n')
    ensures StepFacts(n, n', id, at == id, false)
  {
    hide RunOk;
  }

  lemma FactsFlush(n: Node, snapshot: seq<WorkResult>, at: Id, reply: Delivery, handed: bool, id: Id)
    requires Inv(n)
    ensures StepFacts(n, TickBegin(n, snapshot), id, false, false) && StepFacts(n, HandedOff(n, at, handed), id, false, false)
    ensures StepFacts(n, FlushReply(n, at, reply), id, at == id && !reply.Retry?, false)
  {
    hide Inv, StepFacts, Remove, TickBegin, Advance, SameWork;
    TickSame(n, snapshot);
    FactsBookkeeping(n, TickBegin(n, snapshot), id);
    HandOffSame(n, at, handed);
    FactsBookkeeping(n, HandedOff(n, at, handed), id);
    FactsSame(n, id);
    FactsSameAnswered(n, id);
    if Awaiting(n, at) {
      var n' := if reply.Retry? then n else Remove(n, at);
      AdvanceSame(n', n.flushing.value[1..]);
      if reply.Retry? {
        FactsBookkeeping(n, FlushReply(n, at, reply), id);
      } else {
        FactsRemove(n, FlushReply(n, at, reply), at, id);
      }
    }
  }

  lemma HandOffSame(n: Node, id: Id, handed: bool)
    ensures SameWork(n, HandedOff(n, id, handed))
  {}

  lemma FactsSameAnswered(n: Node, id: Id)
    ensures StepFacts(n, n, id, true, false)
  {}

  lemma FactsIntake(n: Node, items: seq<Listed>, max: nat, id: Id)
    ensures StepFacts(n, Fetched(n, items, max), id, false, false)
  {
    if n.fetches > 0 {
      IntakeOnlyAdds(n.(fetches := n.fetches - 1), items, max);
    }
  }

  lemma FactsCrash(n: Node, id: Id)
    requires Inv(n)
    ensures StepFacts(n, Crash(n), id, id !in n.disk, false)
  {
    hide RunOk;
  }

  predicate Renews(n: Node, id: Id, reply: LeaseReply) {
    reply.Renewed? && id in n.inFlight && n.inFlight[id].token.Some?
  }

  /** The step confirms a claim or a renewal of this item's run. */
  predicate Confirms(n: Node, e: Event, id: Id) {
    (e.ClaimAnswer? && e.id == id && e.claim.Claimed? && e.claim.token.Some?) ||
    (e.HeartbeatAnswer? && e.id == id && Renews(n, id, e.lease))
  }

  /** In every step runItem is entered, results are recorded and removed, and states change only
      as StepFacts allows; besides an answer only a crash before the write can lose an entry. */
  lemma EveryStep(n: Node, e: Event, now: int, id: Id)
    requires Inv(n)
    ensures StepFacts(n, Handle(n, e, now), id, Answers(e, id) || (e.Crashed? && id !in n.disk), Confirms(n, e, id))
  {
    hide Inv, StepFacts, Fetched, HandedOff, OnClaim, OnRunning, OnAnnounced, OnReturn, OnThrow, OnSettled, OnAttempt, OnReserveWake,
      OnReserveChecked, OnBackedOff, OnDelivered, OnPauseOver, OnHeartbeat, OnDeadline, TickBegin, FlushReply, Crash;
    match e
    case Listing(items, max) => FactsIntake(n, items, max, id);
    case HandOffDone(at, handed) => FactsFlush(n, [], at, Retry, handed, id);
    case ClaimAnswer(at, serial, claim) => FactsClaim(n, at, serial, claim, now, id);
    case RunningAnswer(at, serial, ok) => FactsSimple(n, at, serial, ok, Written, id);
    case Announced(at, serial) => FactsSimple(n, at, serial, true, Written, id);
    case AgentReturned(at, serial, w) => FactsSimple(n, at, serial, true, w, id);
    case AgentThrew(at, serial, failure, w) => FactsThrow(n, at, serial, failure, w, id);
    case Settled(at, serial, w) => FactsSimple(n, at, serial, true, w, id);
    case AttemptAnswer(at, serial, attempt) => FactsReserve(n, at, serial, attempt, id);
    case ReserveWake(at, serial) => FactsReserve(n, at, serial, Refused, id);
    case ReserveChecked(at, serial, w) => FactsSimple(n, at, serial, true, w, id);
    case BackedOff(at, serial) => FactsSimple(n, at, serial, true, Written, id);
    case ResultAnswer(at, serial, reply) => FactsDelivered(n, at, serial, reply, id);
    case PauseOver(at, serial) => FactsReserve(n, at, serial, Refused, id);
    case HeartbeatAnswer(at, serial, lease) => FactsLease(n, at, serial, lease, now, id);
    case DeadlineFired(at) => FactsLease(n, at, 0, NoAnswer, now, id);
    case TickStarted(snapshot) => FactsFlush(n, snapshot, 0, Retry, true, id);
    case FlushAnswer(at, reply) => FactsFlush(n, [], at, reply, true, id);
    case Crashed => FactsCrash(n, id);
  }

  /** The item whose result the step's event answers. */
  function AnsweredBy(e: Event): set<Id> {
    if (e.ResultAnswer? || e.FlushAnswer?) && !e.reply.Retry? then {e.id} else {}
  }

  /** For every item: no run of it is called or begun while a result of it is kept, results are recorded
      by its active run only, and an entry goes only when answered. */
  ghost predicate Guarded(n: Node, n': Node, answered: set<Id>) {
    forall id :: StepFacts(n, n', id, id in answered, true)
  }

  lemma Stepped(n: Node, e: Event, now: int)
    requires Inv(n) && !e.Crashed?
    ensures Inv(Handle(n, e, now)) && Guarded(n, Handle(n, e, now), AnsweredBy(e))
  {
    hide Handle, Inv;
    HandleOk(n, e, now);
    forall id ensures StepFacts(n, Handle(n, e, now), id, id in AnsweredBy(e), true) {
      EveryStep(n, e, now, id);
      Confirmed(n, Handle(n, e, now), id, id in AnsweredBy(e), Confirms(n, e, id));
    }
  }

  lemma Confirmed(n: Node, n': Node, id: Id, answered: bool, renewed: bool)
    requires StepFacts(n, n', id, answered, renewed)
    ensures StepFacts(n, n', id, answered, true)
  {}

  ghost predicate NeverCalled(n: Node, events: seq<(Event, int)>, id: Id) {
    forall k :: 0 <= k < |events| ==> !Called(RunAll(n, events[..k]), RunAll(n, events[..k + 1]), id)
  }

  /** From the moment a result is kept until it is answered, the item is never run again: through
      failing writes, any number of crashes once it is on disk, and everything else. */
  lemma {:induction false} NeverRunAgain(n: Node, events: seq<(Event, int)>, id: Id)
    requires Inv(n) && id in n.pending
    requires forall k :: 0 <= k < |events| ==> !Answers(events[k].0, id)
    requires id in n.disk || forall k :: 0 <= k < |events| ==> !events[k].0.Crashed?
    ensures id in RunAll(n, events).pending
    ensures id in n.disk ==> id in RunAll(n, events).disk
    ensures NeverCalled(n, events, id)
  {
    hide Inv, Handle, Called;
    if events != [] {
      var m := |events| - 1;
      var front := events[..m];
      NeverRunAgain(n, front, id);
      AllOk(n, front);
      var before := RunAll(n, front);
      assert events[..m + 1] == events;
      EveryStep(before, events[m].0, events[m].1, id);
      forall k | 0 <= k < m ensures !Called(RunAll(n, events[..k]), RunAll(n, events[..k + 1]), id) {
        assert front[..k] == events[..k] && front[..k + 1] == events[..k + 1];
      }
    }
  }

  // ---- The snapshot of a flush pass --------------------------------------

  /** An entry whose item has no run in flight is still the same entry when its answer arrives,
      whatever happens in between: the pass then removes what was answered. */
  lemma {:induction false} EntryUnchanged(n: Node, events: seq<(Event, int)>, id: Id)
    requires Inv(n) && id in n.pending && id !in n.inFlight
    requires forall k :: 0 <= k < |events| ==> !Answers(events[k].0, id)
    requires id in n.disk || forall k :: 0 <= k < |events| ==> !events[k].0.Crashed?
    ensures var n' := RunAll(n, events); id in n'.pending && n'.pending[id] == n.pending[id] && id !in n'.inFlight
    ensures id in n.disk ==> id in RunAll(n, events).disk
  {
    hide Inv, Handle;
    if events != [] {
      var m := |events| - 1;
      EntryUnchanged(n, events[..m], id);
      AllOk(n, events[..m]);
      EveryStep(RunAll(n, events[..m]), events[m].0, events[m].1, id);
    }
  }
}
