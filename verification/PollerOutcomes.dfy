/** Which result is recorded: complete when the agent returned, failed when it gave up, needing attention for the other
    ends, always with the token of the claim. Read off the events of any schedule, crashes included. */
module PollerOutcomes {
  import opened Wrappers
  import opened PollerSteps
  import opened PollerSafety

  type Schedule = seq<(Event, int)>

  // ---- What can end a run ------------------------------------------------------------

  /** The agent of run `serial` is at work and the run is still ours. */
  predicate Working(n: Node, id: Id, serial: nat) {
    At(n, id, serial, Executing) && n.inFlight[id].state == Active
  }

  predicate Returned(n: Node, e: Event, id: Id, serial: nat) {
    e.AgentReturned? && e.id == id && e.serial == serial && Working(n, id, serial)
  }

  predicate GaveUp(n: Node, e: Event, id: Id, serial: nat) {
    e.AgentThrew? && e.id == id && e.serial == serial && e.failure.GiveUp? && Working(n, id, serial)
  }

  /** A filter or admission error, a park, the attempt limit, or a refused reservation. */
  predicate Stopped(n: Node, e: Event, id: Id, serial: nat) {
    (e.AgentThrew? && e.id == id && e.serial == serial && Working(n, id, serial) &&
     (e.failure.FilterError? || e.failure.AdmissionError? || e.failure.Park? ||
      (e.failure.RetryOrReroute? && n.inFlight[id].attempt >= n.inFlight[id].limit))) ||
    (e.AttemptAnswer? && e.id == id && e.serial == serial && e.attempt.Refused? && At(n, id, serial, Reserving))
  }

  predicate Ends(n: Node, e: Event, id: Id, serial: nat, action: Action) {
    match action
    case Complete => Returned(n, e, id, serial)
    case Fail => GaveUp(n, e, id, serial)
    case NeedsAttention => Stopped(n, e, id, serial)
  }

  /** The claim gave run `serial` this token, first attempt and limit: one to ten attempts, ten when not given. */
  predicate Claims(e: Event, id: Id, serial: nat, token: Option<Token>, first: nat, limit: nat) {
    e.ClaimAnswer? && e.id == id && e.serial == serial && e.claim.Claimed? && e.claim.token == token &&
    first == (if e.claim.attempt < 1 then 1 else e.claim.attempt) &&
    limit == if e.claim.maxAttempts == 0 || e.claim.maxAttempts > 10 then 10 else if e.claim.maxAttempts < 1 then 1 else e.claim.maxAttempts
  }

  ghost predicate Ended(start: Node, events: Schedule, id: Id, serial: nat, action: Action) {
    exists k :: 0 <= k < |events| && Ends(RunAll(start, events[..k]), events[k].0, id, serial, action)
  }

  ghost predicate WasClaimed(events: Schedule, id: Id, serial: nat, token: Option<Token>, first: nat, limit: nat) {
    exists k :: 0 <= k < |events| && Claims(events[k].0, id, serial, token, first, limit)
  }

  /** Some run of the item was claimed with the result's token and came to the end that the result reports. */
  ghost predicate Explained(start: Node, events: Schedule, r: WorkResult) {
    exists serial, first, limit ::
      Ended(start, events, r.id, serial, r.action) && WasClaimed(events, r.id, serial, r.token, first, limit)
  }

  lemma EndedBefore(start: Node, events: Schedule, last: (Event, int), id: Id, serial: nat, action: Action)
    requires Ended(start, events, id, serial, action)
    ensures Ended(start, events + [last], id, serial, action)
  {
    hide RunAll, Ends;
    var k :| 0 <= k < |events| && Ends(RunAll(start, events[..k]), events[k].0, id, serial, action);
    assert (events + [last])[..k] == events[..k] && (events + [last])[k] == events[k];
  }

  lemma EndedNow(start: Node, events: Schedule, last: (Event, int), id: Id, serial: nat, action: Action)
    requires Ends(RunAll(start, events), last.0, id, serial, action)
    ensures Ended(start, events + [last], id, serial, action)
  {
    hide RunAll, Ends;
    assert (events + [last])[..|events|] == events && (events + [last])[|events|] == last;
  }

  lemma ClaimedBefore(events: Schedule, last: (Event, int), id: Id, serial: nat, token: Option<Token>, first: nat, limit: nat)
    requires WasClaimed(events, id, serial, token, first, limit) || Claims(last.0, id, serial, token, first, limit)
    ensures WasClaimed(events + [last], id, serial, token, first, limit)
  {
    hide Claims;
    if WasClaimed(events, id, serial, token, first, limit) {
      var k :| 0 <= k < |events| && Claims(events[k].0, id, serial, token, first, limit);
      assert (events + [last])[k] == events[k];
    } else {
      assert (events + [last])[|events|] == last;
    }
  }

  // ---- One step ------------------------------------------------------------------------

  /** The step records a result with this action for the run. */
  predicate Made(n: Node, e: Event, id: Id, action: Action) {
    id in n.inFlight && n.inFlight[id].state == Active &&
    var run := n.inFlight[id];
    (action == Complete && Returned(n, e, id, run.serial)) || (action == Fail && GaveUp(n, e, id, run.serial)) ||
    (e.Settled? && run.phase == Settling(action)) || (e.ReserveChecked? && run.phase == ReserveCheck && action == NeedsAttention)
  }

  predicate SameClaim(run: Run, before: Run) {
    run.token == before.token && run.start == before.start && run.limit == before.limit
  }

  /** It leaves Starting by an accepted transition only, and a run with a token goes on to its next attempt only when that
      was granted. */
  predicate Steady(e: Event, id: Id, run: Run, before: Run) {
    (before.phase == Starting && run.phase != Starting ==> e == RunningAnswer(id, run.serial, true)) &&
    (run.phase == Starting ==> before.phase == Starting) &&
    (run.attempt == before.attempt ||
     (run.attempt == before.attempt + 1 && (run.token.None? || e == AttemptAnswer(id, run.serial, Granted(run.attempt))))) &&
    (run.calls == before.calls || (run.phase == Executing && run.calls == before.calls + [run.attempt]))
  }

  /** What a step may do to a run: take it in, leave its result and token, claim it, stop it, or record its result. */
  ghost predicate Follows(n: Node, e: Event, id: Id, run: Run) {
    (run.phase == Claiming && run.token.None? && run.puts == [] && run.calls == []) ||
    (id in n.inFlight && run.serial == n.inFlight[id].serial &&
     var before := n.inFlight[id];
     ((SameClaim(run, before) && run.puts == before.puts && run.phase == before.phase && Steady(e, id, run, before)) ||
      (before.phase == Claiming && Claims(e, id, run.serial, run.token, run.start, run.limit) && run.puts == before.puts && run.phase == Starting &&
       run.attempt == run.start && run.calls == before.calls) ||
      (SameClaim(run, before) && run.puts == before.puts && before.phase != Claiming && run.phase != Claiming && Steady(e, id, run, before) &&
       (run.phase.Settling? || run.phase == ReserveCheck ==> Stopped(n, e, id, run.serial)) &&
       (run.phase.Settling? ==> run.phase == Settling(NeedsAttention))) ||
      (SameClaim(run, before) && before.phase != Claiming && run.phase == Delivering && Steady(e, id, run, before) &&
       exists action :: Made(n, e, id, action) && run.puts == before.puts + [WorkResult(id, run.token, action)])))
  }

  ghost predicate StepFollows(n: Node, e: Event, n': Node) {
    (forall id :: id in n'.inFlight ==> Follows(n, e, id, n'.inFlight[id])) &&
    (forall id :: id in n'.pending ==>
      (id in n.pending && n'.pending[id] == n.pending[id]) ||
      exists action :: Made(n, e, id, action) && n'.pending[id] == WorkResult(id, n.inFlight[id].token, action))
  }

  lemma SaveRest(n: Node, w: Write)
    ensures Save(n, w).pending == n.pending && Save(n, w).inFlight == n.inFlight
  {}

  lemma RecordsFollows(n: Node, e: Event, id: Id, action: Action)
    requires id in n.inFlight && Made(n, e, id, action) && n.inFlight[id].phase != Claiming
    ensures var run := n.inFlight[id];
      Follows(n, e, id, run.(phase := Delivering, puts := run.puts + [WorkResult(id, run.token, action)]))
  {
    assert n.inFlight[id].phase != Starting;
    hide Made, Claims, Stopped;
  }

  lemma FinishFollows(n: Node, e: Event, id: Id, run: Run, action: Action, w: Write)
    requires id in n.inFlight && n.inFlight[id] == run && Made(n, e, id, action) && run.phase != Claiming
    ensures StepFollows(n, e, Finish(n, id, run, action, w))
  {
    RecordsFollows(n, e, id, action);
    SaveRest(n.(pending := n.pending[id := WorkResult(id, run.token, action)]), w);
    OthersFollow(n, e);
    hide Made, Follows, Save;
  }

  lemma OthersFollow(n: Node, e: Event)
    ensures forall k :: k in n.inFlight ==> Follows(n, e, k, n.inFlight[k])
  {
    hide Made, Claims, Stopped;
  }

  lemma UpdateFollows(n: Node, e: Event, id: Id, run: Run)
    requires Follows(n, e, id, run)
    ensures StepFollows(n, e, Update(n, id, run))
  {
    OthersFollow(n, e);
    hide Follows, Made;
  }

  lemma SameFollows(n: Node, e: Event, n': Node)
    requires n'.inFlight.Keys <= n.inFlight.Keys && (forall id :: id in n'.inFlight ==> n'.inFlight[id] == n.inFlight[id])
    requires n'.pending.Keys <= n.pending.Keys && (forall id :: id in n'.pending ==> n'.pending[id] == n.pending[id])
    ensures StepFollows(n, e, n')
  {
    OthersFollow(n, e);
    hide Follows, Made;
  }

  lemma ClaimFollows(n: Node, id: Id, serial: nat, reply: ClaimReply, now: int)
    ensures StepFollows(n, ClaimAnswer(id, serial, reply), OnClaim(n, id, serial, reply, now))
  {
    var e, n' := ClaimAnswer(id, serial, reply), OnClaim(n, id, serial, reply, now);
    if At(n, id, serial, Claiming) && reply.Claimed? && n.inFlight[id].state == Active {
      assert Follows(n, e, id, n'.inFlight[id]) by { hide Made, Stopped; }
      hide Follows, SetLeaseDeadline;
      UpdateFollows(n, e, id, n'.inFlight[id]);
    } else {
      hide Follows;
      SameFollows(n, e, n');
    }
  }

  /** The run goes on in a phase in which nothing is decided or recorded. */
  lemma OnFollows(n: Node, e: Event, id: Id, run: Run)
    requires id in n.inFlight && run.serial == n.inFlight[id].serial && SameClaim(run, n.inFlight[id]) && Steady(e, id, run, n.inFlight[id])
    requires run.puts == n.inFlight[id].puts
    requires run.phase == n.inFlight[id].phase ||
      (n.inFlight[id].phase != Claiming && run.phase != Claiming && !run.phase.Settling? && run.phase != ReserveCheck)
    ensures StepFollows(n, e, Update(n, id, run))
  {
    assert Follows(n, e, id, run) by { hide Made, Claims, Stopped; }
    hide Follows;
    UpdateFollows(n, e, id, run);
  }

  lemma NothingFollows(n: Node, e: Event, id: Id)
    ensures StepFollows(n, e, n)
    ensures id in n.inFlight ==> StepFollows(n, e, End(n, id, n.inFlight[id]))
  {
    SameFollows(n, e, n);
    if id in n.inFlight { SameFollows(n, e, End(n, id, n.inFlight[id])); }
  }

  lemma StartFollows(n: Node, e: Event, now: int)
    requires e.RunningAnswer? || e.Announced? || e.BackedOff?
    ensures StepFollows(n, e, Handle(n, e, now))
  {
    hide StepFollows;
    NothingFollows(n, e, e.id);
    if e.id in n.inFlight && n.inFlight[e.id].serial == e.serial {
      var run := n.inFlight[e.id];
      if e.RunningAnswer? && run.phase == Starting && e.ok {
        OnFollows(n, e, e.id, run.(phase := Announcing));
      } else if (e.Announced? && run.phase == Announcing) || (e.BackedOff? && run.phase == BackingOff) {
        OnFollows(n, e, e.id, run.(phase := Executing, calls := run.calls + [run.attempt]));
      }
    }
  }

  lemma WakeFollows(n: Node, e: Event, now: int)
    requires e.ReserveWake? || e.PauseOver?
    ensures StepFollows(n, e, Handle(n, e, now))
  {
    hide StepFollows;
    NothingFollows(n, e, e.id);
    if e.id in n.inFlight {
      var run := n.inFlight[e.id];
      if run.phase == ReserveSleep { OnFollows(n, e, e.id, run.(phase := Reserving)); }
      if run.phase == Pausing { OnFollows(n, e, e.id, run.(phase := Delivering)); }
    }
  }

  lemma ReturnFollows(n: Node, id: Id, serial: nat, w: Write)
    ensures StepFollows(n, AgentReturned(id, serial, w), OnReturn(n, id, serial, w))
  {
    var e := AgentReturned(id, serial, w);
    NothingFollows(n, e, id);
    if Working(n, id, serial) {
      assert Made(n, e, id, Complete);
      hide StepFollows, Made, Finish;
      FinishFollows(n, e, id, n.inFlight[id], Complete, w);
    }
  }

  /** The run stops for a person. */
  lemma StopFollows(n: Node, e: Event, id: Id, run: Run)
    requires id in n.inFlight && Stopped(n, e, id, n.inFlight[id].serial) && n.inFlight[id].phase != Claiming
    requires run == n.inFlight[id].(phase := Settling(NeedsAttention)) || run == n.inFlight[id].(phase := ReserveCheck)
    ensures StepFollows(n, e, Update(n, id, run))
  {
    assert Follows(n, e, id, run) by { hide Made, Claims, Stopped; }
    hide Follows;
    UpdateFollows(n, e, id, run);
  }

  lemma GiveUpFollows(n: Node, id: Id, serial: nat, w: Write)
    requires Working(n, id, serial) && id !in n.pending
    ensures StepFollows(n, AgentThrew(id, serial, GiveUp, w), OnThrow(n, id, serial, GiveUp, w))
  {
    var e := AgentThrew(id, serial, GiveUp, w);
    assert Made(n, e, id, Fail);
    hide StepFollows, Made, Finish;
    FinishFollows(n, e, id, n.inFlight[id], Fail, w);
  }

  lemma StopThrowFollows(n: Node, id: Id, serial: nat, failure: Failure, w: Write)
    requires Working(n, id, serial) && id !in n.pending && Stopped(n, AgentThrew(id, serial, failure, w), id, serial)
    ensures StepFollows(n, AgentThrew(id, serial, failure, w), OnThrow(n, id, serial, failure, w))
  {
    var e, run := AgentThrew(id, serial, failure, w), n.inFlight[id];
    assert OnThrow(n, id, serial, failure, w) == Update(n, id, run.(phase := Settling(NeedsAttention)));
    hide *;
    assert run.serial == serial && run.phase == Executing by { WorkingIs(n, id, serial); }
    StopFollows(n, e, id, run.(phase := Settling(NeedsAttention)));
  }

  lemma WorkingIs(n: Node, id: Id, serial: nat)
    requires Working(n, id, serial)
    ensures id in n.inFlight && n.inFlight[id].serial == serial && n.inFlight[id].phase == Executing
  {}

  lemma RetryFollows(n: Node, id: Id, serial: nat, w: Write)
    requires Working(n, id, serial) && id !in n.pending && n.inFlight[id].attempt < n.inFlight[id].limit
    ensures StepFollows(n, AgentThrew(id, serial, RetryOrReroute, w), OnThrow(n, id, serial, RetryOrReroute, w))
  {
    var e, run := AgentThrew(id, serial, RetryOrReroute, w), n.inFlight[id];
    hide StepFollows;
    if run.token.Some? {
      OnFollows(n, e, id, run.(phase := Reserving));
    } else {
      OnFollows(n, e, id, run.(phase := BackingOff, attempt := run.attempt + 1));
    }
  }

  lemma ThrowFollows(n: Node, id: Id, serial: nat, failure: Failure, w: Write)
    ensures StepFollows(n, AgentThrew(id, serial, failure, w), OnThrow(n, id, serial, failure, w))
  {
    hide StepFollows, Finish;
    NothingFollows(n, AgentThrew(id, serial, failure, w), id);
    if Working(n, id, serial) && id !in n.pending {
      hide OnThrow;
      if failure.GiveUp? {
        GiveUpFollows(n, id, serial, w);
      } else if failure.RetryOrReroute? && n.inFlight[id].attempt < n.inFlight[id].limit {
        RetryFollows(n, id, serial, w);
      } else {
        StopThrowFollows(n, id, serial, failure, w);
      }
    }
  }

  lemma SettleFollows(n: Node, e: Event, now: int)
    requires e.Settled? || e.ReserveChecked?
    ensures StepFollows(n, e, Handle(n, e, now))
  {
    NothingFollows(n, e, e.id);
    if e.id in n.inFlight && n.inFlight[e.id].serial == e.serial && n.inFlight[e.id].state == Active {
      var run := n.inFlight[e.id];
      if e.Settled? && run.phase.Settling? {
        assert Made(n, e, e.id, run.phase.action);
        hide StepFollows, Made, Finish;
        FinishFollows(n, e, e.id, run, run.phase.action, e.w);
      } else if e.ReserveChecked? && run.phase == ReserveCheck {
        assert Made(n, e, e.id, NeedsAttention);
        hide StepFollows, Made, Finish;
        FinishFollows(n, e, e.id, run, NeedsAttention, e.w);
      }
    }
  }

  lemma RefusedFollows(n: Node, id: Id, serial: nat)
    requires At(n, id, serial, Reserving)
    ensures StepFollows(n, AttemptAnswer(id, serial, Refused), OnAttempt(n, id, serial, Refused))
  {
    hide StepFollows;
    StopFollows(n, AttemptAnswer(id, serial, Refused), id, n.inFlight[id].(phase := ReserveCheck));
  }

  lemma AttemptFollows(n: Node, id: Id, serial: nat, reply: AttemptReply)
    ensures StepFollows(n, AttemptAnswer(id, serial, reply), OnAttempt(n, id, serial, reply))
  {
    var e := AttemptAnswer(id, serial, reply);
    hide StepFollows;
    NothingFollows(n, e, id);
    if At(n, id, serial, Reserving) {
      var run := n.inFlight[id];
      if reply.Refused? {
        RefusedFollows(n, id, serial);
      } else if reply == Granted(run.attempt + 1) {
        OnFollows(n, e, id, run.(phase := BackingOff, attempt := run.attempt + 1));
      } else {
        OnFollows(n, e, id, run.(phase := ReserveSleep));
      }
    }
  }

  lemma DeliverFollows(n: Node, id: Id, serial: nat, reply: Delivery)
    ensures StepFollows(n, ResultAnswer(id, serial, reply), OnDelivered(n, id, serial, reply))
  {
    var e := ResultAnswer(id, serial, reply);
    NothingFollows(n, e, id);
    if At(n, id, serial, Delivering) {
      var run := n.inFlight[id];
      SaveRest(n.(pending := n.pending - {id}), Written);
      SameFollows(n, e, End(Remove(n, id), id, run));
      hide StepFollows;
      OnFollows(n, e, id, run.(phase := Pausing));
    }
  }

  /** Only the lease of the run changed. */
  lemma LeaseMoves(n: Node, e: Event, id: Id, run: Run)
    requires id in n.inFlight && run == n.inFlight[id].(state := run.state, deadline := run.deadline)
    ensures StepFollows(n, e, Update(n, id, run))
  {
    hide StepFollows;
    OnFollows(n, e, id, run);
  }

  lemma HeartbeatFollows(n: Node, id: Id, serial: nat, reply: LeaseReply, now: int)
    ensures StepFollows(n, HeartbeatAnswer(id, serial, reply), OnHeartbeat(n, id, serial, reply, now))
  {
    var e := HeartbeatAnswer(id, serial, reply);
    hide StepFollows;
    NothingFollows(n, e, id);
    if id in n.inFlight {
      var run := n.inFlight[id];
      match reply
      case Renewed(expiry) => LeaseMoves(n, e, id, SetLeaseDeadline(run, expiry, now));
      case Revoked(cancelled) => LeaseMoves(n, e, id, run.(state := if cancelled then Cancelled else Lost));
      case NoAnswer =>
    }
  }

  lemma DeadlineFollows(n: Node, id: Id, now: int)
    ensures StepFollows(n, DeadlineFired(id), OnDeadline(n, id, now))
  {
    hide StepFollows;
    NothingFollows(n, DeadlineFired(id), id);
    if id in n.inFlight { LeaseMoves(n, DeadlineFired(id), id, Lose(n.inFlight[id].(deadline := None))); }
  }

  lemma TakenInFollows(n: Node, e: Event, id: Id, run: Run)
    requires run.phase == Claiming && run.token.None? && run.puts == [] && run.calls == []
    ensures Follows(n, e, id, run)
  {}

  lemma ConsiderFollows(n: Node, e: Event, m: Node, item: Listed, full: bool)
    requires StepFollows(n, e, m)
    ensures StepFollows(n, e, Consider(m, item, full))
  {
    TakenInFollows(n, e, item.id, Fresh(m.nextSerial));
    hide Follows, Made;
  }

  lemma {:induction false} IntakeFollows(n: Node, e: Event, m: Node, items: seq<Listed>, max: nat)
    requires StepFollows(n, e, m)
    ensures StepFollows(n, e, Intake(m, items, max))
    decreases |items|
  {
    hide StepFollows, Consider;
    if items != [] {
      var full := max > 0 && |m.inFlight| >= max;
      ConsiderFollows(n, e, m, items[0], full);
      IntakeFollows(n, e, Consider(m, items[0], full), items[1..], max);
    }
  }

  lemma {:induction false} AdvanceRest(n: Node, queue: seq<WorkResult>)
    ensures Advance(n, queue).inFlight == n.inFlight && Advance(n, queue).pending == n.pending
  {
    if queue != [] && queue[0].id in n.inFlight { AdvanceRest(n, queue[1..]); }
  }

  lemma ListingFollows(n: Node, items: seq<Listed>, max: nat)
    ensures StepFollows(n, Listing(items, max), Fetched(n, items, max))
  {
    var e := Listing(items, max);
    SameFollows(n, e, n);
    if n.fetches > 0 {
      var m := n.(fetches := n.fetches - 1);
      SameFollows(n, e, m);
      hide StepFollows, Intake;
      IntakeFollows(n, e, m, items, max);
    }
  }

  lemma FlushFollows(n: Node, id: Id, reply: Delivery)
    ensures StepFollows(n, FlushAnswer(id, reply), FlushReply(n, id, reply))
  {
    if Awaiting(n, id) {
      AdvanceRest(n, n.flushing.value[1..]);
      AdvanceRest(Remove(n, id), n.flushing.value[1..]);
      SaveRest(n.(pending := n.pending - {id}), Written);
    }
    hide Advance, Save, StepFollows;
    SameFollows(n, FlushAnswer(id, reply), FlushReply(n, id, reply));
  }

  lemma TickFollows(n: Node, snapshot: seq<WorkResult>)
    ensures StepFollows(n, TickStarted(snapshot), TickBegin(n, snapshot))
  {
    AdvanceRest(n.(waiting := n.waiting + 1), snapshot);
    hide Advance, StepFollows, Snapshot;
    SameFollows(n, TickStarted(snapshot), TickBegin(n, snapshot));
  }

  lemma HandOffFollows(n: Node, id: Id, handed: bool)
    ensures StepFollows(n, HandOffDone(id, handed), HandedOff(n, id, handed))
  {
    hide StepFollows;
    SameFollows(n, HandOffDone(id, handed), HandedOff(n, id, handed));
  }

  lemma CrashFollows(n: Node)
    requires OutboxOk(n)
    ensures StepFollows(n, Crashed, Crash(n))
  {
    hide StepFollows;
    SameFollows(n, Crashed, Crash(n));
  }

  lemma EveryStepFollows(n: Node, e: Event, now: int)
    requires OutboxOk(n)
    ensures StepFollows(n, e, Handle(n, e, now))
  {
    hide StepFollows, OnClaim, OnRunning, OnAnnounced, OnReturn, OnThrow, OnSettled, OnAttempt, OnReserveWake, OnReserveChecked,
      OnBackedOff, OnDelivered, OnPauseOver, OnHeartbeat, OnDeadline, TickBegin, FlushReply, Crash, HandedOff, Fetched;
    match e
    case ClaimAnswer(id, serial, claim) => ClaimFollows(n, id, serial, claim, now);
    case AgentReturned(id, serial, w) => ReturnFollows(n, id, serial, w);
    case AgentThrew(id, serial, failure, w) => ThrowFollows(n, id, serial, failure, w);
    case AttemptAnswer(id, serial, attempt) => AttemptFollows(n, id, serial, attempt);
    case ResultAnswer(id, serial, reply) => DeliverFollows(n, id, serial, reply);
    case Settled(_, _, _) => SettleFollows(n, e, now);
    case ReserveChecked(_, _, _) => SettleFollows(n, e, now);
    case HeartbeatAnswer(id, serial, lease) => HeartbeatFollows(n, id, serial, lease, now);
    case DeadlineFired(id) => DeadlineFollows(n, id, now);
    case Listing(items, max) => ListingFollows(n, items, max);
    case HandOffDone(id, handed) => HandOffFollows(n, id, handed);
    case TickStarted(snapshot) => TickFollows(n, snapshot);
    case FlushAnswer(id, reply) => FlushFollows(n, id, reply);
    case Crashed => CrashFollows(n);
    case ReserveWake(_, _) => WakeFollows(n, e, now);
    case PauseOver(_, _) => WakeFollows(n, e, now);
    case _ => StartFollows(n, e, now);
  }

  // ---- Every schedule --------------------------------------------------------------------

  /** The run was claimed with its token, first attempt and limit, and it stopped if it is about to record that. */
  ghost predicate RunKnown(start: Node, events: Schedule, id: Id, run: Run) {
    (run.phase != Claiming ==> WasClaimed(events, id, run.serial, run.token, run.start, run.limit)) &&
    (run.phase.Settling? || run.phase == ReserveCheck ==> Ended(start, events, id, run.serial, NeedsAttention)) &&
    (run.phase.Settling? ==> run.phase == Settling(NeedsAttention))
  }

  ghost predicate AllKnown(start: Node, events: Schedule, n: Node) {
    (forall id :: id in n.inFlight ==> RunKnown(start, events, id, n.inFlight[id])) &&
    (forall id :: id in n.pending ==>
      (id in start.pending && n.pending[id] == start.pending[id]) || (n.pending[id].id == id && Explained(start, events, n.pending[id])))
  }

  lemma RunKnownNext(start: Node, events: Schedule, last: (Event, int), id: Id, run: Run)
    requires var n := RunAll(start, events); AllKnown(start, events, n) && Follows(n, last.0, id, run)
    ensures RunKnown(start, events + [last], id, run)
  {
    var n := RunAll(start, events);
    hide RunAll, Claims, Stopped;
    if !(run.phase == Claiming && run.token.None? && run.puts == [] && run.calls == []) {
      var before := n.inFlight[id];
      assert RunKnown(start, events, id, before);
      hide WasClaimed, Ended, Made;
      if before.phase != Claiming || Claims(last.0, id, run.serial, run.token, run.start, run.limit) {
        ClaimedBefore(events, last, id, run.serial, run.token, run.start, run.limit);
      }
      if Ended(start, events, id, run.serial, NeedsAttention) {
        EndedBefore(start, events, last, id, run.serial, NeedsAttention);
      }
      if Stopped(n, last.0, id, run.serial) {
        EndedNow(start, events, last, id, run.serial, NeedsAttention);
      }
    }
  }

  lemma MadeExplained(start: Node, events: Schedule, last: (Event, int), id: Id, action: Action)
    requires var n := RunAll(start, events); AllKnown(start, events, n) && Made(n, last.0, id, action)
    ensures Explained(start, events + [last], WorkResult(id, RunAll(start, events).inFlight[id].token, action))
  {
    var n := RunAll(start, events);
    var run := n.inFlight[id];
    assert RunKnown(start, events, id, run);
    assert run.phase != Claiming;
    hide RunAll, WasClaimed, Ended, Stopped;
    ClaimedBefore(events, last, id, run.serial, run.token, run.start, run.limit);
    if run.phase.Settling? || run.phase == ReserveCheck {
      EndedBefore(start, events, last, id, run.serial, NeedsAttention);
    } else {
      EndedNow(start, events, last, id, run.serial, action);
    }
  }

  lemma ExplainedBefore(start: Node, events: Schedule, last: (Event, int), r: WorkResult)
    requires Explained(start, events, r)
    ensures Explained(start, events + [last], r)
  {
    hide Ended, WasClaimed;
    var serial, first, limit :|
      Ended(start, events, r.id, serial, r.action) && WasClaimed(events, r.id, serial, r.token, first, limit);
    EndedBefore(start, events, last, r.id, serial, r.action);
    ClaimedBefore(events, last, r.id, serial, r.token, first, limit);
  }

  lemma KnownNext(start: Node, events: Schedule, last: (Event, int))
    requires OutboxOk(RunAll(start, events)) && AllKnown(start, events, RunAll(start, events))
    ensures AllKnown(start, events + [last], Handle(RunAll(start, events), last.0, last.1))
  {
    var n := RunAll(start, events);
    var n' := Handle(n, last.0, last.1);
    EveryStepFollows(n, last.0, last.1);
    hide RunAll, Handle, Follows, RunKnown, Explained, Made, OutboxOk;
    forall id | id in n'.inFlight ensures RunKnown(start, events + [last], id, n'.inFlight[id]) {
      RunKnownNext(start, events, last, id, n'.inFlight[id]);
    }
    forall id | id in n'.pending
      ensures (id in start.pending && n'.pending[id] == start.pending[id]) ||
        (n'.pending[id].id == id && Explained(start, events + [last], n'.pending[id]))
    {
      if id in n.pending && n'.pending[id] == n.pending[id] {
        if !(id in start.pending && n.pending[id] == start.pending[id]) {
          ExplainedBefore(start, events, last, n.pending[id]);
        }
      } else {
        var action :| Made(n, last.0, id, action) && n'.pending[id] == WorkResult(id, n.inFlight[id].token, action);
        MadeExplained(start, events, last, id, action);
      }
    }
  }

  /** Under any schedule, crashes included: every kept result that was not in the file at the start is what a run of the
      item, claimed with that token, came to. It is complete only if the agent returned, failed only if it gave up, and
      needs attention only after a filter or admission error, a park, the attempt limit or a refused reservation. */
  lemma {:induction false} KeptResultsExplained(durable: bool, disk: map<Id, WorkResult>, events: Schedule)
    requires Inv(Boot(durable, disk))
    ensures Inv(RunAll(Boot(durable, disk), events))
    ensures AllKnown(Boot(durable, disk), events, RunAll(Boot(durable, disk), events))
  {
    hide Handle, Inv, AllKnown;
    var start := Boot(durable, disk);
    if events == [] {
      NothingRecorded(start);
      assert start.inFlight == map[];
    } else {
      var init, last := events[..|events| - 1], events[|events| - 1];
      assert events == init + [last];
      KeptResultsExplained(durable, disk, init);
      HandleOk(RunAll(start, init), last.0, last.1);
      OutboxIs(RunAll(start, init));
      KnownNext(start, init, last);
    }
  }

  lemma NothingRecorded(start: Node)
    requires start.inFlight == map[]
    ensures AllKnown(start, [], start)
  {}

  lemma OutboxIs(n: Node)
    requires Inv(n)
    ensures OutboxOk(n)
  {}

  predicate Kept(n: Node, r: WorkResult) {
    r.id in n.pending && n.pending[r.id] == r
  }

  // ---- What an attempt needs ---------------------------------------------------------------

  ghost predicate Accepted(events: Schedule, id: Id, serial: nat) {
    exists k :: 0 <= k < |events| && events[k].0 == RunningAnswer(id, serial, true)
  }

  ghost predicate WasGranted(events: Schedule, id: Id, serial: nat, attempt: nat) {
    exists k :: 0 <= k < |events| && events[k].0 == AttemptAnswer(id, serial, Granted(attempt))
  }

  /** The agent is called only after the running transition was accepted, and a run with a claim token goes on to a
      further attempt only after that attempt was granted. */
  ghost predicate Allowed(events: Schedule, id: Id, run: Run) {
    (run.phase == Claiming ==> run.calls == []) && (run.phase == Starting ==> run.calls == []) &&
    (run.phase != Claiming && run.phase != Starting ==> Accepted(events, id, run.serial)) &&
    (run.phase != Claiming && run.token.Some? ==>
      forall a: nat :: run.start < a <= run.attempt ==> WasGranted(events, id, run.serial, a)) &&
    (run.phase != Claiming ==> forall k :: 0 <= k < |run.calls| ==> run.calls[k] <= run.attempt)
  }

  lemma AllowedBefore(events: Schedule, last: (Event, int), id: Id, serial: nat)
    ensures Accepted(events, id, serial) ==> Accepted(events + [last], id, serial)
    ensures last.0 == RunningAnswer(id, serial, true) ==> Accepted(events + [last], id, serial)
    ensures forall a: nat :: WasGranted(events, id, serial, a) ==> WasGranted(events + [last], id, serial, a)
    ensures forall a: nat :: last.0 == AttemptAnswer(id, serial, Granted(a)) ==> WasGranted(events + [last], id, serial, a)
  {
    var all := events + [last];
    assert all[|events|] == last && forall k :: 0 <= k < |events| ==> all[k] == events[k];
  }

  /** The step left the claim alone. */
  lemma SteadyAllowed(events: Schedule, last: (Event, int), id: Id, run: Run, before: Run)
    requires Allowed(events, id, before) && Steady(last.0, id, run, before) && SameClaim(run, before) && run.serial == before.serial
    requires run.phase == Claiming <==> before.phase == Claiming
    ensures Allowed(events + [last], id, run)
  {
    AllowedBefore(events, last, id, run.serial);
    hide Accepted, WasGranted;
  }

  lemma AllowedNext(events: Schedule, last: (Event, int), n: Node, id: Id, run: Run)
    requires forall k :: k in n.inFlight ==> Allowed(events, k, n.inFlight[k])
    requires Follows(n, last.0, id, run)
    ensures Allowed(events + [last], id, run)
  {
    if !(run.phase == Claiming && run.token.None? && run.puts == [] && run.calls == []) {
      var before := n.inFlight[id];
      assert Allowed(events, id, before);
      hide Made, Stopped, Steady;
      if before.phase == Claiming && run.phase == Starting {
        assert run.calls == before.calls == [] && run.attempt == run.start by { hide Claims; }
        hide Accepted, WasGranted;
      } else {
        hide Allowed, Claims;
        SteadyAllowed(events, last, id, run, before);
      }
    }
  }

  /** Under any schedule: every call of the agent by a run in flight comes after the transition to running was accepted,
      and with a claim token every attempt after the first was granted by the control plane. */
  lemma {:induction false} AttemptsAllowed(durable: bool, disk: map<Id, WorkResult>, events: Schedule)
    requires Inv(Boot(durable, disk))
    ensures var n := RunAll(Boot(durable, disk), events);
      Inv(n) && forall id :: id in n.inFlight ==> Allowed(events, id, n.inFlight[id])
  {
    hide Handle, Inv, Allowed;
    var start := Boot(durable, disk);
    if events != [] {
      var init, last := events[..|events| - 1], events[|events| - 1];
      assert events == init + [last];
      AttemptsAllowed(durable, disk, init);
      var n := RunAll(start, init);
      HandleOk(n, last.0, last.1);
      OutboxIs(n);
      EveryStepFollows(n, last.0, last.1);
      hide Follows;
      forall id | id in RunAll(start, events).inFlight ensures Allowed(events, id, RunAll(start, events).inFlight[id]) {
        AllowedNext(init, last, n, id, RunAll(start, events).inFlight[id]);
      }
    } else {
      assert start.inFlight == map[];
    }
  }

  lemma FinishKeeps(n: Node, id: Id, run: Run, action: Action, w: Write)
    ensures Kept(Finish(n, id, run, action, w), WorkResult(id, run.token, action))
  {
    SaveRest(n.(pending := n.pending[id := WorkResult(id, run.token, action)]), w);
  }

  lemma EndAtOnce(n: Node, e: Event, id: Id, serial: nat, action: Action, now: int)
    requires Inv(n) && Ends(n, e, id, serial, action) && action != NeedsAttention
    ensures Kept(Handle(n, e, now), WorkResult(id, n.inFlight[id].token, action))
  {
    var run := n.inFlight[id];
    assert RunOk(n, id, run);
    hide Inv;
    FinishKeeps(n, id, run, action, e.w);
    hide RunOk, Finish, Kept;
  }

  /** The run waits for the report or the lease check. */
  function Stopping(n: Node, e: Event, id: Id): Node
    requires id in n.inFlight
  {
    Update(n, id, n.inFlight[id].(phase := if e.AttemptAnswer? then ReserveCheck else Settling(NeedsAttention)))
  }

  lemma StopWaits(n: Node, e: Event, id: Id, serial: nat, now: int)
    requires Inv(n) && Stopped(n, e, id, serial)
    ensures Handle(n, e, now) == Stopping(n, e, id)
  {
    assert RunOk(n, id, n.inFlight[id]);
    hide Inv, RunOk;
    NotYetKept(n, id);
  }

  lemma NotYetKept(n: Node, id: Id)
    ensures id in n.inFlight && !Recorded(n.inFlight[id]) && RunOk(n, id, n.inFlight[id]) ==> id !in n.pending
  {}

  lemma StopKept(n: Node, e: Event, id: Id, serial: nat, w: Write, later: int)
    requires id in n.inFlight && n.inFlight[id].serial == serial && n.inFlight[id].state == Active
    ensures Kept(
      Handle(Stopping(n, e, id), if e.AttemptAnswer? then ReserveChecked(id, serial, w) else Settled(id, serial, w), later),
      WorkResult(id, n.inFlight[id].token, NeedsAttention))
  {
    var m := Stopping(n, e, id);
    FinishKeeps(m, id, m.inFlight[id], NeedsAttention, w);
    hide Finish, Kept;
  }

  /** Conversely the end of an active run is recorded: at once when the agent returned or gave up, otherwise after the
      report or the lease check that follows, if the run is still ours then. Failing writes do not matter. */
  lemma EndsAreKept(n: Node, e: Event, id: Id, serial: nat, action: Action, now: int, w: Write, later: int)
    requires Inv(n) && Ends(n, e, id, serial, action) && n.inFlight[id].state == Active
    ensures var r, n1 := WorkResult(id, n.inFlight[id].token, action), Handle(n, e, now);
      if action != NeedsAttention then Kept(n1, r)
      else
        Kept(Handle(n1, if e.AttemptAnswer? then ReserveChecked(id, serial, w) else Settled(id, serial, w), later), r)
  {
    if action != NeedsAttention {
      EndAtOnce(n, e, id, serial, action, now);
    } else {
      assert n.inFlight[id].serial == serial;
      hide Handle, Kept;
      StopWaits(n, e, id, serial, now);
      StopKept(n, e, id, serial, w, later);
    }
  }
}
