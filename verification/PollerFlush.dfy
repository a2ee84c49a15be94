/** The snapshot of a pass over the outbox: when the answer to an entry of it removes another result of
    the same item. */
module PollerFlush {
  import opened Wrappers
  import opened Numbers
  import opened PollerSteps
  import opened PollerSafety

  type Schedule = seq<(Event, int)>

  predicate EndsWith(queue: seq<WorkResult>, rest: seq<WorkResult>) {
    |rest| <= |queue| && queue[|queue| - |rest|..] == rest
  }

  /** The pass has not come past the first entry of rest. */
  predicate InPass(n: Node, rest: seq<WorkResult>) {
    n.flushing.Some? && EndsWith(n.flushing.value, rest)
  }

  ghost predicate Apart(queue: seq<WorkResult>) {
    forall i, j :: 0 <= i < j < |queue| ==> queue[i].id != queue[j].id
  }

  ghost predicate PassOk(n: Node) {
    (n.flushing.None? ==> n.waiting == 0) &&
    (n.flushing.Some? ==> n.flushing.value != [] && Apart(n.flushing.value))
  }

  /** The entry is sent and its answer awaited, while another result of its item is kept. */
  predicate Overtaken(n: Node, rest: seq<WorkResult>) {
    rest != [] && n.flushing == Some(rest) && rest[0].id in n.pending && n.pending[rest[0].id] != rest[0]
  }

  ghost predicate WithinPass(n: Node, events: Schedule, rest: seq<WorkResult>) {
    forall k :: 0 <= k <= |events| ==> InPass(RunAll(n, events[..k]), rest)
  }

  ghost predicate Overtakes(n: Node, events: Schedule, rest: seq<WorkResult>) {
    WithinPass(n, events, rest) && Overtaken(RunAll(n, events), rest)
  }

  // ---- The pass --------------------------------------------------------------

  lemma {:induction false} AdvancePass(n: Node, queue: seq<WorkResult>)
    requires Apart(queue)
    ensures PassOk(Advance(n, queue))
    ensures Advance(n, queue).flushing.Some? ==>
      EndsWith(queue, Advance(n, queue).flushing.value) && Advance(n, queue).fetches == n.fetches
  {
    if queue != [] && queue[0].id in n.inFlight {
      AdvancePass(n, queue[1..]);
    }
  }

  // ---- Steps of runs -----------------------------------------------------------

  /** The run that owns the result can no longer get it answered. */
  predicate GivenUp(run: Run) {
    run.phase.Pausing? && run.state != Active
  }

  predicate SamePass(n: Node, n': Node) {
    n'.flushing == n.flushing && n'.waiting == n.waiting && n'.fetches == n.fetches
  }

  /** The pass goes on unchanged, and unless the item has a run without a result, no run of it begins
      and no result of it is recorded; one whose run is given up stays. */
  predicate Quiet(n: Node, n': Node, id: Id) {
    SamePass(n, n') &&
    ((id in n.inFlight ==> Recorded(n.inFlight[id])) ==>
      (id in n'.inFlight ==> id in n.inFlight && Recorded(n'.inFlight[id])) &&
      (id in n'.pending ==> id in n.pending && n'.pending[id] == n.pending[id])) &&
    (id in n.inFlight && GivenUp(n.inFlight[id]) ==>
      (id in n'.inFlight ==> GivenUp(n'.inFlight[id])) && (id in n.pending ==> id in n'.pending)) &&
    (id !in n.inFlight && id in n.pending ==> id in n'.pending)
  }

  lemma QuietSame(n: Node, id: Id)
    ensures Quiet(n, n, id)
  {}

  lemma QuietUpdate(n: Node, at: Id, run: Run, id: Id)
    requires at in n.inFlight && (Recorded(n.inFlight[at]) ==> Recorded(run))
    requires GivenUp(n.inFlight[at]) ==> GivenUp(run)
    ensures Quiet(n, Update(n, at, run), id)
  {}

  lemma QuietEnd(n: Node, at: Id, run: Run, id: Id)
    ensures Quiet(n, End(n, at, run), id)
  {}

  lemma QuietRecord(n: Node, at: Id, run: Run, action: Action, w: Write, id: Id)
    requires at in n.inFlight && !Recorded(n.inFlight[at])
    ensures Quiet(n, Finish(n, at, run, action, w), id)
  {}

  lemma QuietAnswered(n: Node, at: Id, serial: nat, reply: Delivery, id: Id)
    ensures Quiet(n, OnDelivered(n, at, serial, reply), id) && Quiet(n, OnPauseOver(n, at, serial), id)
  {}

  lemma QuietLease(n: Node, at: Id, serial: nat, reply: LeaseReply, now: int, id: Id)
    ensures Quiet(n, OnHeartbeat(n, at, serial, reply, now), id) && Quiet(n, OnDeadline(n, at, now), id)
  {
    hide Quiet;
    QuietSame(n, id);
    if at in n.inFlight {
      var n1, n2 := OnHeartbeat(n, at, serial, reply, now), OnDeadline(n, at, now);
      QuietUpdate(n, at, n1.inFlight[at], id);
      QuietUpdate(n, at, n2.inFlight[at], id);
    }
  }

  lemma QuietStart(n: Node, at: Id, serial: nat, reply: ClaimReply, ok: bool, now: int, id: Id)
    ensures Quiet(n, OnClaim(n, at, serial, reply, now), id) && Quiet(n, OnRunning(n, at, serial, ok), id)
    ensures Quiet(n, OnAnnounced(n, at, serial), id) && Quiet(n, OnBackedOff(n, at, serial), id)
  {
    hide Quiet, SetLeaseDeadline;
    QuietSame(n, id);
    if at in n.inFlight {
      var run := n.inFlight[at];
      QuietEnd(n, at, run, id);
      if !Recorded(run) {
        var n1 := OnClaim(n, at, serial, reply, now);
        if at in n1.inFlight { QuietUpdate(n, at, n1.inFlight[at], id); }
        QuietUpdate(n, at, run.(phase := Announcing), id);
        QuietUpdate(n, at, run.(phase := Executing, calls := run.calls + [run.attempt]), id);
      }
    }
  }

  lemma QuietAgent(n: Node, at: Id, serial: nat, failure: Failure, w: Write, id: Id)
    ensures Quiet(n, OnReturn(n, at, serial, w), id) && Quiet(n, OnSettled(n, at, serial, w), id)
    ensures Quiet(n, OnReserveChecked(n, at, serial, w), id) && Quiet(n, OnThrow(n, at, serial, failure, w), id)
  {
    hide Quiet, Finish;
    QuietSame(n, id);
    if at in n.inFlight {
      var run := n.inFlight[at];
      QuietEnd(n, at, run, id);
      if !Recorded(run) {
        QuietRecord(n, at, run, Complete, w, id);
        QuietRecord(n, at, run, Fail, w, id);
        QuietRecord(n, at, run, NeedsAttention, w, id);
        if run.phase.Settling? { QuietRecord(n, at, run, run.phase.action, w, id); }
        QuietUpdate(n, at, run.(phase := PollerSteps.Settling(NeedsAttention)), id);
        QuietUpdate(n, at, run.(phase := Reserving), id);
        QuietUpdate(n, at, run.(phase := BackingOff, attempt := run.attempt + 1), id);
      }
    }
  }

  lemma QuietReserve(n: Node, at: Id, serial: nat, reply: AttemptReply, id: Id)
    ensures Quiet(n, OnAttempt(n, at, serial, reply), id) && Quiet(n, OnReserveWake(n, at, serial), id)
  {
    hide Quiet;
    QuietSame(n, id);
    if at in n.inFlight {
      var run := n.inFlight[at];
      QuietEnd(n, at, run, id);
      if !Recorded(run) {
        QuietUpdate(n, at, run.(phase := ReserveCheck), id);
        QuietUpdate(n, at, run.(phase := ReserveSleep), id);
        QuietUpdate(n, at, run.(phase := Reserving), id);
        QuietUpdate(n, at, run.(phase := BackingOff, attempt := run.attempt + 1), id);
      }
    }
  }

  lemma QuietHandOff(n: Node, at: Id, handed: bool, id: Id)
    ensures Quiet(n, HandedOff(n, at, handed), id)
  {}

  predicate OfRun(e: Event) {
    !e.Listing? && !e.TickStarted? && !e.FlushAnswer? && !e.Crashed?
  }

  lemma QuietStep(n: Node, e: Event, now: int, id: Id)
    requires OfRun(e)
    ensures Quiet(n, Handle(n, e, now), id)
  {
    hide Quiet, HandedOff, OnClaim, OnRunning, OnAnnounced, OnReturn, OnThrow, OnSettled, OnAttempt, OnReserveWake,
      OnReserveChecked, OnBackedOff, OnDelivered, OnPauseOver, OnHeartbeat, OnDeadline;
    match e
    case HandOffDone(at, handed) => QuietHandOff(n, at, handed, id);
    case ClaimAnswer(at, serial, claim) => QuietStart(n, at, serial, claim, true, now, id);
    case RunningAnswer(at, serial, ok) => QuietStart(n, at, serial, Denied, ok, now, id);
    case Announced(at, serial) => QuietStart(n, at, serial, Denied, true, now, id);
    case AgentReturned(at, serial, w) => QuietAgent(n, at, serial, GiveUp, w, id);
    case AgentThrew(at, serial, failure, w) => QuietAgent(n, at, serial, failure, w, id);
    case Settled(at, serial, w) => QuietAgent(n, at, serial, GiveUp, w, id);
    case AttemptAnswer(at, serial, attempt) => QuietReserve(n, at, serial, attempt, id);
    case ReserveWake(at, serial) => QuietReserve(n, at, serial, Refused, id);
    case ReserveChecked(at, serial, w) => QuietAgent(n, at, serial, GiveUp, w, id);
    case BackedOff(at, serial) => QuietStart(n, at, serial, Denied, true, now, id);
    case ResultAnswer(at, serial, reply) => QuietAnswered(n, at, serial, reply, id);
    case PauseOver(at, serial) => QuietAnswered(n, at, serial, Retry, id);
    case HeartbeatAnswer(at, serial, lease) => QuietLease(n, at, serial, lease, now, id);
    case DeadlineFired(at) => QuietLease(n, at, 0, NoAnswer, now, id);
  }

  /** Every step keeps the ids of a pass apart, and a listing that arrives during a pass was already
      being fetched when the pass began. */
  lemma PassKept(n: Node, e: Event, now: int)
    requires PassOk(n)
    ensures PassOk(Handle(n, e, now))
    ensures n.flushing.Some? && Handle(n, e, now).flushing.Some? ==> Handle(n, e, now).fetches <= n.fetches
  {
    if OfRun(e) {
      QuietStep(n, e, now, 0);
    } else if e.TickStarted? {
      if n.flushing.None? && Snapshot(n.pending, e.snapshot) {
        AdvancePass(n.(waiting := n.waiting + 1), e.snapshot);
      }
    } else if e.FlushAnswer? {
      if Awaiting(n, e.id) {
        AdvancePass(if e.reply.Retry? then n else Remove(n, e.id), n.flushing.value[1..]);
      }
    } else if e.Listing? {
      if n.fetches > 0 {
        IntakeKeepsPass(n.(fetches := n.fetches - 1), e.items, e.max);
      }
    }
  }

  lemma {:induction false} IntakeKeepsPass(n: Node, items: seq<Listed>, max: nat)
    ensures var n' := Intake(n, items, max); n'.flushing == n.flushing && n'.waiting == n.waiting && n'.fetches == n.fetches
    decreases |items|
  {
    if items != [] {
      IntakeKeepsPass(Consider(n, items[0], max > 0 && |n.inFlight| >= max), items[1..], max);
    }
  }

  lemma {:induction false} PassAlways(n: Node, events: Schedule)
    requires PassOk(n)
    ensures PassOk(RunAll(n, events))
  {
    hide Handle, PassOk;
    if events != [] {
      PassAlways(n, events[..|events| - 1]);
      PassKept(RunAll(n, events[..|events| - 1]), events[|events| - 1].0, events[|events| - 1].1);
    }
  }

  /** An answer to the entry itself takes the pass past it. */
  lemma AnsweredLeaves(n: Node, id: Id, reply: Delivery, rest: seq<WorkResult>)
    requires PassOk(n) && InPass(n, rest) && rest != [] && rest[0].id == id
    requires InPass(FlushReply(n, id, reply), rest)
    ensures !Awaiting(n, id)
  {
    if Awaiting(n, id) {
      var q := n.flushing.value;
      assert q[|q| - |rest|] == rest[0];
      assert q == rest;
      AdvancePass(if reply.Retry? then n else Remove(n, id), q[1..]);
    }
  }

  // ---- When nothing can go wrong -----------------------------------------------

  /** The entry is kept as it was, and no run can bring another result. */
  predicate Settled(n: Node, r: WorkResult) {
    r.id in n.pending && n.pending[r.id] == r && (r.id in n.inFlight ==> GivenUp(n.inFlight[r.id]))
  }

  /** No listing is being fetched, so whatever happens to the entry no other result takes its place. */
  predicate NoneComing(n: Node, r: WorkResult) {
    n.fetches == 0 && (r.id in n.pending ==> n.pending[r.id] == r) && (r.id in n.inFlight ==> Recorded(n.inFlight[r.id]))
  }

  lemma ListingSettled(n: Node, items: seq<Listed>, max: nat, r: WorkResult)
    requires Settled(n, r)
    ensures Settled(Fetched(n, items, max), r)
  {
    if n.fetches > 0 {
      IntakeOnlyAdds(n.(fetches := n.fetches - 1), items, max);
    }
  }

  lemma FlushSettled(n: Node, id: Id, reply: Delivery, rest: seq<WorkResult>)
    requires PassOk(n) && rest != [] && InPass(n, rest) && Settled(n, rest[0])
    requires InPass(FlushReply(n, id, reply), rest)
    ensures Settled(FlushReply(n, id, reply), rest[0])
  {
    if id == rest[0].id {
      AnsweredLeaves(n, id, reply, rest);
    }
    FlushKeepsRuns(n, id, reply);
  }

  lemma StaysSettled(n: Node, e: Event, now: int, rest: seq<WorkResult>)
    requires PassOk(n) && rest != [] && InPass(n, rest) && Settled(n, rest[0])
    requires InPass(Handle(n, e, now), rest)
    ensures Settled(Handle(n, e, now), rest[0])
  {
    if OfRun(e) {
      hide Handle;
      QuietStep(n, e, now, rest[0].id);
    } else if e.FlushAnswer? {
      FlushSettled(n, e.id, e.reply, rest);
    } else if e.Listing? {
      ListingSettled(n, e.items, e.max, rest[0]);
    } else if e.TickStarted? {
      TickSame(n, e.snapshot);
    }
  }

  lemma FlushKeepsRuns(n: Node, id: Id, reply: Delivery)
    ensures var n' := FlushReply(n, id, reply);
      n'.inFlight == n.inFlight && n'.pending == if Awaiting(n, id) && !reply.Retry? then n.pending - {id} else n.pending
  {
    if Awaiting(n, id) {
      AdvanceSame(if reply.Retry? then n else Remove(n, id), n.flushing.value[1..]);
    }
  }

  lemma StaysNoneComing(n: Node, e: Event, now: int, rest: seq<WorkResult>)
    requires PassOk(n) && rest != [] && InPass(n, rest) && NoneComing(n, rest[0])
    requires InPass(Handle(n, e, now), rest)
    ensures NoneComing(Handle(n, e, now), rest[0])
  {
    var r := rest[0];
    PassKept(n, e, now);
    if OfRun(e) {
      hide Handle;
      QuietStep(n, e, now, r.id);
    } else if e.FlushAnswer? {
      FlushKeepsRuns(n, e.id, e.reply);
    } else if e.TickStarted? {
      TickSame(n, e.snapshot);
    }
  }

  lemma {:induction false} SettledWithin(n: Node, events: Schedule, rest: seq<WorkResult>)
    requires PassOk(n) && rest != [] && Settled(n, rest[0]) && WithinPass(n, events, rest)
    ensures Settled(RunAll(n, events), rest[0])
  {
    hide PassOk, Handle, Settled, InPass;
    if events != [] {
      var m := |events| - 1;
      assert forall k :: 0 <= k <= m ==> events[..m][..k] == events[..k];
      SettledWithin(n, events[..m], rest);
      PassAlways(n, events[..m]);
      assert events[..m + 1] == events;
      StaysSettled(RunAll(n, events[..m]), events[m].0, events[m].1, rest);
    }
  }

  lemma {:induction false} NoneComingWithin(n: Node, events: Schedule, rest: seq<WorkResult>)
    requires PassOk(n) && rest != [] && NoneComing(n, rest[0]) && WithinPass(n, events, rest)
    ensures NoneComing(RunAll(n, events), rest[0])
  {
    hide PassOk, Handle, NoneComing, InPass;
    if events != [] {
      var m := |events| - 1;
      assert forall k :: 0 <= k <= m ==> events[..m][..k] == events[..k];
      NoneComingWithin(n, events[..m], rest);
      PassAlways(n, events[..m]);
      assert events[..m + 1] == events;
      StaysNoneComing(RunAll(n, events[..m]), events[m].0, events[m].1, rest);
    }
  }

  // ---- When something can go wrong ---------------------------------------------

  /** m is reached from n by steps during which the pass has not come past rest. */
  ghost predicate Leads(n: Node, m: Node, rest: seq<WorkResult>) {
    exists events: Schedule :: WithinPass(n, events, rest) && RunAll(n, events) == m
  }

  lemma LeadsSelf(n: Node, rest: seq<WorkResult>)
    requires InPass(n, rest)
    ensures Leads(n, n, rest)
  {
    var none: Schedule := [];
    assert RunAll(n, none) == n && none[..0] == none;
    assert WithinPass(n, none, rest);
  }

  lemma LeadsOn(n: Node, m: Node, e: Event, rest: seq<WorkResult>)
    requires Leads(n, m, rest) && InPass(Handle(m, e, 0), rest)
    ensures Leads(n, Handle(m, e, 0), rest)
  {
    hide Handle, InPass;
    var events: Schedule :| WithinPass(n, events, rest) && RunAll(n, events) == m;
    var more := events + [(e, 0)];
    assert more[..|events|] == events && more[..|more|] == more;
    forall k | 0 <= k <= |more| ensures InPass(RunAll(n, more[..k]), rest) {
      assert k <= |events| ==> more[..k] == events[..k];
    }
  }

  /** Item id is neither run nor recorded, and a listing is being fetched. */
  predicate Free(n: Node, id: Id) {
    id !in n.inFlight && id !in n.pending && n.fetches > 0
  }

  predicate OwnsResult(n: Node, id: Id) {
    id in n.inFlight && (n.inFlight[id].phase.Delivering? || (n.inFlight[id].phase.Pausing? && n.inFlight[id].state.Active?))
  }

  /** The result of the run in flight is answered as lost: nothing of the item is left. */
  lemma FirstAnswered(n: Node, m: Node, rest: seq<WorkResult>, id: Id) returns (m': Node)
    requires Leads(n, m, rest) && InPass(m, rest) && OwnsResult(m, id) && m.fetches > 0
    ensures Leads(n, m', rest) && InPass(m', rest) && Free(m', id)
  {
    hide Leads, EndsWith, Save, OnClaim, OnRunning, OnAnnounced, OnReturn, OnThrow, OnSettled, OnAttempt, OnReserveWake,
      OnReserveChecked, OnBackedOff, OnHeartbeat, OnDeadline, TickBegin, FlushReply, Crash, Fetched, HandedOff;
    var serial := m.inFlight[id].serial;
    var m1 := m;
    if m.inFlight[id].phase.Pausing? {
      m1 := Handle(m, PauseOver(id, serial), 0);
      LeadsOn(n, m, PauseOver(id, serial), rest);
    }
    m' := Handle(m1, ResultAnswer(id, serial, LostClaim), 0);
    SaveKeeps(m1.(pending := m1.pending - {id}), Written);
    LeadsOn(n, m1, ResultAnswer(id, serial, LostClaim), rest);
  }

  lemma SaveKeeps(n: Node, w: Write)
    ensures Save(n, w) == n.(disk := Save(n, w).disk)
  {}

  lemma OneListed(n: Node, id: Id)
    requires Free(n, id) && id !in n.handingOff
    ensures Fetched(n, [Listed(id, true, false)], 0) ==
      Update(n.(fetches := n.fetches - 1), id, Fresh(n.nextSerial)).(nextSerial := n.nextSerial + 1)
  {
    var items := [Listed(id, true, false)];
    assert items[1..] == [];
    var n1 := n.(fetches := n.fetches - 1);
    var n2 := Consider(n1, items[0], false);
    assert n2 == Update(n1, id, Fresh(n1.nextSerial)).(nextSerial := n1.nextSerial + 1);
    assert Intake(n2, [], 0) == n2;
    assert Intake(n1, items, 0) == Intake(n2, items[1..], 0);
  }

  /** The item is listed again, claimed and run to a second result, which its run does not get answered. */
  lemma SecondTakenIn(n: Node, m: Node, rest: seq<WorkResult>, id: Id) returns (m': Node)
    requires Leads(n, m, rest) && InPass(m, rest) && Free(m, id)
    ensures Leads(n, m', rest) && InPass(m', rest)
    ensures id in m'.inFlight && m'.inFlight[id].phase == Claiming && m'.inFlight[id].state == Active && id !in m'.pending
  {
    hide Leads, EndsWith, Fetched, OnClaim, OnRunning, OnAnnounced, OnReturn, OnThrow, OnSettled, OnAttempt, OnReserveWake,
      OnPauseOver, OnReserveChecked, OnBackedOff, OnDelivered, OnHeartbeat, OnDeadline, TickBegin, FlushReply, Crash;
    var m1 := Handle(m, HandOffDone(id, false), 0);
    LeadsOn(n, m, HandOffDone(id, false), rest);
    var e := Listing([Listed(id, true, false)], 0);
    OneListed(m1, id);
    m' := Handle(m1, e, 0);
    LeadsOn(n, m1, e, rest);
  }

  lemma SecondRuns(n: Node, m: Node, rest: seq<WorkResult>, id: Id, token: Token) returns (m': Node)
    requires Leads(n, m, rest) && InPass(m, rest) && id !in m.pending
    requires id in m.inFlight && m.inFlight[id].phase == Claiming && m.inFlight[id].state == Active
    ensures Leads(n, m', rest) && InPass(m', rest) && id in m'.inFlight
    ensures var run := m'.inFlight[id]; run.phase == Executing && run.state == Active && run.token == Some(token)
  {
    hide Leads, EndsWith, HandedOff, Fetched, OnReturn, OnThrow, OnSettled, OnAttempt, OnReserveWake, OnPauseOver,
      OnReserveChecked, OnBackedOff, OnDelivered, OnHeartbeat, OnDeadline, TickBegin, FlushReply, Crash;
    var serial := m.inFlight[id].serial;
    var claim := ClaimAnswer(id, serial, Claimed(Some(token), Some(1000), 1, 0));
    assert TimerDelay(1000) == 900;
    var m1 := Handle(m, claim, 0);
    LeadsOn(n, m, claim, rest);
    var m2 := Handle(m1, RunningAnswer(id, serial, true), 0);
    LeadsOn(n, m1, RunningAnswer(id, serial, true), rest);
    m' := Handle(m2, Announced(id, serial), 0);
    LeadsOn(n, m2, Announced(id, serial), rest);
  }

  lemma SecondKept(n: Node, m: Node, rest: seq<WorkResult>, id: Id) returns (m': Node)
    requires Leads(n, m, rest) && InPass(m, rest) && id in m.inFlight
    requires m.inFlight[id].phase == Executing && m.inFlight[id].state == Active && m.inFlight[id].token.Some?
    ensures Leads(n, m', rest) && InPass(m', rest) && id !in m'.inFlight
    ensures id in m'.pending && m'.pending[id] == WorkResult(id, m.inFlight[id].token, Complete)
  {
    hide Leads, EndsWith, Save, HandedOff, Fetched, OnClaim, OnRunning, OnAnnounced, OnThrow, OnSettled, OnAttempt, OnReserveWake,
      OnReserveChecked, OnBackedOff, OnDeadline, TickBegin, FlushReply, Crash;
    var serial := m.inFlight[id].serial;
    var m1 := Handle(m, AgentReturned(id, serial, Written), 0);
    SaveKeeps(m.(pending := m.pending[id := WorkResult(id, m.inFlight[id].token, Complete)]), Written);
    LeadsOn(n, m, AgentReturned(id, serial, Written), rest);
    var m2 := Handle(m1, HeartbeatAnswer(id, serial, Revoked(false)), 0);
    LeadsOn(n, m1, HeartbeatAnswer(id, serial, Revoked(false)), rest);
    var m3 := Handle(m2, ResultAnswer(id, serial, Retry), 0);
    LeadsOn(n, m2, ResultAnswer(id, serial, Retry), rest);
    m' := Handle(m3, PauseOver(id, serial), 0);
    LeadsOn(n, m3, PauseOver(id, serial), rest);
  }

  lemma {:induction false} AdvanceReaches(n: Node, queue: seq<WorkResult>, rest: seq<WorkResult>)
    requires rest != [] && EndsWith(queue, rest) && rest[0].id !in n.inFlight
    ensures InPass(Advance(n, queue), rest) && |Advance(n, queue).flushing.value| <= |queue|
  {
    assert queue[0..] == queue;
    if queue[0].id in n.inFlight {
      assert queue[1..][|queue| - 1 - |rest|..] == queue[|queue| - |rest|..];
      AdvanceReaches(n, queue[1..], rest);
    }
  }

  /** The entries before it are answered with nothing, and the pass comes to the entry and sends it. */
  lemma {:induction false} PassReaches(n: Node, m: Node, rest: seq<WorkResult>) returns (m': Node)
    requires Leads(n, m, rest) && InPass(m, rest) && rest != [] && rest[0].id !in m.inFlight
    ensures Leads(n, m', rest) && m'.flushing == Some(rest) && m'.pending == m.pending
    decreases |m.flushing.value|
  {
    hide Leads;
    var q := m.flushing.value;
    if |q| == |rest| {
      assert q[0..] == q;
      m' := m;
    } else {
      assert q[1..][|q| - 1 - |rest|..] == q[|q| - |rest|..];
      AdvanceReaches(m, q[1..], rest);
      AdvanceSame(m, q[1..]);
      LeadsOn(n, m, FlushAnswer(q[0].id, Retry), rest);
      m' := PassReaches(n, Handle(m, FlushAnswer(q[0].id, Retry), 0), rest);
    }
  }

  lemma BadSchedule(n: Node, rest: seq<WorkResult>) returns (events: Schedule)
    requires rest != [] && InPass(n, rest) && (OwnsResult(n, rest[0].id) || Free(n, rest[0].id)) && n.fetches > 0
    ensures Overtakes(n, events, rest)
  {
    hide Leads, InPass, OwnsResult, Free;
    var r := rest[0];
    var token := if r.token == Some(0) then 1 else 0;
    LeadsSelf(n, rest);
    var m1 := n;
    if OwnsResult(n, r.id) { m1 := FirstAnswered(n, n, rest, r.id); }
    var m2 := SecondTakenIn(n, m1, rest, r.id);
    var m3 := SecondRuns(n, m2, rest, r.id, token);
    var m4 := SecondKept(n, m3, rest, r.id);
    var m5 := PassReaches(n, m4, rest);
    events := TheSchedule(n, m5, rest);
  }

  lemma TheSchedule(n: Node, m: Node, rest: seq<WorkResult>) returns (events: Schedule)
    requires Leads(n, m, rest)
    ensures WithinPass(n, events, rest) && RunAll(n, events) == m
  {
    events :| WithinPass(n, events, rest) && RunAll(n, events) == m;
  }

  // ---- The exact condition -------------------------------------------------------

  /** The entry is kept as it was, or it was answered and removed and no other run of its item has begun. */
  predicate FirstOnly(n: Node, r: WorkResult) {
    if r.id in n.pending then n.pending[r.id] == r else r.id !in n.inFlight
  }

  /** A pass waits, with an entry of its snapshot still to come, and nothing newer of its item is there. It can
      come to await the answer to that entry while another result of the item is kept, which the answer
      then removes, just when a listing is being fetched that was asked for before the pass began and
      the entry is gone or the run that owns it can still get it answered. A run that lost its lease
      while it paused leaves its entry alone, and so does everything else. */
  lemma PassRemovesAnotherJustWhen(n: Node, rest: seq<WorkResult>)
    requires Inv(n) && PassOk(n) && rest != [] && InPass(n, rest) && FirstOnly(n, rest[0])
    ensures (exists events: Schedule :: Overtakes(n, events, rest)) <==>
      n.fetches > 0 && (rest[0].id in n.pending ==> OwnsResult(n, rest[0].id))
  {
    var id := rest[0].id;
    if id in n.inFlight {
      OwnerRecorded(n, id);
    }
    if n.fetches > 0 && (id in n.pending ==> OwnsResult(n, id)) {
      var events := BadSchedule(n, rest);
    } else {
      forall events: Schedule ensures !Overtakes(n, events, rest) {
        if WithinPass(n, events, rest) {
          if n.fetches == 0 {
            NoneComingWithin(n, events, rest);
          } else {
            SettledWithin(n, events, rest);
          }
        }
      }
    }
  }

  lemma OwnerRecorded(n: Node, id: Id)
    requires Inv(n) && id in n.pending && id in n.inFlight
    ensures Recorded(n.inFlight[id])
  {
    assert RunOk(n, id, n.inFlight[id]);
  }

  // ---- It happens ----------------------------------------------------------------

  const OTHER := WorkResult(8, None, Fail)
  const FIRST := WorkResult(7, Some(1), Complete)
  const START := Boot(true, map[8 := OTHER])

  ghost predicate Reached(n: Node) {
    exists events: Schedule :: RunAll(START, events) == n
  }

  lemma ReachedOn(n: Node, e: Event)
    requires Reached(n)
    ensures Reached(Handle(n, e, 0))
  {
    hide Handle;
    var events: Schedule :| RunAll(START, events) == n;
    var more := events + [(e, 0)];
    assert more[..|events|] == events;
    assert RunAll(START, more) == Handle(n, e, 0);
  }

  /** Two ticks waited for a pass and fetch their listings. */
  lemma TwoFetching() returns (n: Node)
    ensures Reached(n) && n == START.(fetches := 2)
  {
    var none: Schedule := [];
    assert RunAll(START, none) == START;
    var n1 := Handle(START, TickStarted([OTHER]), 0);
    assert Snapshot(START.pending, [OTHER]);
    ReachedOn(START, TickStarted([OTHER]));
    assert n1.flushing == Some([OTHER]) && n1.waiting == 1;
    var n2 := Handle(n1, TickStarted([]), 0);
    ReachedOn(n1, TickStarted([]));
    assert [OTHER][1..] == [];
    n := Handle(n2, FlushAnswer(8, Retry), 0);
    ReachedOn(n2, FlushAnswer(8, Retry));
  }

  /** One of the listings brings item 7, which is claimed and run to its result. */
  lemma SevenClaimed(n: Node) returns (n': Node)
    requires Reached(n) && n == START.(fetches := 2)
    ensures Reached(n') && n'.pending == n.pending && n'.fetches == 1 && n'.flushing.None? && n'.inFlight.Keys == {7}
    ensures var run := n'.inFlight[7];
      run.serial == 0 && run.phase == Starting && run.state == Active && run.token == Some(1)
  {
    hide Reached, HandedOff, Fetched, OnRunning, OnAnnounced, OnReturn, OnThrow, OnSettled, OnAttempt, OnReserveWake, OnPauseOver,
      OnReserveChecked, OnBackedOff, OnDelivered, OnHeartbeat, OnDeadline, TickBegin, FlushReply, Crash;
    OneListed(n, 7);
    var e := Listing([Listed(7, true, false)], 0);
    var n1 := Handle(n, e, 0);
    ReachedOn(n, e);
    var claim := ClaimAnswer(7, 0, Claimed(Some(1), Some(1000), 1, 0));
    assert TimerDelay(1000) == 900;
    n' := Handle(n1, claim, 0);
    ReachedOn(n1, claim);
  }

  lemma SevenDelivering(n: Node) returns (n': Node)
    requires Reached(n) && n.fetches == 1 && n.flushing.None? && n.inFlight.Keys == {7}
    requires var run := n.inFlight[7];
      run.serial == 0 && run.phase == Starting && run.state == Active && run.token == Some(1)
    ensures Reached(n') && n'.pending == n.pending[7 := FIRST] && n'.fetches == 1 && n'.flushing.None?
    ensures n'.inFlight.Keys == {7} && n'.inFlight[7].phase == Delivering && n'.inFlight[7].state == Active
  {
    hide Reached, Save, HandedOff, Fetched, OnClaim, OnThrow, OnSettled, OnAttempt, OnReserveWake, OnPauseOver, OnReserveChecked,
      OnBackedOff, OnDelivered, OnHeartbeat, OnDeadline, TickBegin, FlushReply, Crash;
    var n3 := Handle(n, RunningAnswer(7, 0, true), 0);
    ReachedOn(n, RunningAnswer(7, 0, true));
    var n4 := Handle(n3, Announced(7, 0), 0);
    ReachedOn(n3, Announced(7, 0));
    SaveKeeps(n4.(pending := n4.pending[7 := FIRST]), Written);
    n' := Handle(n4, AgentReturned(7, 0, Written), 0);
    ReachedOn(n4, AgentReturned(7, 0, Written));
  }

  lemma PassBegun(n: Node) returns (n': Node)
    requires Reached(n) && n.pending == map[8 := OTHER, 7 := FIRST] && n.fetches == 1 && n.flushing.None?
    requires n.inFlight.Keys == {7} && n.inFlight[7].phase == Delivering
    ensures Reached(n') && InPass(n', [FIRST]) && n'.pending == n.pending && n'.fetches == 1 && OwnsResult(n', 7)
  {
    hide Reached;
    assert |n.pending.Keys| == 2 by { assert n.pending.Keys == {8, 7}; }
    assert |n.pending| == |n.pending.Keys|;
    assert Snapshot(n.pending, [OTHER, FIRST]);
    n' := Handle(n, TickStarted([OTHER, FIRST]), 0);
    ReachedOn(n, TickStarted([OTHER, FIRST]));
    assert n'.flushing == Some([OTHER, FIRST]) && [OTHER, FIRST][1..] == [FIRST];
  }

  /** The condition occurs, and the pass then does what it should not: from a start with one kept
      result, three overlapping ticks and one lost claim lead to a state in which the answer to the
      first result of item 7 is awaited and, arriving, removes the second, which nobody answered. */
  lemma StaleSnapshot() returns (n: Node, events: Schedule)
    ensures Reached(n) && Overtakes(n, events, [FIRST])
    ensures var n' := RunAll(n, events);
      7 in n'.pending && n'.pending[7] != FIRST && 7 !in Handle(n', FlushAnswer(7, LostClaim), 0).pending
  {
    hide Reached, InPass, OwnsResult, Overtakes;
    var n1 := TwoFetching();
    var n2 := SevenClaimed(n1);
    var n3 := SevenDelivering(n2);
    n := PassBegun(n3);
    events := BadSchedule(n, [FIRST]);
    OvertakesEnds(n, events, [FIRST]);
    OvertakenRemoves(RunAll(n, events), [FIRST]);
  }

  lemma OvertakesEnds(n: Node, events: Schedule, rest: seq<WorkResult>)
    requires Overtakes(n, events, rest)
    ensures Overtaken(RunAll(n, events), rest)
  {}

  lemma OvertakenRemoves(n: Node, rest: seq<WorkResult>)
    requires Overtaken(n, rest)
    ensures rest[0].id !in Handle(n, FlushAnswer(rest[0].id, LostClaim), 0).pending
  {
    FlushKeepsRuns(n, rest[0].id, LostClaim);
  }
}
