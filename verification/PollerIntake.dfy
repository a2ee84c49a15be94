/** Which listed items a tick takes in: the eligible ones that are free, in order, up to the cap; and what an answer does
    to the outbox. */
module PollerIntake {
  import opened Wrappers
  import opened PollerSteps
  import opened PollerSafety

  /** Neither at work, nor with a result, nor being handed to another machine. */
  predicate Idle(n: Node, id: Id) {
    id !in n.inFlight && id !in n.pending && id !in n.handingOff
  }

  /** To be offered to another machine first. */
  predicate Offers(n: Node, item: Listed) {
    Idle(n, item.id) && item.handOff && item.id !in n.keepHere
  }

  predicate Wanted(n: Node, item: Listed) {
    Idle(n, item.id) && item.eligible && !(item.handOff && item.id !in n.keepHere)
  }

  function WantedBefore(n: Node, items: seq<Listed>, i: nat): nat
    requires i <= |items|
  {
    if i == 0 then 0 else WantedBefore(n, items, i - 1) + if Wanted(n, items[i - 1]) then 1 else 0
  }

  predicate Distinct(items: seq<Listed>) {
    forall i, j :: 0 <= i < j < |items| ==> items[i].id != items[j].id
  }

  /** There is room for one more after k were taken in; no cap when it is 0. */
  predicate Room(n: Node, max: nat, k: nat) {
    max == 0 || |n.inFlight| + k < max
  }

  predicate Started(n: Node, items: seq<Listed>, i: nat, id: Id)
    requires i <= |items|
  {
    exists j :: 0 <= j < i && items[j].id == id && Wanted(n, items[j])
  }

  predicate Offered(n: Node, items: seq<Listed>, i: nat, id: Id)
    requires i <= |items|
  {
    exists j :: 0 <= j < i && items[j].id == id && Offers(n, items[j])
  }

  lemma OneFurther(n: Node, items: seq<Listed>, i: nat, id: Id)
    requires i < |items|
    ensures Started(n, items, i + 1, id) <==> Started(n, items, i, id) || (items[i].id == id && Wanted(n, items[i]))
    ensures Offered(n, items, i + 1, id) <==> Offered(n, items, i, id) || (items[i].id == id && Offers(n, items[i]))
  {
    hide Wanted, Offers;
  }

  /** What is known after i items, when the loop has not ended. */
  ghost predicate Sofar(n: Node, items: seq<Listed>, i: nat, m: Node)
    requires i <= |items|
  {
    (forall id :: id in m.inFlight <==> id in n.inFlight || Started(n, items, i, id)) &&
    (forall id :: id in n.inFlight ==> id in m.inFlight && m.inFlight[id] == n.inFlight[id]) &&
    (forall id :: id in m.inFlight && id !in n.inFlight ==> m.inFlight[id].phase == Claiming && m.inFlight[id].state == Active) &&
    (forall id :: id in m.handingOff <==> id in n.handingOff || Offered(n, items, i, id)) &&
    |m.inFlight| == |n.inFlight| + WantedBefore(n, items, i) && m.pending == n.pending && m.keepHere == n.keepHere
  }

  lemma SameIdle(n: Node, items: seq<Listed>, i: nat, m: Node)
    requires Distinct(items) && i < |items| && Sofar(n, items, i, m)
    ensures Idle(m, items[i].id) <==> Idle(n, items[i].id)
  {
    hide WantedBefore;
  }

  lemma OneMoreRun(flight: map<Id, Run>, id: Id, run: Run)
    requires id !in flight
    ensures |flight[id := run]| == |flight| + 1
  {
    assert flight[id := run].Keys == flight.Keys + {id};
    assert |flight[id := run]| == |flight[id := run].Keys| && |flight| == |flight.Keys|;
  }

  lemma WantedFacts(n: Node, items: seq<Listed>, i: nat)
    requires i < |items| && Wanted(n, items[i])
    ensures WantedBefore(n, items, i + 1) == WantedBefore(n, items, i) + 1
    ensures Idle(n, items[i].id) && !Offers(n, items[i])
  {}

  lemma OneWanted(n: Node, items: seq<Listed>, i: nat, m: Node)
    requires Distinct(items) && i < |items| && Sofar(n, items, i, m) && Wanted(n, items[i])
    ensures Sofar(n, items, i + 1, Update(m, items[i].id, Fresh(m.nextSerial)).(nextSerial := m.nextSerial + 1))
  {
    hide Wanted, WantedBefore, Distinct, Started, Offered, Offers;
    var id := items[i].id;
    WantedFacts(n, items, i);
    SameIdle(n, items, i, m);
    OneMoreRun(m.inFlight, id, Fresh(m.nextSerial));
    forall k ensures Started(n, items, i + 1, k) <==> Started(n, items, i, k) || k == id { OneFurther(n, items, i, k); }
    forall k ensures Offered(n, items, i + 1, k) <==> Offered(n, items, i, k) { OneFurther(n, items, i, k); }
  }

  lemma OneOther(n: Node, items: seq<Listed>, i: nat, m: Node)
    requires Distinct(items) && i < |items| && Sofar(n, items, i, m) && !Wanted(n, items[i])
    ensures Sofar(n, items, i + 1, if Offers(n, items[i]) then m.(handingOff := m.handingOff + {items[i].id}) else m)
  {
    assert WantedBefore(n, items, i + 1) == WantedBefore(n, items, i);
    hide Distinct, Idle, Started, Offered, Offers, Wanted, WantedBefore;
    forall k ensures Started(n, items, i + 1, k) <==> Started(n, items, i, k) { OneFurther(n, items, i, k); }
    forall k ensures Offered(n, items, i + 1, k) <==> Offered(n, items, i, k) || (k == items[i].id && Offers(n, items[i])) {
      OneFurther(n, items, i, k);
    }
  }

  lemma ConsiderIs(n: Node, item: Listed, m: Node, full: bool)
    requires (Idle(m, item.id) <==> Idle(n, item.id)) && m.keepHere == n.keepHere && !(full && Wanted(n, item))
    ensures Consider(m, item, full) ==
      if Wanted(n, item) then Update(m, item.id, Fresh(m.nextSerial)).(nextSerial := m.nextSerial + 1)
      else if Offers(n, item) then m.(handingOff := m.handingOff + {item.id})
      else m
  {}

  lemma SameHere(n: Node, items: seq<Listed>, i: nat, m: Node)
    requires i <= |items| && Sofar(n, items, i, m)
    ensures m.keepHere == n.keepHere
  {}

  lemma OneItem(n: Node, items: seq<Listed>, i: nat, m: Node, full: bool)
    requires Distinct(items) && i < |items| && Sofar(n, items, i, m) && !(full && Wanted(n, items[i]))
    ensures Sofar(n, items, i + 1, Consider(m, items[i], full))
  {
    hide *;
    SameIdle(n, items, i, m);
    SameHere(n, items, i, m);
    ConsiderIs(n, items[i], m, full);
    if Wanted(n, items[i]) { OneWanted(n, items, i, m); } else { OneOther(n, items, i, m); }
  }

  lemma Stops(n: Node, items: seq<Listed>, i: nat, m: Node, max: nat)
    requires Distinct(items) && i < |items| && Sofar(n, items, i, m)
    ensures var full := max > 0 && |m.inFlight| >= max;
      (full <==> !Room(n, max, WantedBefore(n, items, i))) &&
      Intake(m, items[i..], max) ==
        if full && Wanted(n, items[i]) then m else Intake(Consider(m, items[i], full), items[i + 1..], max)
  {
    SameIdle(n, items, i, m);
    assert m.keepHere == n.keepHere && |m.inFlight| == |n.inFlight| + WantedBefore(n, items, i);
    assert items[i..][1..] == items[i + 1..];
    hide Sofar, Distinct;
  }

  lemma {:induction false} TheLoop(n: Node, items: seq<Listed>, max: nat, i: nat, m: Node) returns (end: nat)
    requires Distinct(items) && i <= |items| && Sofar(n, items, i, m)
    ensures i <= end <= |items| && Sofar(n, items, end, Intake(m, items[i..], max))
    ensures forall j :: i <= j < end && Wanted(n, items[j]) ==> Room(n, max, WantedBefore(n, items, j))
    ensures end < |items| ==> Wanted(n, items[end]) && !Room(n, max, WantedBefore(n, items, end))
    decreases |items| - i
  {
    hide Sofar, Distinct, Wanted, Consider, Room;
    if i == |items| {
      end := i;
    } else {
      var full := max > 0 && |m.inFlight| >= max;
      Stops(n, items, i, m, max);
      if full && Wanted(n, items[i]) {
        end := i;
      } else {
        OneItem(n, items, i, m, full);
        end := TheLoop(n, items, max, i + 1, Consider(m, items[i], full));
      }
    }
  }

  lemma NothingYet(n: Node, items: seq<Listed>)
    ensures Sofar(n, items, 0, n)
  {}

  /** The loop over a listing of different items ends before the first wanted one without room, if there is one. Up to
      there it starts exactly the wanted items, in order and under the cap, and offers elsewhere exactly those to be
      offered; runs in progress, results and everything else stay. */
  lemma TakenIn(n: Node, items: seq<Listed>, max: nat) returns (end: nat)
    requires Distinct(items)
    ensures end <= |items| && Sofar(n, items, end, Intake(n, items, max))
    ensures forall j :: 0 <= j < end && Wanted(n, items[j]) ==> Room(n, max, WantedBefore(n, items, j))
    ensures end < |items| ==> Wanted(n, items[end]) && !Room(n, max, WantedBefore(n, items, end))
  {
    hide Sofar, Distinct, Wanted, Room;
    NothingYet(n, items);
    assert items[0..] == items;
    end := TheLoop(n, items, max, 0, n);
  }

  // ---- Answers -----------------------------------------------------------------

  /** An acknowledgement or a lost claim takes the result off the outbox, memory and file; nothing else does to a
      result that is sent by its run or by the pass. */
  lemma AnsweredIsGone(n: Node, e: Event, now: int)
    requires Inv(n) && ((e.ResultAnswer? && At(n, e.id, e.serial, Delivering)) || (e.FlushAnswer? && Awaiting(n, e.id)))
    ensures var n' := Handle(n, e, now);
      (!e.reply.Retry? ==> e.id !in n'.pending && (n.durable ==> n'.disk == n'.pending)) &&
      (e.reply.Retry? ==> n'.pending == n.pending && n'.disk == n.disk) &&
      (forall id :: id != e.id ==> (id in n'.pending <==> id in n.pending) && (id in n.pending ==> n'.pending[id] == n.pending[id]))
  {
    if e.FlushAnswer? { AdvanceOutbox(if e.reply.Retry? then n else Remove(n, e.id), n.flushing.value[1..]); }
    hide Inv, Advance;
  }

  lemma {:induction false} AdvanceOutbox(n: Node, queue: seq<WorkResult>)
    ensures Advance(n, queue).pending == n.pending && Advance(n, queue).disk == n.disk
  {
    if queue != [] && queue[0].id in n.inFlight { AdvanceOutbox(n, queue[1..]); }
  }

  // ---- How long a run has --------------------------------------------------------

  predicate TimedFor(run: Run, expiry: int, now: int) {
    run.deadline.Some? && run.deadline.value <= expiry &&
    (expiry - now >= 10000 ==> run.deadline.value == expiry - 1000) &&
    (2 <= expiry - now < 10000 ==> 10 * (run.deadline.value - now) <= 9 * (expiry - now) < 10 * (run.deadline.value - now) + 10)
  }

  lemma DeadlineTimes(run: Run, expiry: Option<int>, now: int)
    requires run.state == Active
    ensures var run' := SetLeaseDeadline(run, expiry, now);
      run'.token == run.token && Timed(run', run.token, expiry, now)
  {
    if expiry.Some? && expiry.value - now >= 1 { TimerWithinLease(expiry.value - now); }
    hide TimerDelay;
  }

  /** A claim and every renewal give an active run its time: to a second before the lease ends, or nine tenths of a
      shorter lease. With an expiry that is over, or none, a run with a token is lost at once. */
  lemma LeaseGivesTime(n: Node, id: Id, serial: nat, token: Option<Token>, expiry: Option<int>, attempt: int, max: int, now: int)
    ensures At(n, id, serial, Claiming) && n.inFlight[id].state == Active ==>
      var n' := Handle(n, ClaimAnswer(id, serial, Claimed(token, expiry, attempt, max)), now);
      id in n'.inFlight && Timed(n'.inFlight[id], token, expiry, now)
    ensures id in n.inFlight && n.inFlight[id].serial == serial && n.inFlight[id].state == Active ==>
      var n' := Handle(n, HeartbeatAnswer(id, serial, Renewed(expiry)), now);
      id in n'.inFlight && Timed(n'.inFlight[id], n.inFlight[id].token, expiry, now)
  {
    if id in n.inFlight && n.inFlight[id].state == Active {
      var run, first := n.inFlight[id], if attempt > 1 then attempt else 1;
      DeadlineTimes(run.(token := token, phase := Starting, start := first, attempt := first, limit := Limit(max)), expiry, now);
      DeadlineTimes(run, expiry, now);
    }
    hide SetLeaseDeadline, Timed, Limit;
  }

  predicate Timed(run: Run, token: Option<Token>, expiry: Option<int>, now: int) {
    run.token == token &&
    if expiry.Some? && expiry.value > now then run.state == Active && TimedFor(run, expiry.value, now)
    else token.Some? || expiry.Some? ==> run.state == Lost && run.deadline.None?
  }

  // ---- What ends a run -----------------------------------------------------------

  /** The claim was denied or the transition to running rejected; the result was answered, or needs no answer for want of
      a token; or the outbox could not be written. */
  predicate EndsRun(n: Node, e: Event, run: Run) {
    (e.ClaimAnswer? && run.phase == Claiming && e.claim.Denied?) ||
    (e.RunningAnswer? && run.phase == Starting && !e.ok) ||
    (e.ResultAnswer? && run.phase == Delivering && (!e.reply.Retry? || run.token.None?)) ||
    ((e.AgentReturned? || e.AgentThrew? || e.Settled? || e.ReserveChecked?) && Throws(n, e.w))
  }

  predicate StillThere(n: Node, n': Node, id: Id) {
    id in n.inFlight && n.inFlight[id].state == Active ==> id in n'.inFlight
  }

  lemma QueueKeepsRuns(n: Node, e: Event, now: int, id: Id)
    requires e.Listing? || e.TickStarted? || e.FlushAnswer? || e.HandOffDone?
    ensures StillThere(n, Handle(n, e, now), id)
  {
    if e.Listing? {
      IntakeOnlyAdds(n.(fetches := if n.fetches > 0 then n.fetches - 1 else 0), e.items, e.max);
    } else if e.TickStarted? {
      AdvanceSame(n.(waiting := n.waiting + 1), e.snapshot);
    } else if e.FlushAnswer? && Awaiting(n, e.id) {
      AdvanceSame(if e.reply.Retry? then n else Remove(n, e.id), n.flushing.value[1..]);
    }
    hide Intake, Advance, Snapshot;
  }

  lemma StartKeepsRun(n: Node, e: Event, now: int, id: Id)
    requires e.ClaimAnswer? || e.RunningAnswer? || e.Announced? || e.BackedOff? || e.ReserveWake? || e.PauseOver?
    ensures !StillThere(n, Handle(n, e, now), id) ==> EndsRun(n, e, n.inFlight[id])
  {
    hide SetLeaseDeadline;
  }

  lemma LeaseKeepsRun(n: Node, e: Event, now: int, id: Id)
    requires e.HeartbeatAnswer? || e.DeadlineFired? || e.AttemptAnswer?
    ensures StillThere(n, Handle(n, e, now), id)
  {
    hide SetLeaseDeadline;
  }

  lemma WorkKeepsRun(n: Node, e: Event, now: int, id: Id)
    requires id in n.inFlight ==> RunOk(n, id, n.inFlight[id])
    requires e.AgentReturned? || e.AgentThrew? || e.Settled? || e.ReserveChecked? || e.ResultAnswer?
    ensures !StillThere(n, Handle(n, e, now), id) ==> EndsRun(n, e, n.inFlight[id])
  {
    hide Counted;
  }

  /** An active run goes on until one of these, or a crash: an unavailable or odd reply never ends it. */
  lemma RunEndsOnlyBy(n: Node, e: Event, now: int, id: Id)
    requires Inv(n) && id in n.inFlight && n.inFlight[id].state == Active && id !in Handle(n, e, now).inFlight
    ensures e.Crashed? || EndsRun(n, e, n.inFlight[id])
  {
    assert RunOk(n, id, n.inFlight[id]);
    hide Handle, Inv, RunOk, EndsRun;
    match e
    case Listing(_, _) => QueueKeepsRuns(n, e, now, id);
    case TickStarted(_) => QueueKeepsRuns(n, e, now, id);
    case FlushAnswer(_, _) => QueueKeepsRuns(n, e, now, id);
    case HandOffDone(_, _) => QueueKeepsRuns(n, e, now, id);
    case HeartbeatAnswer(_, _, _) => LeaseKeepsRun(n, e, now, id);
    case DeadlineFired(_) => LeaseKeepsRun(n, e, now, id);
    case AttemptAnswer(_, _, _) => LeaseKeepsRun(n, e, now, id);
    case AgentReturned(_, _, _) => WorkKeepsRun(n, e, now, id);
    case AgentThrew(_, _, _, _) => WorkKeepsRun(n, e, now, id);
    case Settled(_, _, _) => WorkKeepsRun(n, e, now, id);
    case ReserveChecked(_, _, _) => WorkKeepsRun(n, e, now, id);
    case ResultAnswer(_, _, _) => WorkKeepsRun(n, e, now, id);
    case Crashed =>
    case _ => StartKeepsRun(n, e, now, id);
  }

  /** An item that no other machine took is kept here: it is not offered again, and can be started here. */
  lemma NotTaken(n: Node, item: Listed, handed: bool)
    requires item.id in n.handingOff && item.id !in n.inFlight && item.id !in n.pending && item.eligible && item.handOff
    ensures var n' := HandedOff(n, item.id, handed);
      item.id !in n'.handingOff && n'.inFlight == n.inFlight &&
      (!handed ==> Wanted(n', item) && !Offers(n', item)) && (handed && item.id !in n.keepHere ==> Offers(n', item) && !Wanted(n', item))
  {}

  /** Each of these ends the run, and only an answer takes its result off the outbox: one that nobody acknowledged stays. */
  lemma TheseEndRuns(n: Node, e: Event, now: int)
    requires Inv(n) && (e.ClaimAnswer? || e.RunningAnswer? || e.ResultAnswer?)
    requires e.id in n.inFlight && n.inFlight[e.id].serial == e.serial && EndsRun(n, e, n.inFlight[e.id])
    ensures var n' := Handle(n, e, now);
      e.id !in n'.inFlight && ((e.ResultAnswer? && !e.reply.Retry?) || n'.pending == n.pending)
  {
    hide Inv;
  }

  /** A new process is one started on the file as it is: what was only in memory is gone, and nothing else. */
  lemma RestartReadsTheFile(n: Node, now: int)
    requires Inv(n)
    ensures var n', booted := Handle(n, Crashed, now), Boot(n.durable, n.disk);
      n' == booted.(nextSerial := n.nextSerial, finished := n.finished) &&
      forall id :: (id in n'.pending <==> id in n.disk) && (id in n.disk ==> n'.pending[id] == n.pending[id])
  {}

  // ---- The pass over the outbox ------------------------------------------------------

  /** The pass goes on after the first k entries of the queue: they belong to runs in flight, the next one does not and is
      sent; with none left the pass is over and every tick that waited fetches its listing. */
  predicate Passes(n: Node, queue: seq<WorkResult>, k: nat, n': Node) {
    k <= |queue| && (forall j :: 0 <= j < k ==> queue[j].id in n.inFlight) &&
    (if k == |queue| then n'.flushing == None && n'.fetches == n.fetches + n.waiting && n'.waiting == 0
     else queue[k].id !in n.inFlight && n'.flushing == Some(queue[k..]) && n'.fetches == n.fetches && n'.waiting == n.waiting)
  }

  lemma {:induction false} AdvancePasses(n: Node, queue: seq<WorkResult>) returns (k: nat)
    ensures Passes(n, queue, k, Advance(n, queue))
  {
    k := 0;
    if queue != [] && queue[0].id in n.inFlight {
      var rest := AdvancePasses(n, queue[1..]);
      k := rest + 1;
      assert queue[1..][rest..] == queue[k..];
    }
    assert k == 0 ==> queue[0..] == queue;
  }

  /** Whenever a tick begins a pass or an answer takes it on, the entry sent next is the first that no run owns. */
  lemma PassSendsUnowned(n: Node, e: Event, now: int) returns (k: nat)
    requires (e.TickStarted? && n.flushing.None? && Snapshot(n.pending, e.snapshot)) || (e.FlushAnswer? && Awaiting(n, e.id))
    ensures var queue := if e.TickStarted? then e.snapshot else n.flushing.value[1..];
      Passes(if e.TickStarted? then n.(waiting := n.waiting + 1) else n, queue, k, Handle(n, e, now))
  {
    if e.TickStarted? {
      k := AdvancePasses(n.(waiting := n.waiting + 1), e.snapshot);
    } else {
      var m := if e.reply.Retry? then n else Remove(n, e.id);
      k := AdvancePasses(m, n.flushing.value[1..]);
    }
    hide Advance, Snapshot;
  }
}
