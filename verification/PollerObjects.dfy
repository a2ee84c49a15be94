/** The poller and its outbox as the objects the source has, updated in place; each method is one
    synchronous stretch between two awaits and is proved to take the step of the same name. */
module PollerObjects {
  import opened Wrappers
  import opened Numbers
  import opened PollerSteps
  import opened PollerSafety

  /** A row of the outbox file as parsed: None where the field is missing or not one of its values. */
  datatype Row = Row(id: Option<Id>, token: Option<Token>, action: Option<Action>)

  predicate GoodRow(r: Row) {
    r.id.Some? && r.action.Some?
  }

  /** Later rows win over earlier ones with the same id. */
  function Rows(rows: seq<Row>): map<Id, WorkResult>
    requires forall r :: r in rows ==> GoodRow(r)
  {
    if rows == [] then map[]
    else
      var last := rows[|rows| - 1];
      assert last in rows && GoodRow(last);
      Rows(rows[..|rows| - 1])[last.id.value := WorkResult(last.id.value, last.token, last.action.value)]
  }

  class WorkResultOutbox {
    const durable: bool
    var pending: map<Id, WorkResult>
    var disk: map<Id, WorkResult>

    /** Without a directory nothing is ever read or written. */
    constructor (directory: bool, file: map<Id, WorkResult>)
      ensures durable == directory
      ensures pending == disk == if directory then file else map[]
    {
      durable := directory;
      pending := if directory then file else map[];
      disk := if directory then file else map[];
    }

    method Put(result: WorkResult, w: Write) returns (threw: bool)
      modifies this
      ensures pending == old(pending)[result.id := result]
      ensures disk == if durable && w != ThrewBefore then pending else old(disk)
      ensures threw == (durable && w != Written)
    {
      pending := pending[result.id := result];
      threw := Flush(w);
    }

    method Remove(id: Id, w: Write) returns (threw: bool)
      modifies this
      ensures pending == old(pending) - {id}
      ensures disk == if durable && w != ThrewBefore then pending else old(disk)
      ensures threw == (durable && w != Written)
    {
      pending := pending - {id};
      threw := Flush(w);
    }

    /** Every entry once. */
    method List() returns (s: seq<WorkResult>)
      requires forall id :: id in pending ==> pending[id].id == id
      ensures Snapshot(pending, s)
    {
      s := [];
      var left := pending.Keys;
      while left != {}
        invariant left <= pending.Keys && |s| + |left| == |pending.Keys|
        invariant forall i :: 0 <= i < |s| ==> s[i].id in pending && s[i].id !in left && pending[s[i].id] == s[i]
        invariant forall i, j :: 0 <= i < j < |s| ==> s[i].id != s[j].id
        decreases |left|
      {
        var id :| id in left;
        left := left - {id};
        s := s + [pending[id]];
      }
      assert |pending| == |pending.Keys|;
    }

    /** Write a temporary file, sync it, rename it over the old one, sync the directory. */
    method Flush(w: Write) returns (threw: bool)
      modifies `disk
      ensures disk == if durable && w != ThrewBefore then pending else old(disk)
      ensures threw == (durable && w != Written)
    {
      if !durable { return false; }
      if w == ThrewBefore { return true; }
      disk := pending;
      return w == ThrewAfter;
    }
  }

  predicate LastOf(rows: seq<Row>, id: Id, k: int) {
    0 <= k < |rows| && rows[k].id == Some(id) && forall j :: k < j < |rows| ==> rows[j].id != Some(id)
  }

  lemma RowsNext(rows: seq<Row>, last: Row)
    requires GoodRow(last) && forall r :: r in rows ==> GoodRow(r)
    ensures forall r :: r in rows + [last] ==> GoodRow(r)
    ensures Rows(rows + [last]) == Rows(rows)[last.id.value := WorkResult(last.id.value, last.token, last.action.value)]
  {
    assert (rows + [last])[..|rows|] == rows;
  }

  lemma LastOfNext(rows: seq<Row>, last: Row, id: Id, k: int)
    ensures LastOf(rows + [last], id, k) <==> if last.id == Some(id) then k == |rows| else LastOf(rows, id, k)
  {
    assert (rows + [last])[|rows|] == last && forall j :: 0 <= j < |rows| ==> (rows + [last])[j] == rows[j];
  }

  /** An id is in the file just when a row has it, with the token and action of its last row. */
  lemma {:induction false} LastRowWins(rows: seq<Row>, id: Id)
    requires forall r :: r in rows ==> GoodRow(r)
    ensures id in Rows(rows) <==> exists k :: LastOf(rows, id, k)
    ensures forall k :: LastOf(rows, id, k) ==>
      id in Rows(rows) && rows[k] in rows && Rows(rows)[id] == WorkResult(id, rows[k].token, rows[k].action.value)
  {
    if rows != [] {
      var n := |rows| - 1;
      var init, last := rows[..n], rows[n];
      assert rows == init + [last] && last in rows;
      assert forall r :: r in init ==> r in rows;
      LastRowWins(init, id);
      RowsNext(init, last);
      forall k ensures LastOf(rows, id, k) <==> if last.id == Some(id) then k == n else LastOf(init, id, k) {
        LastOfNext(init, last, id, k);
      }
      hide Rows, LastOf;
      assert LastOf(rows, id, n) || last.id != Some(id);
      forall k | LastOf(rows, id, k)
        ensures id in Rows(rows) && 0 <= k < |rows| && rows[k] in rows && Rows(rows)[id] == WorkResult(id, rows[k].token, rows[k].action.value)
      {
        InRows(rows, id, k);
      }
    }
  }

  lemma InRows(rows: seq<Row>, id: Id, k: int)
    requires LastOf(rows, id, k)
    ensures 0 <= k < |rows| && rows[k] in rows
  {}

  /** The constructor's reload: one malformed row refuses the whole file. */
  method ParseRows(rows: seq<Row>) returns (file: Option<map<Id, WorkResult>>)
    ensures file.None? <==> exists k :: 0 <= k < |rows| && !GoodRow(rows[k])
    ensures file.Some? ==> (forall r :: r in rows ==> GoodRow(r)) && file.value == Rows(rows)
    ensures file.Some? ==> forall id :: id in file.value ==> file.value[id].id == id
  {
    for i := 0 to |rows|
      invariant forall k :: 0 <= k < i ==> GoodRow(rows[k])
    {
      if !GoodRow(rows[i]) { return None; }
    }
    var m: map<Id, WorkResult> := map[];
    for i := 0 to |rows|
      invariant m == Rows(rows[..i])
      invariant forall id :: id in m ==> m[id].id == id
    {
      assert rows[..i + 1][..i] == rows[..i];
      var r := rows[i];
      m := m[r.id.value := WorkResult(r.id.value, r.token, r.action.value)];
    }
    assert rows[..|rows|] == rows;
    return Some(m);
  }

  class Poller {
    const outbox: WorkResultOutbox
    var inFlight: map<Id, Run>
    var flushing: Option<seq<WorkResult>>
    var waiting: nat
    var fetches: nat
    var handingOff: set<Id>
    var keepHere: set<Id>
    var nextSerial: nat
    ghost var finished: seq<(Id, Run)>

    ghost function State(): Node
      reads this, outbox
    {
      Node(outbox.durable, inFlight, outbox.pending, outbox.disk, flushing, waiting, fetches, handingOff, keepHere, nextSerial, finished)
    }

    ghost predicate Valid()
      reads this, outbox
    {
      Inv(State())
    }

    /** A started program with the outbox as it was reloaded. */
    constructor (box: WorkResultOutbox)
      requires box.pending == box.disk && (!box.durable ==> box.disk == map[]) && GoodFile(box.disk)
      ensures outbox == box && State() == Boot(box.durable, box.disk) && Valid()
    {
      outbox := box;
      inFlight, flushing, waiting, fetches := map[], None, 0, 0;
      handingOff, keepHere, nextSerial, finished := {}, {}, 0, [];
      new;
      BootOk(box.durable, box.disk);
    }

    /** The pass goes on to the next entry it can send, or ends. */
    method AdvancePass(queue: seq<WorkResult>)
      modifies `flushing, `waiting, `fetches
      ensures State() == Advance(old(State()), queue)
    {
      var q := queue;
      while q != [] && q[0].id in inFlight
        invariant Advance(State(), q) == Advance(State(), queue) && State() == old(State())
        decreases |q|
      {
        q := q[1..];
      }
      if q == [] {
        flushing, fetches, waiting := None, fetches + waiting, 0;
      } else {
        flushing := Some(q);
      }
    }

    /** tick up to its first await; snapshot: what the outbox lists. */
    method TickStarts(snapshot: seq<WorkResult>)
      requires Valid() && (flushing.None? ==> Snapshot(outbox.pending, snapshot))
      modifies this
      ensures Valid() && State() == TickBegin(old(State()), snapshot) && Guarded(old(State()), State(), {})
    {
      hide Inv, Guarded, Advance;
      Stepped(State(), TickStarted(snapshot), 0);
      waiting := waiting + 1;
      if flushing.None? {
        AdvancePass(snapshot);
      }
    }

    method Tick() returns (snapshot: seq<WorkResult>)
      requires Valid()
      modifies this
      ensures Snapshot(outbox.pending, snapshot)
      ensures Valid() && State() == TickBegin(old(State()), snapshot) && Guarded(old(State()), State(), {})
    {
      hide Guarded, RunOk, Counted, TickBegin;
      snapshot := outbox.List();
      TickStarts(snapshot);
    }

    /** The synchronous loop of tick over a listing that arrived. */
    method ListingArrives(items: seq<Listed>, max: nat)
      requires Valid()
      modifies this
      ensures Valid() && State() == Fetched(old(State()), items, max) && Guarded(old(State()), State(), {})
    {
      hide Inv, Guarded;
      Stepped(State(), Listing(items, max), 0);
      if fetches > 0 {
        fetches := fetches - 1;
        TakeIn(items, max);
      }
    }

    method TakeIn(items: seq<Listed>, max: nat)
      modifies this
      ensures State() == Intake(old(State()), items, max)
    {
      var k := 0;
      while k < |items|
        invariant 0 <= k <= |items|
        invariant Intake(State(), items[k..], max) == Intake(old(State()), items, max)
      {
        var item := items[k];
        assert items[k..][1..] == items[k + 1..];
        k := k + 1;
        if item.id in inFlight || item.id in outbox.pending || item.id in handingOff { continue; }
        if item.handOff && item.id !in keepHere {
          handingOff := handingOff + {item.id};
          continue;
        }
        if !item.eligible { continue; }
        if max > 0 && |inFlight| >= max { return; }
        inFlight := inFlight[item.id := Fresh(nextSerial)];
        nextSerial := nextSerial + 1;
      }
    }

    method HandOffSettled(id: Id, handed: bool)
      requires Valid()
      modifies this
      ensures Valid() && State() == HandedOff(old(State()), id, handed) && Guarded(old(State()), State(), {})
    {
      hide Inv, Guarded;
      Stepped(State(), HandOffDone(id, handed), 0);
      if id !in handingOff { return; }
      handingOff := handingOff - {id};
      if !handed { keepHere := keepHere + {id}; }
    }

    /** The finally clause of runOne. */
    method EndRun(id: Id)
      requires id in inFlight
      modifies this
      ensures State() == End(old(State()), id, old(inFlight[id]))
    {
      finished := finished + [(id, inFlight[id])];
      inFlight := inFlight - {id};
    }

    /** finishWork up to its first await. */
    method FinishWork(id: Id, action: Action, w: Write)
      requires id in inFlight
      modifies this, outbox
      ensures State() == Finish(old(State()), id, old(inFlight[id]), action, w)
    {
      var run := inFlight[id];
      var result := WorkResult(id, run.token, action);
      inFlight := inFlight[id := run.(phase := Delivering, puts := run.puts + [result])];
      var threw := outbox.Put(result, w);
      if threw {
        EndRun(id);
        assert old(inFlight) - {id} == inFlight;
      }
    }

    method LoseRun(id: Id)
      requires id in inFlight
      modifies this
      ensures State() == Update(old(State()), id, Lose(old(inFlight[id])))
    {
      if inFlight[id].state != Active { return; }
      inFlight := inFlight[id := inFlight[id].(state := Lost)];
    }

    /** Clears the old timer; sets a new one that ends with the lease, or loses the run at once. */
    method SetDeadline(id: Id, expiry: Option<int>, now: int)
      requires id in inFlight
      modifies this
      ensures State() == Update(old(State()), id, SetLeaseDeadline(old(inFlight[id]), expiry, now))
    {
      var run := inFlight[id];
      if expiry == None && run.token == None { return; }
      var remaining := if expiry.Some? then expiry.value - now else 0;
      inFlight := inFlight[id := run.(deadline := None)];
      if remaining <= 0 { LoseRun(id); return; }
      inFlight := inFlight[id := run.(deadline := Some(now + TimerDelay(remaining)))];
    }

    method ClaimAnswered(id: Id, serial: nat, reply: ClaimReply, now: int)
      requires Valid()
      modifies this
      ensures Valid() && State() == OnClaim(old(State()), id, serial, reply, now)
      ensures Guarded(old(State()), State(), {})
    {
      hide Inv, Guarded;
      Stepped(State(), ClaimAnswer(id, serial, reply), now);
      if !(id in inFlight && inFlight[id].serial == serial && inFlight[id].phase == Claiming) { return; }
      if reply.Denied? || inFlight[id].state != Active { EndRun(id); return; }
      var first: nat := Max(1, reply.attempt);
      var run := inFlight[id].(token := reply.token, phase := Starting,
        start := first, attempt := first, limit := Limit(reply.maxAttempts));
      inFlight := inFlight[id := run];
      SetDeadline(id, reply.expiry, now);
      assert inFlight == old(inFlight)[id := SetLeaseDeadline(run, reply.expiry, now)];
    }

    method RunningAnswered(id: Id, serial: nat, ok: bool)
      requires Valid()
      modifies this
      ensures Valid() && State() == OnRunning(old(State()), id, serial, ok)
      ensures Guarded(old(State()), State(), {})
    {
      hide Inv, Guarded;
      Stepped(State(), RunningAnswer(id, serial, ok), 0);
      if !(id in inFlight && inFlight[id].serial == serial && inFlight[id].phase == Starting) { return; }
      if !ok || inFlight[id].state != Active { EndRun(id); return; }
      inFlight := inFlight[id := inFlight[id].(phase := Announcing)];
    }

    /** The head of runWithPolicy's loop: runItem is called if the run is still active. */
    method NextAttempt(id: Id, serial: nat, from: Phase)
      requires from == Announcing || from == BackingOff
      requires Valid()
      modifies this
      ensures Valid() && State() == (if from == Announcing then OnAnnounced(old(State()), id, serial) else OnBackedOff(old(State()), id, serial))
      ensures Guarded(old(State()), State(), {})
    {
      hide Inv, Guarded;
      Stepped(State(), if from == Announcing then Announced(id, serial) else BackedOff(id, serial), 0);
      if !(id in inFlight && inFlight[id].serial == serial && inFlight[id].phase == from) { return; }
      if inFlight[id].state != Active { EndRun(id); return; }
      var run := inFlight[id];
      inFlight := inFlight[id := run.(phase := Executing, calls := run.calls + [run.attempt])];
    }

    method AgentReturns(id: Id, serial: nat, w: Write)
      requires Valid()
      modifies this, outbox
      ensures Valid() && State() == OnReturn(old(State()), id, serial, w)
      ensures Guarded(old(State()), State(), {})
    {
      hide Inv, Guarded;
      Stepped(State(), AgentReturned(id, serial, w), 0);
      if !(id in inFlight && inFlight[id].serial == serial && inFlight[id].phase == Executing) { return; }
      if inFlight[id].state != Active { EndRun(id); return; }
      FinishWork(id, Complete, w);
    }

    /** The catch clause of runWithPolicy up to its first await. */
    method AgentThrows(id: Id, serial: nat, failure: Failure, w: Write)
      requires Valid()
      modifies this, outbox
      ensures Valid() && State() == OnThrow(old(State()), id, serial, failure, w)
      ensures Guarded(old(State()), State(), {})
    {
      hide Inv, Guarded;
      Stepped(State(), AgentThrew(id, serial, failure, w), 0);
      if !(id in inFlight && inFlight[id].serial == serial && inFlight[id].phase == Executing) { return; }
      var run := inFlight[id];
      if id in outbox.pending { EndRun(id); return; }
      if run.state != Active { EndRun(id); return; }
      match failure
      case FilterError | AdmissionError | Park =>
        inFlight := inFlight[id := run.(phase := Settling(NeedsAttention))];
      case RetryOrReroute =>
        if run.attempt >= run.limit {
          inFlight := inFlight[id := run.(phase := Settling(NeedsAttention))];
        } else if run.token.Some? {
          inFlight := inFlight[id := run.(phase := Reserving)];
        } else {
          inFlight := inFlight[id := run.(phase := BackingOff, attempt := run.attempt + 1)];
        }
      case GiveUp =>
        FinishWork(id, Fail, w);
    }

    method ReportSettled(id: Id, serial: nat, w: Write)
      requires Valid()
      modifies this, outbox
      ensures Valid() && State() == OnSettled(old(State()), id, serial, w)
      ensures Guarded(old(State()), State(), {})
    {
      hide Inv, Guarded;
      Stepped(State(), Settled(id, serial, w), 0);
      if !(id in inFlight && inFlight[id].serial == serial && inFlight[id].phase.Settling?) { return; }
      if inFlight[id].state != Active { EndRun(id); return; }
      FinishWork(id, inFlight[id].phase.action, w);
    }

    method AttemptAnswered(id: Id, serial: nat, reply: AttemptReply)
      requires Valid()
      modifies this
      ensures Valid() && State() == OnAttempt(old(State()), id, serial, reply)
      ensures Guarded(old(State()), State(), {})
    {
      hide Inv, Guarded;
      Stepped(State(), AttemptAnswer(id, serial, reply), 0);
      if !(id in inFlight && inFlight[id].serial == serial && inFlight[id].phase == Reserving) { return; }
      var run := inFlight[id];
      if reply == Refused {
        inFlight := inFlight[id := run.(phase := ReserveCheck)];
        return;
      }
      if run.state != Active { EndRun(id); return; }
      if reply.Granted? && reply.attempt == run.attempt + 1 {
        inFlight := inFlight[id := run.(phase := BackingOff, attempt := reply.attempt)];
      } else {
        inFlight := inFlight[id := run.(phase := ReserveSleep)];
      }
    }

    method ReserveAgain(id: Id, serial: nat)
      requires Valid()
      modifies this
      ensures Valid() && State() == OnReserveWake(old(State()), id, serial)
      ensures Guarded(old(State()), State(), {})
    {
      hide Inv, Guarded;
      Stepped(State(), ReserveWake(id, serial), 0);
      if !(id in inFlight && inFlight[id].serial == serial && inFlight[id].phase == ReserveSleep) { return; }
      if inFlight[id].state != Active { EndRun(id); return; }
      inFlight := inFlight[id := inFlight[id].(phase := Reserving)];
    }

    method RefusalChecked(id: Id, serial: nat, w: Write)
      requires Valid()
      modifies this, outbox
      ensures Valid() && State() == OnReserveChecked(old(State()), id, serial, w)
      ensures Guarded(old(State()), State(), {})
    {
      hide Inv, Guarded;
      Stepped(State(), ReserveChecked(id, serial, w), 0);
      if !(id in inFlight && inFlight[id].serial == serial && inFlight[id].phase == ReserveCheck) { return; }
      if inFlight[id].state != Active { EndRun(id); return; }
      FinishWork(id, NeedsAttention, w);
    }

    method ResultAnswered(id: Id, serial: nat, reply: Delivery)
      requires Valid()
      modifies this, outbox
      ensures Valid() && State() == OnDelivered(old(State()), id, serial, reply)
      ensures Guarded(old(State()), State(), if reply == Retry then {} else {id})
    {
      hide Inv, Guarded;
      Stepped(State(), ResultAnswer(id, serial, reply), 0);
      if !(id in inFlight && inFlight[id].serial == serial && inFlight[id].phase == Delivering) { return; }
      if reply != Retry {
        var threw := outbox.Remove(id, Written);
        EndRun(id);
      } else if inFlight[id].token == None {
        EndRun(id);
      } else {
        inFlight := inFlight[id := inFlight[id].(phase := Pausing)];
      }
    }

    method DeliverAgain(id: Id, serial: nat)
      requires Valid()
      modifies this
      ensures Valid() && State() == OnPauseOver(old(State()), id, serial)
      ensures Guarded(old(State()), State(), {})
    {
      hide Inv, Guarded;
      Stepped(State(), PauseOver(id, serial), 0);
      if !(id in inFlight && inFlight[id].serial == serial && inFlight[id].phase == Pausing) { return; }
      if inFlight[id].state != Active { EndRun(id); return; }
      inFlight := inFlight[id := inFlight[id].(phase := Delivering)];
    }

    /** checkLease once the reply is there; replies to an earlier run of the item are dropped. */
    method HeartbeatAnswered(id: Id, serial: nat, reply: LeaseReply, now: int)
      requires Valid()
      modifies this
      ensures Valid() && State() == OnHeartbeat(old(State()), id, serial, reply, now)
      ensures Guarded(old(State()), State(), {})
    {
      hide Inv, Guarded;
      Stepped(State(), HeartbeatAnswer(id, serial, reply), now);
      if !(id in inFlight && inFlight[id].serial == serial && inFlight[id].state == Active) { return; }
      match reply
      case Renewed(expiry) => SetDeadline(id, expiry, now);
      case Revoked(cancelled) =>
        inFlight := inFlight[id := inFlight[id].(state := if cancelled then Cancelled else Lost)];
      case NoAnswer =>
    }

    method TimerFires(id: Id, now: int)
      requires Valid()
      modifies this
      ensures Valid() && State() == OnDeadline(old(State()), id, now)
      ensures Guarded(old(State()), State(), {})
    {
      hide Inv, Guarded;
      Stepped(State(), DeadlineFired(id), now);
      if !(id in inFlight && Due(inFlight[id], now)) { return; }
      inFlight := inFlight[id := inFlight[id].(deadline := None)];
      LoseRun(id);
      assert inFlight == old(inFlight)[id := Lose(old(inFlight[id]).(deadline := None))];
    }

    /** The head of the snapshot is answered. */
    method FlushAnswered(id: Id, reply: Delivery)
      requires Valid()
      modifies this, outbox
      ensures Valid() && State() == FlushReply(old(State()), id, reply)
      ensures Guarded(old(State()), State(), if reply == Retry then {} else {id})
    {
      hide Inv, Guarded, Advance;
      Stepped(State(), FlushAnswer(id, reply), 0);
      if !(flushing.Some? && flushing.value != [] && flushing.value[0].id == id) { return; }
      if reply != Retry {
        var threw := outbox.Remove(id, Written);
      }
      AdvancePass(flushing.value[1..]);
    }

    // ---- Any schedule --------------------------------------------------------

    /** Events of a run up to its result. */
    method DispatchAttempt(e: Event, now: int)
      requires Valid() && OfAttempt(e)
      modifies this, outbox
      ensures Valid() && State() == Handle(old(State()), e, now) && Guarded(old(State()), State(), {})
    {
      hide Inv, Guarded, Fetched, HandedOff, OnClaim, OnRunning, OnAnnounced, OnReturn, OnThrow, OnSettled, OnAttempt,
        OnReserveWake, OnReserveChecked, OnBackedOff, OnDelivered, OnPauseOver, OnHeartbeat, OnDeadline, TickBegin, FlushReply,
        Crash;
      match e
      case ClaimAnswer(id, serial, claim) => ClaimAnswered(id, serial, claim, now);
      case RunningAnswer(id, serial, ok) => RunningAnswered(id, serial, ok);
      case Announced(id, serial) => NextAttempt(id, serial, Announcing);
      case AgentReturned(id, serial, w) => AgentReturns(id, serial, w);
      case AgentThrew(id, serial, failure, w) => AgentThrows(id, serial, failure, w);
      case Settled(id, serial, w) => ReportSettled(id, serial, w);
      case AttemptAnswer(id, serial, attempt) => AttemptAnswered(id, serial, attempt);
      case ReserveWake(id, serial) => ReserveAgain(id, serial);
      case ReserveChecked(id, serial, w) => RefusalChecked(id, serial, w);
      case BackedOff(id, serial) => NextAttempt(id, serial, BackingOff);
    }

    /** Events of the queue, of leases and of results. */
    method DispatchOther(e: Event, now: int)
      requires Valid() && Fits(State(), e) && !OfAttempt(e)
      modifies this, outbox
      ensures Valid() && State() == Handle(old(State()), e, now) && Guarded(old(State()), State(), AnsweredBy(e))
    {
      hide Inv, Guarded, Fetched, HandedOff, OnClaim, OnRunning, OnAnnounced, OnReturn, OnThrow, OnSettled, OnAttempt,
        OnReserveWake, OnReserveChecked, OnBackedOff, OnDelivered, OnPauseOver, OnHeartbeat, OnDeadline, TickBegin, FlushReply,
        Crash;
      match e
      case Listing(items, max) => ListingArrives(items, max);
      case HandOffDone(id, handed) => HandOffSettled(id, handed);
      case ResultAnswer(id, serial, reply) => ResultAnswered(id, serial, reply);
      case PauseOver(id, serial) => DeliverAgain(id, serial);
      case HeartbeatAnswer(id, serial, lease) => HeartbeatAnswered(id, serial, lease, now);
      case DeadlineFired(id) => TimerFires(id, now);
      case TickStarted(snapshot) => TickStarts(snapshot);
      case FlushAnswer(id, reply) => FlushAnswered(id, reply);
    }

    method Dispatch(e: Event, now: int)
      requires Valid() && Fits(State(), e)
      modifies this, outbox
      ensures Valid() && State() == Handle(old(State()), e, now) && Guarded(old(State()), State(), AnsweredBy(e))
    {
      hide Inv, Guarded, Handle;
      if OfAttempt(e) {
        DispatchAttempt(e, now);
      } else {
        DispatchOther(e, now);
      }
    }

    /** Whatever events reach the object, in any order: it keeps every result that is not answered, and
        does not run its item again. */
    method Drive(events: seq<(Event, int)>)
      requires Valid() && AllFit(State(), events)
      modifies this, outbox
      ensures Valid() && State() == RunAll(old(State()), events)
      ensures forall id :: id in old(outbox.pending) && Unanswered(events, id) ==>
        id in outbox.pending && NeverCalled(old(State()), events, id)
    {
      hide Inv, Guarded, Handle, NeverCalled;
      ghost var start := State();
      for k := 0 to |events|
        invariant Valid() && State() == RunAll(start, events[..k])
      {
        assert events[..k + 1][..k] == events[..k];
        Dispatch(events[k].0, events[k].1);
      }
      assert events[..|events|] == events;
      forall id | id in start.pending && Unanswered(events, id) ensures id in outbox.pending && NeverCalled(start, events, id) {
        NeverRunAgain(start, events, id);
      }
    }
  }

  predicate OfAttempt(e: Event) {
    e.ClaimAnswer? || e.RunningAnswer? || e.Announced? || e.AgentReturned? || e.AgentThrew? || e.Settled? ||
    e.AttemptAnswer? || e.ReserveWake? || e.ReserveChecked? || e.BackedOff?
  }

  /** Not a restart, and a tick that begins a pass takes what the outbox lists. */
  ghost predicate Fits(n: Node, e: Event) {
    !e.Crashed? && (e.TickStarted? && n.flushing.None? ==> Snapshot(n.pending, e.snapshot))
  }

  ghost predicate AllFit(n: Node, events: seq<(Event, int)>) {
    forall k :: 0 <= k < |events| ==> !events[k].0.Crashed? && Fits(RunAll(n, events[..k]), events[k].0)
  }

  ghost predicate Unanswered(events: seq<(Event, int)>, id: Id) {
    forall k :: 0 <= k < |events| ==> !Answers(events[k].0, id)
  }
}
