/** Starting delegated runs: a chain of promises per session makes the starts of one session take
    turns, and inside its turn a start looks for a run with its key and counts the unsettled children.
    The backend lists every run there is, and a run a start has asked for is made before that start is
    answered, or never. */
module Delegation {
  import opened Wrappers
  import opened TextCodec
  import opened DelegationSource
  import opened DelegationStamp

  const MAX_CHILDREN: nat := 3

  /** got: the run the backend answers with, once it was asked; None: it refused. */
  datatype Phase =
    | Waiting
    | Listing(context: Context, seen: Option<seq<Run>>)
    | Starting(context: Context, asked: bool, got: Option<nat>)
    | Done

  /** One call of startRun; its number is also its promise's. key: empty without one. */
  datatype Call = Call(session: Id, key: Id, previous: Option<nat>, phase: Phase)

  /** settled: over, or parked until a person acts. History: whether the run settled and went on, and the
      session, context and key of the start that made it. */
  datatype Run = Run(name: Text, source: string, unique: Option<seq<nat>>, settled: bool, resumed: bool, made: Made)
  datatype Made = Made(session: Id, context: Context, key: Id)

  /** merges: whether the backend answers a start with the run that has its session and key already, as
      the control plane does. */
  datatype World = World(merges: bool, calls: seq<Call>, locks: map<Id, nat>, runs: seq<Run>)

  datatype Event =
    | Begin(session: Id, key: Id)
    | Enter(i: nat, parent: Option<Context>)
    | Look(i: nat)
    | Listed(i: nat, ok: bool)
    | Create(i: nat, name: Text)
    | Answered(i: nat, ok: bool)
    | Settle(k: nat)
    | Resume(k: nat)

  function Start(merges: bool): World {
    World(merges, [], map[], [])
  }

  /** An empty run id is no run id. */
  function Shorn(c: Context): Context {
    if c.run == Some([]) then c.(run := None) else c
  }

  predicate ChildOf(r: Run, session: Id) {
    var p := Parse(r.source);
    p.Some? && p.value.session == session
  }

  function Active(runs: seq<Run>, session: Id): nat {
    if runs == [] then 0
    else
      var last := runs[|runs| - 1];
      Active(runs[..|runs| - 1], session) + if ChildOf(last, session) && !last.settled then 1 else 0
  }

  predicate HasSource(runs: seq<Run>, source: string) {
    exists k :: 0 <= k < |runs| && runs[k].source == source
  }

  /** The first run with the source. */
  function WithSource(runs: seq<Run>, source: string): (k: Option<nat>)
    ensures k.Some? <==> HasSource(runs, source)
    ensures k.Some? ==> k.value < |runs| && runs[k.value].source == source
  {
    if runs == [] then None
    else
      var n := |runs| - 1;
      var k := WithSource(runs[..n], source);
      assert HasSource(runs[..n], source) <==> exists j :: 0 <= j < n && runs[j].source == source;
      if k.Some? then k else if runs[n].source == source then Some(n) else None
  }

  /** The run that already has what must be unique. */
  function WithUnique(runs: seq<Run>, unique: Option<seq<nat>>): (k: Option<nat>)
    ensures k.Some? ==> k.value < |runs| && runs[k.value].unique == unique
    ensures k.None? ==> forall j :: 0 <= j < |runs| ==> runs[j].unique != unique
  {
    if runs == [] then None
    else
      var n := |runs| - 1;
      var k := WithUnique(runs[..n], unique);
      if k.Some? then k else if runs[n].unique == unique then Some(n) else None
  }

  predicate NameTaken(runs: seq<Run>, name: Text) {
    exists k :: 0 <= k < |runs| && runs[k].name == name
  }

  // ---- The steps -----------------------------------------------------------------

  function SetPhase(w: World, i: nat, phase: Phase): World
    requires i < |w.calls|
  {
    w.(calls := w.calls[i := w.calls[i].(phase := phase)])
  }

  /** Release the promise; forget it if it is still the session's last. */
  function Leave(w: World, i: nat): World
    requires i < |w.calls|
  {
    var s := w.calls[i].session;
    SetPhase(w, i, Done).(locks := if s in w.locks && w.locks[s] == i then w.locks - {s} else w.locks)
  }

  predicate Released(w: World, previous: Option<nat>) {
    previous.Some? && previous.value < |w.calls| ==> w.calls[previous.value].phase.Done?
  }

  /** The listed run that has the call's key. */
  function Existing(call: Call, seen: seq<Run>): Option<nat>
    requires call.phase.Listing?
  {
    if call.key == [] then None else WithSource(seen, SourceOf(call.session, call.phase.context, call.key))
  }

  /** What the backend does with a start, under the name it would give a new run. */
  function Asked(w: World, i: nat, name: Text): World
    requires i < |w.calls| && w.calls[i].phase.Starting?
  {
    var call := w.calls[i];
    var c := call.phase.context;
    var ticket := Stamp(call.session, c, call.key);
    if ticket.None? then SetPhase(w, i, Starting(c, true, None))
    else
      var same := if w.merges && ticket.value.unique.Some? then WithUnique(w.runs, ticket.value.unique) else None;
      if same.Some? then SetPhase(w, i, Starting(c, true, same))
      else if NameTaken(w.runs, name) then w
      else
        SetPhase(w, i, Starting(c, true, Some(|w.runs|))).(
          runs := w.runs + [Run(name, ticket.value.source, ticket.value.unique, false, false, Made(call.session, c, call.key))])
  }

  /** Return the run that has the key, refuse when too many children are active, or go on. */
  function Choose(w: World, i: nat, seen: seq<Run>): World
    requires i < |w.calls| && w.calls[i].phase.Listing?
  {
    var call := w.calls[i];
    var c := call.phase.context;
    if Existing(call, seen).Some? then Leave(w, i)
    else if Active(seen, call.session) >= MAX_CHILDREN then Leave(w, i)
    else SetPhase(w, i, Starting(c, false, None))
  }

  function Do(w: World, e: Event): World {
    match e
    case Begin(session, key) =>
      if !GoodKey(key) then w
      else
        var previous := if session in w.locks then Some(w.locks[session]) else None;
        w.(calls := w.calls + [Call(session, key, previous, Waiting)], locks := w.locks[session := |w.calls|])
    case Enter(i, parent) =>
      if i >= |w.calls| || !w.calls[i].phase.Waiting? || !Released(w, w.calls[i].previous) then w
      else if parent.None? || Depth(parent.value) > MAX_DEPTH then Leave(w, i)
      else SetPhase(w, i, Listing(Shorn(parent.value), None))
    case Look(i) =>
      if i >= |w.calls| || !w.calls[i].phase.Listing? then w
      else SetPhase(w, i, w.calls[i].phase.(seen := Some(w.runs)))
    case Listed(i, ok) =>
      if i >= |w.calls| || !w.calls[i].phase.Listing? then w
      else if !ok then Leave(w, i)
      else if w.calls[i].phase.seen.None? then w
      else Choose(w, i, w.calls[i].phase.seen.value)
    case Create(i, name) =>
      if i >= |w.calls| || !w.calls[i].phase.Starting? || w.calls[i].phase.asked then w else Asked(w, i, name)
    case Answered(i, ok) =>
      if i >= |w.calls| || !w.calls[i].phase.Starting? || (ok && !w.calls[i].phase.asked) then w else Leave(w, i)
    case Settle(k) => if k >= |w.runs| then w else w.(runs := w.runs[k := Settled(w.runs[k])])
    case Resume(k) => if k >= |w.runs| || !w.runs[k].settled then w else w.(runs := w.runs[k := Resumed(w.runs[k])])
  }

  function Settled(r: Run): Run { r.(settled := true) }

  function Resumed(r: Run): Run { r.(settled := false, resumed := true) }

  function RunAll(merges: bool, events: seq<Event>): World {
    if events == [] then Start(merges) else Do(RunAll(merges, events[..|events| - 1]), events[|events| - 1])
  }

  // ---- Taking turns ----------------------------------------------------------------

  predicate IsDone(c: Call) { c.phase.Done? }

  /** All earlier calls of the session are done. */
  ghost predicate EarlierDone(calls: seq<Call>, i: nat, session: Id) {
    forall k :: 0 <= k < i && k < |calls| && calls[k].session == session ==> IsDone(calls[k])
  }

  /** A call waits for the last earlier call of its session, unless all of them were done. */
  ghost predicate LinkOk(calls: seq<Call>, i: nat)
    requires i < |calls|
  {
    match calls[i].previous
    case None => EarlierDone(calls, i, calls[i].session)
    case Some(j) =>
      j < i && calls[j].session == calls[i].session &&
      forall k :: j < k < i ==> calls[k].session != calls[i].session
  }

  /** The map names, for exactly the sessions with a call not done, the last of their calls. */
  ghost predicate LockOk(w: World, s: Id) {
    if s in w.locks then
      w.locks[s] < |w.calls| && w.calls[w.locks[s]].session == s && !IsDone(w.calls[w.locks[s]]) &&
      forall k :: w.locks[s] < k < |w.calls| ==> w.calls[k].session != s
    else EarlierDone(w.calls, |w.calls|, s)
  }

  ghost predicate TurnsOk(w: World) {
    (forall i :: 0 <= i < |w.calls| ==> LinkOk(w.calls, i)) &&
    (forall i :: 0 <= i < |w.calls| && !w.calls[i].phase.Waiting? ==> EarlierDone(w.calls, i, w.calls[i].session)) &&
    (forall s :: LockOk(w, s))
  }

  /** Steps inside a turn change one call's phase and nothing else about turns. */
  lemma PhaseTurns(w: World, w': World, i: nat, phase: Phase)
    requires TurnsOk(w) && i < |w.calls| && !IsDone(w.calls[i]) && !phase.Done?
    requires w'.locks == w.locks && w'.calls == w.calls[i := w.calls[i].(phase := phase)]
    requires phase.Waiting? || EarlierDone(w.calls, i, w.calls[i].session)
    ensures TurnsOk(w')
  {
    assert forall k :: 0 <= k < |w.calls| ==>
      w'.calls[k].session == w.calls[k].session && w'.calls[k].previous == w.calls[k].previous &&
      (IsDone(w.calls[k]) ==> IsDone(w'.calls[k]));
    forall k | 0 <= k < |w'.calls| ensures LinkOk(w'.calls, k) {
      assert LinkOk(w.calls, k);
    }
    forall k | 0 <= k < |w'.calls| && !w'.calls[k].phase.Waiting?
      ensures EarlierDone(w'.calls, k, w'.calls[k].session)
    {
      assert k != i ==> EarlierDone(w.calls, k, w.calls[k].session);
    }
    forall s ensures LockOk(w', s) {
      assert LockOk(w, s);
    }
  }

  lemma LeaveTurns(w: World, i: nat)
    requires TurnsOk(w) && i < |w.calls| && !IsDone(w.calls[i]) && EarlierDone(w.calls, i, w.calls[i].session)
    ensures TurnsOk(Leave(w, i))
  {
    var w' := Leave(w, i);
    assert forall k :: 0 <= k < |w.calls| ==>
      w'.calls[k].session == w.calls[k].session && w'.calls[k].previous == w.calls[k].previous &&
      (IsDone(w'.calls[k]) <==> IsDone(w.calls[k]) || k == i);
    forall k | 0 <= k < |w'.calls| ensures LinkOk(w'.calls, k) {
      assert LinkOk(w.calls, k);
    }
    forall k | 0 <= k < |w'.calls| && !w'.calls[k].phase.Waiting?
      ensures EarlierDone(w'.calls, k, w'.calls[k].session)
    {
      assert k != i ==> EarlierDone(w.calls, k, w.calls[k].session);
    }
    forall s ensures LockOk(w', s) {
      assert LockOk(w, s);
    }
  }

  lemma BeginTurns(w: World, session: Id, key: Id)
    requires TurnsOk(w) && GoodKey(key)
    ensures TurnsOk(Do(w, Begin(session, key)))
  {
    hide GoodKey;
    var w' := Do(w, Begin(session, key));
    var n := |w.calls|;
    assert forall k :: 0 <= k < n ==> w'.calls[k] == w.calls[k];
    assert LockOk(w, session);
    forall k | 0 <= k < |w'.calls| ensures LinkOk(w'.calls, k) {
      assert k < n ==> LinkOk(w.calls, k);
    }
    forall k | 0 <= k < |w'.calls| && !w'.calls[k].phase.Waiting?
      ensures EarlierDone(w'.calls, k, w'.calls[k].session)
    {
      assert EarlierDone(w.calls, k, w.calls[k].session);
    }
    forall s ensures LockOk(w', s) {
      assert LockOk(w, s);
    }
  }

  /** The promise a call waits for being released, every earlier call of its session is done. */
  lemma ReleasedMeansAll(w: World, i: nat)
    requires TurnsOk(w) && i < |w.calls| && Released(w, w.calls[i].previous)
    ensures EarlierDone(w.calls, i, w.calls[i].session)
  {
    assert LinkOk(w.calls, i);
    if w.calls[i].previous.Some? {
      var j := w.calls[i].previous.value;
      assert EarlierDone(w.calls, j, w.calls[j].session);
    }
  }

  lemma DoTurns(w: World, e: Event)
    requires TurnsOk(w)
    ensures TurnsOk(Do(w, e))
  {
    hide Shorn, HasSource, Active, SourceOf, Stamp, GoodKey, WithSource, WithUnique, NameTaken;
    if e.Begin? && !GoodKey(e.key) {
    } else if e.Begin? {
      BeginTurns(w, e.session, e.key);
    } else if (e.Settle? || e.Resume?) {
      SameTurns(w, Do(w, e));
    } else if e.i < |w.calls| && !IsDone(w.calls[e.i]) {
      if e.Enter? && w.calls[e.i].phase.Waiting? && Released(w, w.calls[e.i].previous) {
        ReleasedMeansAll(w, e.i);
      }
      StepTurns(w, e);
    }
  }

  lemma SameTurns(w: World, w': World)
    requires TurnsOk(w) && w'.calls == w.calls && w'.locks == w.locks
    ensures TurnsOk(w')
  {
    forall s ensures LockOk(w', s) {
      assert LockOk(w, s);
    }
  }

  lemma StepTurns(w: World, e: Event)
    requires TurnsOk(w) && !e.Begin? && !e.Settle? && !e.Resume? && e.i < |w.calls| && !IsDone(w.calls[e.i])
    requires e.Enter? && Released(w, w.calls[e.i].previous) ==> EarlierDone(w.calls, e.i, w.calls[e.i].session)
    ensures TurnsOk(Do(w, e))
  {
    hide Shorn, HasSource, Active, SourceOf, Stamp, GoodKey, WithSource, WithUnique, NameTaken;
    var w' := Do(w, e);
    if w' == w {
    } else {
      assert EarlierDone(w.calls, e.i, w.calls[e.i].session);
      hide TurnsOk, EarlierDone;
      if w' == Leave(w, e.i) {
        LeaveTurns(w, e.i);
      } else {
        PhaseTurns(w, w', e.i, w'.calls[e.i].phase);
      }
    }
  }

  lemma {:induction false} RunTurns(merges: bool, events: seq<Event>)
    ensures TurnsOk(RunAll(merges, events))
  {
    hide Do;
    if events != [] {
      RunTurns(merges, events[..|events| - 1]);
      hide TurnsOk;
      DoTurns(RunAll(merges, events[..|events| - 1]), events[|events| - 1]);
    } else {
      forall s ensures LockOk(Start(merges), s) {}
    }
  }

  predicate Inside(c: Call) {
    c.phase.Listing? || c.phase.Starting?
  }

  /** For any interleaving of calls: a call's turn comes only when every earlier call of its session
      is done, so turns of one session never overlap and come in call order. */
  lemma TurnsInCallOrder(merges: bool, events: seq<Event>, i: nat, j: nat)
    requires i < j < |RunAll(merges, events).calls| && RunAll(merges, events).calls[i].session == RunAll(merges, events).calls[j].session
    requires !RunAll(merges, events).calls[j].phase.Waiting?
    ensures IsDone(RunAll(merges, events).calls[i])
  {
    RunTurns(merges, events);
    assert EarlierDone(RunAll(merges, events).calls, j, RunAll(merges, events).calls[j].session);
  }

  /** No call is stuck: as soon as every earlier call of its session is done, a waiting call takes its
      turn or leaves, whatever the backend says about the session. */
  lemma NobodyIsStuck(merges: bool, events: seq<Event>, i: nat, parent: Option<Context>)
    requires i < |RunAll(merges, events).calls| && RunAll(merges, events).calls[i].phase.Waiting?
    ensures var w, w' := RunAll(merges, events), Do(RunAll(merges, events), Enter(i, parent));
      if EarlierDone(w.calls, i, w.calls[i].session) then
        (if parent.None? || Depth(parent.value) > MAX_DEPTH then IsDone(w'.calls[i])
         else w'.calls[i].phase == Listing(Shorn(parent.value), None))
      else w' == w
  {
    RunTurns(merges, events);
    var w := RunAll(merges, events);
    assert LinkOk(w.calls, i);
    if Released(w, w.calls[i].previous) {
      ReleasedMeansAll(w, i);
    }
  }

  /** The map keeps an entry for exactly the sessions with a call in progress. */
  lemma MapHoldsCallsInProgress(merges: bool, events: seq<Event>, session: Id)
    ensures var w := RunAll(merges, events);
      session in w.locks <==> exists i :: 0 <= i < |w.calls| && w.calls[i].session == session && !IsDone(w.calls[i])
  {
    RunTurns(merges, events);
    assert LockOk(RunAll(merges, events), session);
  }

  /** A call that has its turn can always give it up: a failed listing or a failed start ends it. */
  lemma TurnsCanEnd(w: World, i: nat)
    requires i < |w.calls| && !w.calls[i].phase.Waiting? && !IsDone(w.calls[i])
    ensures var e := if w.calls[i].phase.Listing? then Listed(i, false) else Answered(i, false);
      i < |Do(w, e).calls| && IsDone(Do(w, e).calls[i]) && Do(w, e).runs == w.runs
  {}
}
