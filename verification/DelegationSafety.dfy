/** At most three unsettled children per session, and one run per idempotency key. */
module DelegationSafety {
  import opened Wrappers
  import opened TextCodec
  import opened DelegationSource
  import opened DelegationStamp
  import opened Delegation

  ghost predicate InLimits(c: Context) {
    Depth(c) <= MAX_DEPTH && c.run != Some([])
  }

  /** A run is what the control plane stamped for the start that made it. */
  ghost predicate RunOk(r: Run) {
    InLimits(r.made.context) && GoodKey(r.made.key) &&
    Stamp(r.made.session, r.made.context, r.made.key) == Some(Ticket(r.source, r.unique))
  }

  /** A child is one deeper than its starter, and at most three deep. */
  lemma DepthIsOneMore(r: Run)
    requires RunOk(r)
    ensures var p := Parse(r.source); p.Some? && p.value.depth == r.made.context.above + 1 <= 3
  {
    hide Source, Parse, Repair, Digest, Trim;
    ParseOfSource(Trim(r.made.session), Trimmed(r.made.context).run, Depth(r.made.context), Digest(Trim(r.made.key)));
  }

  /** A run counts for the session whose id is its starter's, trimmed and with lone surrogates replaced;
      so for its starter just when nothing of its id is trimmed or replaced. */
  lemma ChildJustWhen(r: Run, session: Id)
    requires RunOk(r)
    ensures ChildOf(r, session) <==> session == Plain(r.made.session)
    ensures ChildOf(r, r.made.session) <==> Counted(r.made.session)
  {
    hide Stamp, Plain, Parse, Counted;
    StampNames(r.made.session, r.made.context, r.made.key);
    PlainExact(r.made.session);
  }

  predicate Own(r: Run, session: Id) {
    r.made.session == session && Counted(session) && !r.settled && !r.resumed
  }

  /** The runs a session started while it was counted that have not settled. */
  function OwnActive(runs: seq<Run>, session: Id): nat {
    if runs == [] then 0
    else OwnActive(runs[..|runs| - 1], session) + if Own(runs[|runs| - 1], session) then 1 else 0
  }

  predicate HasMade(runs: seq<Run>, made: Made) {
    exists k :: 0 <= k < |runs| && runs[k].made == made
  }

  /** A start with a key whose ids and key the control plane leaves as they are. */
  predicate Findable(m: Made) {
    m.key != [] && Tidy(m.session) && Tidy(m.key) && (m.context.run.Some? ==> Tidy(m.context.run.value))
  }

  /** The source a start looks for is the one its run carries just when nothing was trimmed. */
  lemma FindsOwnJustWhen(r: Run)
    requires RunOk(r) && r.made.key != []
    ensures r.source == SourceOf(r.made.session, r.made.context, r.made.key) <==> Findable(r.made)
  {
    var m := r.made;
    SameSourceOfJustWhen(Trim(m.session), Trimmed(m.context), Trim(m.key), m.session, m.context, m.key);
    SameRepairJustWhen(m.session);
    SameRepairJustWhen(m.key);
    SameRunJustWhen(m.context.run);
    hide SourceOf, Repair, Trim, TrimRun, RepairRun, Tidy;
  }

  lemma SameRepairJustWhen(t: Id)
    ensures Repair(Trim(t)) == Repair(t) <==> Tidy(t)
  {
    TrimExact(t);
    RepairExact(t);
    RepairExact(Trim(t));
    hide Repair, Trim;
  }

  lemma SameRunJustWhen(run: Option<Id>)
    requires run != Some([])
    ensures RepairRun(TrimRun(run)) == RepairRun(run) <==> (run.Some? ==> Tidy(run.value))
  {
    if run.Some? {
      SameRepairJustWhen(run.value);
      TrimExact(run.value);
      hide Repair, Trim;
    }
  }

  /** The listing a start works from: since then no run of its session was made, and runs only settled
      or went on. */
  ghost predicate SeenOk(runs: seq<Run>, seen: seq<Run>, session: Id) {
    |seen| <= |runs| &&
    (forall k :: 0 <= k < |seen| ==>
      seen[k].source == runs[k].source && seen[k].made == runs[k].made && (seen[k].settled ==> runs[k].settled || runs[k].resumed)) &&
    (forall k :: |seen| <= k < |runs| ==> runs[k].made.session != session)
  }

  /** The backend's answer to a call: the run it made, or one it cannot tell apart from it. */
  predicate Answers(r: Run, call: Call)
    requires call.phase.Starting?
  {
    InBounds(call.session, call.phase.context) &&
    (r.made.session == call.session || (r.unique.Some? && r.unique == Unique(call.session, call.key)))
  }

  ghost predicate CallOk(runs: seq<Run>, call: Call) {
    GoodKey(call.key) && (Inside(call) ==> InLimits(call.phase.context)) &&
    (call.phase.Listing? && call.phase.seen.Some? ==> SeenOk(runs, call.phase.seen.value, call.session)) &&
    (call.phase.Starting? && call.phase.got.Some? ==>
      call.phase.got.value < |runs| && Answers(runs[call.phase.got.value], call)) &&
    (call.phase.Starting? && !call.phase.asked ==> call.phase.got.None? && MayAsk(runs, call.session, MadeBy(call)))
  }

  function MadeBy(call: Call): Made
    requires Inside(call)
  {
    Made(call.session, call.phase.context, call.key)
  }

  /** A slot is free and, if its run could be found, no run was made by such a start. */
  predicate MayAsk(runs: seq<Run>, session: Id, made: Made) {
    OwnActive(runs, session) < MAX_CHILDREN && (Findable(made) ==> !HasMade(runs, made))
  }

  ghost predicate RunsOk(runs: seq<Run>, merges: bool) {
    (forall k :: 0 <= k < |runs| ==> RunOk(runs[k])) &&
    (forall s :: OwnActive(runs, s) <= MAX_CHILDREN) &&
    (forall k, l :: 0 <= k < l < |runs| ==> Different(runs[k], runs[l], merges))
  }

  predicate Different(r: Run, later: Run, merges: bool) {
    r.name != later.name && (Findable(later.made) ==> r.made != later.made) &&
    (merges && later.unique.Some? ==> r.unique != later.unique)
  }

  ghost predicate Inv(w: World) {
    RunsOk(w.runs, w.merges) && (forall i :: 0 <= i < |w.calls| ==> CallOk(w.runs, w.calls[i])) && TurnsOk(w)
  }

  /** What a start counts in its listing is at least what its session really has. */
  lemma {:induction false} CountsEnough(runs: seq<Run>, seen: seq<Run>, session: Id)
    requires SeenOk(runs, seen, session) && forall k :: 0 <= k < |runs| ==> RunOk(runs[k])
    ensures OwnActive(runs, session) <= Active(seen, session)
    decreases |runs|
  {
    hide ChildOf, RunOk, Counted;
    if runs != [] {
      var n := |runs| - 1;
      var init := runs[..n];
      if |seen| == |runs| {
        assert seen[n].source == runs[n].source;
        ChildJustWhen(runs[n], session);
        SameSourceSameChild(runs[n], seen[n], session);
        CountsEnough(init, seen[..n], session);
      } else {
        CountsEnough(init, seen, session);
      }
    }
  }

  lemma SameSourceSameChild(a: Run, b: Run, session: Id)
    requires a.source == b.source
    ensures ChildOf(a, session) <==> ChildOf(b, session)
  {}

  lemma OwnAppend(runs: seq<Run>, r: Run, session: Id)
    ensures OwnActive(runs + [r], session) == OwnActive(runs, session) + if Own(r, session) then 1 else 0
  {
    hide Own;
    assert (runs + [r])[..|runs|] == runs;
  }

  /** A run settles or goes on. */
  predicate Moves(r: Run, r': Run) {
    r' == Settled(r) || (r.settled && r' == Resumed(r))
  }

  lemma {:induction false} OwnMoves(runs: seq<Run>, k: nat, r': Run, session: Id)
    requires k < |runs| && Moves(runs[k], r')
    ensures OwnActive(runs[k := r'], session) <= OwnActive(runs, session)
  {
    hide Counted;
    var after := runs[k := r'];
    var n := |runs| - 1;
    if k < n {
      OwnMoves(runs[..n], k, r', session);
      assert after[..n] == runs[..n][k := r'];
    } else {
      assert after[..n] == runs[..n];
    }
  }

  /** A step that only changes one call's phase, to one that is fine. */
  lemma CallChanged(w: World, w': World, i: nat)
    requires Inv(w) && i < |w.calls| && w'.runs == w.runs && w'.merges == w.merges && |w'.calls| == |w.calls| && TurnsOk(w')
    requires forall k :: 0 <= k < |w.calls| && k != i ==> w'.calls[k] == w.calls[k]
    requires CallOk(w.runs, w'.calls[i])
    ensures Inv(w')
  {
    hide CallOk, RunsOk, TurnsOk;
  }

  /** A run made with the key, if there is one that can be found, was already listed. */
  lemma SeenBefore(runs: seq<Run>, seen: seq<Run>, made: Made)
    requires SeenOk(runs, seen, made.session) && (forall k :: 0 <= k < |runs| ==> RunOk(runs[k]))
    requires HasMade(runs, made) && Findable(made)
    ensures HasSource(seen, SourceOf(made.session, made.context, made.key))
  {
    hide SourceOf, Stamp, Findable;
    var k :| 0 <= k < |runs| && runs[k].made == made;
    assert RunOk(runs[k]);
    KeyIsSome(made);
    FindsOwnJustWhen(runs[k]);
    assert seen[k].source == SourceOf(made.session, made.context, made.key);
  }

  lemma KeyIsSome(made: Made)
    requires Findable(made)
    ensures made.key != []
  {}

  lemma ListedOk(w: World, i: nat)
    requires Inv(w) && i < |w.calls| && w.calls[i].phase.Listing? && w.calls[i].phase.seen.Some?
    ensures CallOk(w.runs, Choose(w, i, w.calls[i].phase.seen.value).calls[i])
  {
    hide SourceOf, HasMade, TurnsOk, Active, OwnActive, InLimits, Findable, RunOk, GoodKey, Stamp;
    var call := w.calls[i];
    assert CallOk(w.runs, call);
    var seen, made := call.phase.seen.value, Made(call.session, call.phase.context, call.key);
    CountsEnough(w.runs, seen, call.session);
    if HasMade(w.runs, made) && Findable(made) {
      SeenBefore(w.runs, seen, made);
      KeyIsSome(made);
    }
    hide SeenOk, RunsOk;
  }

  lemma OneInside(w: World, i: nat, k: nat)
    requires TurnsOk(w) && i < |w.calls| && k < |w.calls| && i != k && Inside(w.calls[i]) && Inside(w.calls[k])
    ensures w.calls[i].session != w.calls[k].session
  {
    assert EarlierDone(w.calls, i, w.calls[i].session) && EarlierDone(w.calls, k, w.calls[k].session);
  }

  lemma CallFrame(runs: seq<Run>, r: Run, call: Call)
    requires CallOk(runs, call) && (Inside(call) ==> r.made.session != call.session)
    ensures CallOk(runs + [r], call)
  {
    hide HasMade, OwnActive, InLimits, Findable, GoodKey, Own, Answers;
    if Inside(call) {
      OwnAppend(runs, r, call.session);
      OwnNot(r, call.session);
      MadeAppend(runs, r, MadeBy(call));
    }
  }

  lemma OwnNot(r: Run, session: Id)
    requires r.made.session != session
    ensures !Own(r, session)
  {}

  lemma MadeAppend(runs: seq<Run>, r: Run, made: Made)
    ensures HasMade(runs + [r], made) <==> HasMade(runs, made) || r.made == made
  {
    assert (runs + [r])[|runs|] == r && forall k :: 0 <= k < |runs| ==> (runs + [r])[k] == runs[k];
    if HasMade(runs, made) {
      var k :| 0 <= k < |runs| && runs[k].made == made;
      assert (runs + [r])[k].made == made;
    }
  }

  /** A new run leaves alone what other calls rely on: a call of the same session would be in its turn too. */
  lemma CreateFrame(w: World, i: nat, r: Run, k: nat)
    requires Inv(w) && i < |w.calls| && k < |w.calls| && k != i && w.calls[i].phase.Starting?
    requires r.made.session == w.calls[i].session
    ensures CallOk(w.runs + [r], w.calls[k])
  {
    assert CallOk(w.runs, w.calls[k]);
    hide CallOk, RunsOk;
    if Inside(w.calls[k]) {
      OneInside(w, i, k);
    }
    CallFrame(w.runs, r, w.calls[k]);
  }

  lemma CreateOk(w: World, i: nat, name: Text)
    requires Inv(w) && Do(w, Create(i, name)) != w
    ensures Inv(Do(w, Create(i, name)))
  {
    var e := Create(i, name);
    var w', call := Do(w, e), w.calls[i];
    DoTurns(w, e);
    assert CallOk(w.runs, call);
    hide Inv;
    if w'.runs == w.runs {
      NotMade(w, i, name);
      hide *;
      CallChanged(w, w', i);
    } else {
      var r := NewRun(w, i, name);
      Created(w, i, name, r);
      InvParts(w);
      hide *;
      NewRunsOk(w.runs, w.merges, r);
      forall k | 0 <= k < |w'.calls| ensures CallOk(w'.runs, w'.calls[k]) {
        if k != i {
          CreateFrame(w, i, r, k);
        }
      }
      InvIs(w');
    }
  }

  function NewRun(w: World, i: nat, name: Text): Run
    requires i < |w.calls| && w.calls[i].phase.Starting?
    requires Stamp(w.calls[i].session, w.calls[i].phase.context, w.calls[i].key).Some?
  {
    var call := w.calls[i];
    var ticket := Stamp(call.session, call.phase.context, call.key).value;
    Run(name, ticket.source, ticket.unique, false, false, MadeBy(call))
  }

  lemma InvParts(w: World)
    requires Inv(w)
    ensures RunsOk(w.runs, w.merges)
  {}

  lemma InvIs(w: World)
    requires RunsOk(w.runs, w.merges) && (forall i :: 0 <= i < |w.calls| ==> CallOk(w.runs, w.calls[i])) && TurnsOk(w)
    ensures Inv(w)
  {}

  /** Refused, or answered with the run that has the session and key. */
  lemma NotMade(w: World, i: nat, name: Text)
    requires Do(w, Create(i, name)) != w && Do(w, Create(i, name)).runs == w.runs
    requires i < |w.calls| && w.calls[i].phase.Starting? && CallOk(w.runs, w.calls[i])
    ensures var w' := Do(w, Create(i, name));
      w'.merges == w.merges && |w'.calls| == |w.calls| && CallOk(w.runs, w'.calls[i]) &&
      forall k :: 0 <= k < |w.calls| && k != i ==> w'.calls[k] == w.calls[k]
  {
    hide SourceOf, InLimits, OwnActive, HasMade, GoodKey, Unique, InBounds, Findable;
  }

  lemma Created(w: World, i: nat, name: Text, r: Run)
    requires Do(w, Create(i, name)) != w && Do(w, Create(i, name)).runs != w.runs
    requires i < |w.calls| && w.calls[i].phase.Starting? && CallOk(w.runs, w.calls[i])
    requires Stamp(w.calls[i].session, w.calls[i].phase.context, w.calls[i].key).Some? && r == NewRun(w, i, name)
    ensures var w' := Do(w, Create(i, name));
      w'.runs == w.runs + [r] && w'.merges == w.merges && |w'.calls| == |w.calls| && CallOk(w'.runs, w'.calls[i]) &&
      RunOk(r) && MayAsk(w.runs, r.made.session, r.made) && r.made.session == w.calls[i].session &&
      !NameTaken(w.runs, name) &&
      (w.merges && r.unique.Some? ==> forall k :: 0 <= k < |w.runs| ==> w.runs[k].unique != r.unique) &&
      forall k :: 0 <= k < |w.calls| && k != i ==> w'.calls[k] == w.calls[k]
  {
    hide SourceOf, InLimits, OwnActive, HasMade, GoodKey, Unique, InBounds, Findable, NameTaken;
    var w' := Do(w, Create(i, name));
    assert w'.runs == w.runs + [r] && w'.runs[|w.runs|] == r;
  }

  lemma NewRunsOk(runs: seq<Run>, merges: bool, r: Run)
    requires RunsOk(runs, merges) && RunOk(r) && MayAsk(runs, r.made.session, r.made) && !NameTaken(runs, r.name)
    requires merges && r.unique.Some? ==> forall k :: 0 <= k < |runs| ==> runs[k].unique != r.unique
    ensures RunsOk(runs + [r], merges)
  {
    hide RunOk, OwnActive, Counted, Findable;
    forall s ensures OwnActive(runs + [r], s) <= MAX_CHILDREN {
      OwnAppend(runs, r, s);
    }
    assert forall k :: 0 <= k < |runs| ==> (runs + [r])[k] == runs[k];
    forall k | 0 <= k < |runs| ensures Different(runs[k], r, merges) {}
  }

  lemma MovedMade(runs: seq<Run>, k: nat, r': Run, made: Made)
    requires k < |runs| && Moves(runs[k], r')
    ensures HasMade(runs[k := r'], made) <==> HasMade(runs, made)
  {
    var after := runs[k := r'];
    assert forall l :: 0 <= l < |runs| ==> after[l].made == runs[l].made;
    if HasMade(runs, made) {
      var l :| 0 <= l < |runs| && runs[l].made == made;
      assert after[l].made == made;
    }
  }

  lemma MovedCall(runs: seq<Run>, k: nat, r': Run, call: Call)
    requires CallOk(runs, call) && k < |runs| && Moves(runs[k], r')
    ensures CallOk(runs[k := r'], call)
  {
    hide HasMade, OwnActive, InLimits, GoodKey, Findable, InBounds, Unique;
    OwnMoves(runs, k, r', call.session);
    if Inside(call) {
      MovedMade(runs, k, r', MadeBy(call));
    }
  }

  lemma MovedRuns(runs: seq<Run>, merges: bool, k: nat, r': Run)
    requires RunsOk(runs, merges) && k < |runs| && Moves(runs[k], r')
    ensures RunsOk(runs[k := r'], merges)
  {
    hide InLimits, Stamp, OwnActive, Findable, GoodKey;
    var after := runs[k := r'];
    forall s ensures OwnActive(after, s) <= MAX_CHILDREN {
      OwnMoves(runs, k, r', s);
    }
    assert forall l :: 0 <= l < |after| ==>
      after[l].source == runs[l].source && after[l].made == runs[l].made && after[l].name == runs[l].name && after[l].unique == runs[l].unique;
    assert forall l :: 0 <= l < |after| ==> RunOk(runs[l]);
    forall l, m | 0 <= l < m < |after| ensures Different(after[l], after[m], merges) {
      assert Different(runs[l], runs[m], merges);
    }
  }

  lemma MoveOk(w: World, e: Event)
    requires Inv(w) && (e.Settle? || e.Resume?)
    ensures Inv(Do(w, e))
  {
    DoTurns(w, e);
    var w' := Do(w, e);
    if w' != w {
      var r' := w'.runs[e.k];
      assert w'.runs == w.runs[e.k := r'] && Moves(w.runs[e.k], r');
      MovedRuns(w.runs, w.merges, e.k, r');
      hide RunsOk, TurnsOk, CallOk;
      forall i | 0 <= i < |w.calls| ensures CallOk(w'.runs, w.calls[i]) {
        MovedCall(w.runs, e.k, r', w.calls[i]);
      }
    }
  }

  lemma SeesAll(runs: seq<Run>, session: Id)
    ensures SeenOk(runs, runs, session)
  {}

  lemma DoInv(w: World, e: Event)
    requires Inv(w)
    ensures Inv(Do(w, e))
  {
    var w' := Do(w, e);
    if w' == w {
    } else if e.Create? {
      CreateOk(w, e.i, e.name);
    } else if e.Settle? || e.Resume? {
      MoveOk(w, e);
    } else if e.Begin? {
      DoTurns(w, e);
      hide TurnsOk, RunsOk, OwnActive, HasMade, GoodKey, Findable, InBounds, Unique;
    } else {
      DoTurns(w, e);
      assert CallOk(w.runs, w.calls[e.i]);
      OneCallStep(w, e);
      hide Do, TurnsOk, RunsOk;
      CallChanged(w, w', e.i);
    }
  }

  lemma OneCallStep(w: World, e: Event)
    requires Inv(w) && (e.Enter? || e.Look? || e.Listed? || e.Answered?) && Do(w, e) != w
    ensures var w' := Do(w, e);
      e.i < |w.calls| && w'.runs == w.runs && w'.merges == w.merges && |w'.calls| == |w.calls| && CallOk(w.runs, w'.calls[e.i]) &&
      forall k :: 0 <= k < |w.calls| && k != e.i ==> w'.calls[k] == w.calls[k]
  {
    hide TurnsOk, RunsOk, OwnActive, HasMade, SourceOf, GoodKey, Findable, InBounds, Unique, Existing;
    assert CallOk(w.runs, w.calls[e.i]);
    if e.Look? {
      SeesAll(w.runs, w.calls[e.i].session);
    } else if e.Listed? && e.ok {
      ListedOk(w, e.i);
    }
    hide SeenOk;
  }

  lemma {:induction false} AllInv(merges: bool, events: seq<Event>)
    ensures Inv(RunAll(merges, events)) && RunAll(merges, events).merges == merges
  {
    hide Do;
    if events != [] {
      AllInv(merges, events[..|events| - 1]);
      hide Inv;
      DoInv(RunAll(merges, events[..|events| - 1]), events[|events| - 1]);
      SameBackend(RunAll(merges, events[..|events| - 1]), events[|events| - 1]);
    } else {
      RunTurns(merges, []);
    }
  }

  lemma SameBackend(w: World, e: Event)
    ensures Do(w, e).merges == w.merges
  {
    hide Stamp, WithUnique, WithSource, Active, GoodKey;
  }

  // ---- Theorems ------------------------------------------------------------------------

  /** For any interleaving of starts, listings, answers, settlings and resumptions, a session that is
      counted never has more than three children at work that it started and that never settled. */
  lemma NeverMoreThanThree(merges: bool, events: seq<Event>, session: Id)
    ensures OwnActive(RunAll(merges, events).runs, session) <= MAX_CHILDREN
  {
    AllInv(merges, events);
  }

  /** The control plane makes one run of a session's key, whatever the session's own run and depth. */
  lemma OneRunPerKey(events: seq<Event>, k: nat, l: nat)
    requires k < |RunAll(true, events).runs| && l < |RunAll(true, events).runs|
    requires var (m, n) := (RunAll(true, events).runs[k].made, RunAll(true, events).runs[l].made);
      m.session == n.session && m.key == n.key != []
    ensures k == l
  {
    AllInv(true, events);
    hide RunAll, RunsOk;
    if k < l {
      TwoDiffer(RunAll(true, events).runs, k, l);
    } else if l < k {
      TwoDiffer(RunAll(true, events).runs, l, k);
    }
  }

  lemma TwoDiffer(runs: seq<Run>, k: nat, l: nat)
    requires RunsOk(runs, true) && k < l < |runs|
    ensures runs[k].made.session == runs[l].made.session && runs[k].made.key == runs[l].made.key ==> runs[k].made.key == []
  {
    hide OwnActive, SourceOf, Trim, Encode;
    assert RunOk(runs[k]) && RunOk(runs[l]) && Different(runs[k], runs[l], true);
  }

  /** A start with a key finds a run just when the run's key, session and run, as they were trimmed, are
      its own, up to lone surrogates, and the depth is the same. */
  lemma KeyFindsRunJustWhen(r: Run, session: Id, c: Context, key: Id)
    requires RunOk(r)
    ensures HasSource([r], SourceOf(session, c, key)) <==>
      Depth(c) == Depth(r.made.context) && Repair(key) == Plain(r.made.key) && Repair(session) == Plain(r.made.session) &&
      RepairRun(c.run) == RepairRun(TrimRun(r.made.context.run))
  {
    var source := SourceOf(session, c, key);
    SameSourceOfJustWhen(session, c, key, Trim(r.made.session), Trimmed(r.made.context), Trim(r.made.key));
    hide SourceOf, Repair, RepairRun, Trim, TrimRun;
    assert [r][0] == r;
    assert HasSource([r], source) <==> r.source == source;
  }
}
