/** Between which two sessions one is shown the other's delegated run, and when an answer that was shown
    can change. */
module DelegationShared {
  import opened Wrappers
  import opened TextCodec
  import opened DelegationSource
  import opened DelegationStamp
  import opened Delegation
  import opened DelegationSafety
  import opened DelegationLimits
  import opened DelegationViews

  // ---- Shown to another ------------------------------------------------------------------

  const ROOT := Context(None, 0)
  const DEEPER := Context(None, 1)

  function Steps(events: seq<Event>): seq<Step> {
    if events == [] then [] else Steps(events[..|events| - 1]) + [OfStart(events[|events| - 1], 0)]
  }

  lemma {:induction false} StartsOf(merges: bool, events: seq<Event>)
    ensures After(merges, Steps(events)).starts == RunAll(merges, events) && |Steps(events)| == |events|
    ensures forall i :: 0 <= i < |events| ==> Steps(events)[i] == OfStart(events[i], 0)
  {
    hide Do, Returns;
    if events != [] {
      StartsOf(merges, events[..|events| - 1]);
      assert Steps(events)[..|events| - 1] == Steps(events[..|events| - 1]);
    }
  }

  predicate Named(events: seq<Event>, name: Text) {
    forall i :: 0 <= i < |events| ==> events[i].Create? ==> events[i].name == name
  }

  lemma StepsPlain(events: seq<Event>, name: Text)
    requires Named(events, name) && COLON !in name
    ensures forall i :: 0 <= i < |Steps(events)| ==> PlainName(Steps(events)[i])
  {
    StartsOf(true, events);
  }

  lemma OneStepMore(merges: bool, steps: seq<Step>, e: Step)
    ensures After(merges, steps + [e]) == Next(After(merges, steps), e)
  {
    hide Next;
    assert (steps + [e])[..|steps + [e]| - 1] == steps;
  }

  lemma InReach(session: Id)
    requires CanStart(session)
    ensures InLimits(ROOT) && InBounds(session, ROOT) && InLimits(DEEPER) && InBounds(session, DEEPER)
  {}

  lemma NoneYet(merges: bool)
    ensures RunAll(merges, []) == Start(merges)
  {}

  /** A start of the session is about to be answered with the owner's run, the only one there is. */
  ghost predicate AboutToReturn(events: seq<Event>, i: nat, owner: Id, session: Id, name: Text) {
    var w := RunAll(true, events);
    Named(events, name) && i < |w.calls| && w.calls[i].session == session && w.calls[i].phase.Starting? &&
    w.calls[i].phase.asked && w.calls[i].phase.got == Some(0) &&
    |w.runs| == 1 && w.runs[0].name == name && w.runs[0].made.session == owner && !w.runs[0].settled
  }

  // The owner's own start.

  lemma KeyIsFree(m: Made, name: Text)
    ensures NewKey([], true, m) && Active([], m.session) == 0 && !NameTaken([], name)
  {}

  lemma StampedFor(m: Made, name: Text)
    requires Stamp(m.session, m.context, m.key).Some?
    ensures var r := Stamped(m, name);
      r.name == name && r.made == m && r.unique == Unique(m.session, m.key) && !r.settled &&
      r.source == SourceOf(Trim(m.session), Trimmed(m.context), Trim(m.key))
  {
    hide SourceOf, Trim;
  }

  lemma RunTwoMore(merges: bool, events: seq<Event>, a: Event, b: Event)
    ensures RunAll(merges, events + [a, b]) == Do(Do(RunAll(merges, events), a), b)
  {
    hide Do, RunAll;
    RunOneMore(merges, events, a);
    assert events + [a] + [b] == events + [a, b];
    RunOneMore(merges, events + [a], b);
  }

  lemma RunFiveMore(merges: bool, events: seq<Event>, a: Event, b: Event, c: Event, d: Event, e: Event)
    ensures RunAll(merges, events + [a, b, c, d, e]) == Do(Do(Do(Do(Do(RunAll(merges, events), a), b), c), d), e)
  {
    hide Do, RunAll;
    RunTwoMore(merges, events, a, b);
    RunOneMore(merges, events + [a, b], c);
    assert events + [a, b] + [c] == events + [a, b, c];
    RunTwoMore(merges, events + [a, b, c], d, e);
    assert events + [a, b, c] + [d, e] == events + [a, b, c, d, e];
  }

  lemma OwnReturn(owner: Id, name: Text) returns (events: seq<Event>)
    requires CanStart(owner)
    ensures AboutToReturn(events, 0, owner, owner, name)
  {
    hide Do, RunAll, Stamp, Active, InBounds, NewKey;
    var m, w := Made(owner, ROOT, []), Start(true);
    InReach(owner);
    StampedOk(m, name);
    StampedFor(m, name);
    KeyIsFree(m, name);
    NoneYet(true);
    StartsListing(w, m);
    StartsMaking(Do(Do(Do(w, Begin(owner, [])), Enter(0, Some(ROOT))), Look(0)), 0, m, name);
    events := [] + [Begin(owner, []), Enter(0, Some(ROOT)), Look(0), Listed(0, true), Create(0, name)];
    RunFiveMore(true, [], Begin(owner, []), Enter(0, Some(ROOT)), Look(0), Listed(0, true), Create(0, name));
  }

  // The start of an alike session, one deeper, so that the listing does not have the source it looks for.

  lemma OwnersRun(owner: Id, key: Id, name: Text) returns (events: seq<Event>)
    requires CanStart(owner) && GoodKey(key)
    ensures Named(events, name)
    ensures var w := RunAll(true, events);
      w.merges && w.locks == map[] && |w.runs| == 1 && w.runs[0].name == name && w.runs[0].made == Made(owner, ROOT, key) &&
      w.runs[0].unique == Unique(owner, key) && RunOk(w.runs[0]) && !w.runs[0].settled
  {
    hide Do, RunAll, Stamp, Active, InBounds, NewKey;
    var m := Made(owner, ROOT, key);
    InReach(owner);
    StampedOk(m, name);
    KeyIsFree(m, name);
    NoneYet(true);
    assert Free(RunAll(true, []), m, name);
    var more := StartAfter(true, [], m, name);
    events := more;
    assert [] + more == more;
    StampedFor(m, name);
  }

  /** A start at another depth does not find the run in its listing. */
  lemma NotListed(r: Run, session: Id, key: Id)
    requires RunOk(r) && r.made.context == ROOT
    ensures Existing(Call(session, key, None, Listing(DEEPER, Some([r]))), [r]).None?
  {
    hide RunOk, SourceOf;
    KeyFindsRunJustWhen(r, session, DEEPER, key);
  }

  lemma KeyTaken(s: Id, k: Id)
    requires GoodKey(k) && k != []
    ensures Unique(s, k).Some?
  {}

  /** The control plane answers the start with the run that has its session and key. */
  lemma Merged(w: World, i: nat, session: Id, key: Id, name: Text)
    requires w.merges && |w.runs| == 1 && CanStart(session) && GoodKey(key) && i < |w.calls|
    requires w.calls[i] == Call(session, key, None, Listing(DEEPER, Some(w.runs))) && Existing(w.calls[i], w.runs).None?
    requires Unique(session, key).Some? && w.runs[0].unique == Unique(session, key)
    ensures var w' := Do(Do(w, Listed(i, true)), Create(i, name));
      w'.runs == w.runs && i < |w'.calls| && w'.calls[i].session == session && w'.calls[i].phase == Starting(DEEPER, true, Some(0))
  {
    hide SourceOf, WithSource, Unique, GoodKey, ChildOf;
    InReach(session);
    ActiveAtMost(w.runs, session);
    assert WithUnique(w.runs, Unique(session, key)) == Some(0);
  }

  lemma AlikeReturn(owner: Id, session: Id, name: Text) returns (events: seq<Event>, i: nat)
    requires Alike(owner, session)
    ensures AboutToReturn(events, i, owner, session, name)
  {
    hide Plain, Joins, RunAll, Unique, Do, GoodKey, Existing, RunOk;
    var k, k' := KeysForBoth(owner, session);
    KeyTaken(session, k');
    InReach(session);
    var before := OwnersRun(owner, k, name);
    var w := RunAll(true, before);
    i := |w.calls|;
    StartsListing(w, Made(session, DEEPER, k'));
    var w3 := Do(Do(Do(w, Begin(session, k')), Enter(i, Some(DEEPER))), Look(i));
    assert w3.runs == [w.runs[0]];
    NotListed(w.runs[0], session, k');
    Merged(w3, i, session, k', name);
    events := before + [Begin(session, k'), Enter(i, Some(DEEPER)), Look(i), Listed(i, true), Create(i, name)];
    RunFiveMore(true, before, Begin(session, k'), Enter(i, Some(DEEPER)), Look(i), Listed(i, true), Create(i, name));
  }

  // The answer shows the run, and notes it for whoever hits the entry.

  lemma AnswerShows(events: seq<Event>, i: nat, owner: Id, session: Id, name: Text, plain: bool)
    requires AboutToReturn(events, i, owner, session, name) && (plain ==> COLON !in name)
    ensures Shows(plain, true, owner, session, Steps(events), OfStart(Answered(i, true), 0))
  {
    StartsOf(true, events);
    if plain {
      StepsPlain(events, name);
    }
    hide RunAll, After, Steps, Named;
  }

  lemma AnswerNoted(s: Service, i: nat, name: Text)
    requires i < |s.starts.calls| && s.starts.calls[i].phase.Starting? && s.starts.calls[i].phase.asked
    requires s.starts.calls[i].phase.got == Some(0) && |s.starts.runs| == 1 && s.starts.runs[0].name == name && !s.starts.runs[0].settled
    ensures var s' := Next(s, OfStart(Answered(i, true), 0));
      var key := CacheKey(s.starts.calls[i].session, name);
      key in s'.cache && s'.cache[key] == Cached(0, Shown(0, false, None)) && s'.starts.runs == s.starts.runs
  {}

  lemma HitShows(events: seq<Event>, i: nat, owner: Id, session: Id, name: Text, asker: Id, run: Text, plain: bool)
    requires AboutToReturn(events, i, owner, session, name) && (plain ==> COLON !in name)
    requires CacheKey(session, name) == CacheKey(asker, run)
    ensures Shows(plain, true, owner, asker, Steps(events) + [OfStart(Answered(i, true), 0)], Asks(asker, run, false, 0))
  {
    var steps, last := Steps(events), OfStart(Answered(i, true), 0);
    StartsOf(true, events);
    if plain {
      StepsPlain(events, name);
      assert PlainName(last);
    }
    OneStepMore(true, steps, last);
    AnswerNoted(After(true, steps), i, name);
    assert After(true, steps).starts.runs[0].made.session == owner;
    hide RunAll, After, Steps, Named, CacheKey, Next, PlainName, AboutToReturn;
    HitIsShown(After(true, steps + [last]), asker, run);
    assert plain ==> forall k :: 0 <= k < |steps + [last]| ==> PlainName((steps + [last])[k]);
  }

  lemma HitIsShown(s: Service, asker: Id, run: Text)
    requires CacheKey(asker, run) in s.cache && s.cache[CacheKey(asker, run)] == Cached(0, Shown(0, false, None))
    ensures var e := Asks(asker, run, false, 0); ShownBy(s, e) == Some(Shown(0, false, None)) && Viewer(s, e) == asker
  {
    hide CacheKey;
  }

  lemma NameToHit(x: Id, asker: Id, plain: bool) returns (name: Text, run: Text)
    requires x != asker && Sees(x, asker, plain)
    ensures CacheKey(x, name) == CacheKey(asker, run) && (plain ==> COLON !in name)
  {
    if asker + [COLON] <= x {
      name := [];
      run := x[|asker| + 1..] + [COLON] + name;
      SharedKey(asker, x, name);
    } else {
      name, run := RunsWithOneKey(x, asker);
    }
  }

  lemma BetweenShows(owner: Id, x: Id, asker: Id, plain: bool) returns (steps: seq<Step>, e: Step)
    requires CanStart(owner) && Between(owner, x, asker, plain)
    ensures Shows(plain, true, owner, asker, steps, e)
  {
    hide AboutToReturn, Shows, Alike, CanStart, Sees;
    var name, run: Text := [], [];
    if x != asker {
      name, run := NameToHit(x, asker, plain);
    }
    var events, i := [], 0;
    if x == owner {
      events := OwnReturn(owner, name);
    } else {
      events, i := AlikeReturn(owner, x, name);
    }
    if x == asker {
      steps, e := Steps(events), OfStart(Answered(i, true), 0);
      AnswerShows(events, i, owner, x, name, plain);
    } else {
      steps, e := Steps(events) + [OfStart(Answered(i, true), 0)], Asks(asker, run, false, 0);
      HitShows(events, i, owner, x, name, asker, run, plain);
    }
  }

  /** Over all runs of starts, asks and replies by any sessions: some run shows the asker a run that a start
      of the owner made just when the owner can start runs and there is a session, itself or one that the
      control plane cannot tell from it, that is the asker or whose cache entries the asker can hit. Such
      an entry's session begins with the asker's id and a colon or, where names of runs can have colons,
      the other way round. */
  lemma ShownToAnotherJustWhen(owner: Id, asker: Id, plain: bool)
    ensures (exists merges, steps, e :: Shows(plain, merges, owner, asker, steps, e)) <==>
      CanStart(owner) && exists x :: Between(owner, x, asker, plain)
  {
    hide Shows, Between, CanStart;
    if CanStart(owner) && exists x :: Between(owner, x, asker, plain) {
      var x :| Between(owner, x, asker, plain);
      var steps, e := BetweenShows(owner, x, asker, plain);
    }
    forall merges, steps, e | Shows(plain, merges, owner, asker, steps, e)
      ensures CanStart(owner) && exists x :: Between(owner, x, asker, plain)
    {
      ShownNeeds(plain, merges, owner, asker, steps, e);
    }
  }

  const A_B: Id := [0x61, COLON, 0x62]
  const SPACE_A: Id := [0x20, 0x61]

  lemma Spaced(owner: Id)
    requires owner != [] && Tidy(owner)
    ensures Trim([0x20] + owner) == Trim(owner) == owner
  {
    TrimStartExact(owner);
    TrimEndExact(owner);
    assert ([0x20] + owner)[1..] == owner;
  }

  lemma ApartFromSpaceA()
    ensures CanStart(A_B) && !Mixes(A_B, SPACE_A) && !Alike(A_B, SPACE_A)
    ensures Alike(A_B, [0x20] + A_B)
  {
    Spaced(A_B);
    PlainsApart();
    assert A_B[2] == 0x62;
    SamePlain([0x20] + A_B, A_B);
    hide Trim, Plain;
  }

  lemma PlainsApart()
    ensures var p, q := Plain(A_B), Plain(SPACE_A);
      p != q && !(p + [NUL] <= q) && !(q + [NUL] <= p)
  {
    assert !Tidy(SPACE_A);
    CountedAB();
    PlainExact(A_B);
    PlainExact(SPACE_A);
    TrimExact(SPACE_A);
    hide Trim, Plain, Tidy, WellFormed, IsText;
    var q := Plain(SPACE_A);
    assert |q| < 2 && Plain(A_B) == A_B;
    assert (q + [NUL])[|q|] == NUL && NUL !in A_B;
  }

  lemma CountedAB()
    ensures Counted(A_B)
  {
    assert A_B[1..] == [COLON, 0x62] && [COLON, 0x62][1..] == [0x62] && [0x62][1..] == [];
    assert WellFormed([0x62]) && WellFormed([COLON, 0x62]);
  }

  lemma SamePlain(s: Id, t: Id)
    requires Trim(s) == Trim(t)
    ensures Plain(s) == Plain(t)
  {}

  /** A third session in between: " a" and "a:b" share nothing, and " a" is shown a run of "a:b" through " a:b". */
  lemma ThirdSession()
    ensures !Mixes(A_B, SPACE_A) && !Alike(A_B, SPACE_A)
    ensures exists merges, steps, e :: Shows(true, merges, A_B, SPACE_A, steps, e)
  {
    ApartFromSpaceA();
    var x := [0x20] + A_B;
    assert SPACE_A + [COLON] == x[..3];
    assert Between(A_B, x, SPACE_A, true) by { hide Alike, CanStart; }
    hide *;
    ShownToAnotherJustWhen(A_B, SPACE_A, true);
  }

  // ---- Answers ------------------------------------------------------------------------------

  predicate GoodAnswer(answer: Text) {
    1 <= |answer| <= MAX_ANSWER
  }

  /** An answer is kept only for a settled run, is not empty, and is at most 8000 units long. */
  lemma {:induction false} AnswersBounded(merges: bool, steps: seq<Step>)
    ensures AnswersGood(After(merges, steps))
  {
    hide Next, AnswersGood;
    if steps == [] {
      NoAnswers(merges);
    } else {
      AnswersBounded(merges, steps[..|steps| - 1]);
      AnswersStep(After(merges, steps[..|steps| - 1]), steps[|steps| - 1]);
    }
  }

  ghost predicate AnswersGood(s: Service) {
    (forall key :: key in s.cache && s.cache[key].value.answer.Some? ==>
      s.cache[key].value.settled && GoodAnswer(s.cache[key].value.answer.value)) &&
    (forall j :: 0 <= j < |s.asks| && s.asks[j].held.Some? ==> GoodAnswer(s.asks[j].held.value))
  }

  lemma NoAnswers(merges: bool)
    ensures AnswersGood(After(merges, []))
  {}

  lemma AnswerIsGood(held: Option<Text>, settled: bool, answer: Option<Text>)
    ensures var a := AnswerFor(held, settled, answer); a.Some? ==> settled && GoodAnswer(a.value)
  {}

  lemma AnswersStep(s: Service, e: Step)
    requires AnswersGood(s)
    ensures AnswersGood(Next(s, e))
  {
    match e
    case OfStart(e, now) => StartAnswersGood(s, e, now);
    case Asks(session, run, force, now) => AskAnswersGood(s, session, run, force, now);
    case Came(j, now, settled, answer) => CameAnswersGood(s, j, now, settled, answer);
    case Failed(j) =>
      hide GoodAnswer;
  }

  lemma StartAnswersGood(s: Service, e: Event, now: int)
    requires AnswersGood(s)
    ensures AnswersGood(Next(s, OfStart(e, now)))
  {
    hide Do, Returns, GoodAnswer, CacheKey;
  }

  lemma AskAnswersGood(s: Service, session: Id, run: Text, force: bool, now: int)
    requires AnswersGood(s)
    ensures AnswersGood(Next(s, Asks(session, run, force, now)))
  {
    hide Recent, GoodAnswer, CacheKey;
  }

  lemma CameAnswersGood(s: Service, j: nat, now: int, settled: bool, answer: Option<Text>)
    requires AnswersGood(s)
    ensures AnswersGood(Next(s, Came(j, now, settled, answer)))
  {
    hide Finds, AnswerFor, GoodAnswer, CacheKey, AnswersGood;
    if Open(s, j) {
      var k := Finds(s.starts.runs, s.asks[j].session, s.asks[j].run);
      ClosedGood(s, j);
      if k.Some? {
        AnswerIsGood(s.asks[j].held, settled, answer);
        NotedGood(Close(s, j), CacheKey(s.asks[j].session, s.starts.runs[k.value].name),
                  Cached(now, Shown(k.value, settled, AnswerFor(s.asks[j].held, settled, answer))));
      }
    }
  }

  lemma ClosedGood(s: Service, j: nat)
    requires AnswersGood(s) && j < |s.asks|
    ensures AnswersGood(Close(s, j))
  {
    hide GoodAnswer;
  }

  lemma NotedGood(s: Service, key: Text, c: Cached)
    requires AnswersGood(s) && (c.value.answer.Some? ==> c.value.settled && GoodAnswer(c.value.answer.value))
    ensures AnswersGood(s.(cache := s.cache[key := c]))
  {
    hide GoodAnswer;
  }

  function Onward(s: Service, more: seq<Step>): Service {
    if more == [] then s else Next(Onward(s, more[..|more| - 1]), more[|more| - 1])
  }

  /** An ask for the entry is waiting for its reply. */
  predicate Pending(s: Service, j: nat, key: Text) {
    Open(s, j) && CacheKey(s.asks[j].session, s.asks[j].run) == key
  }

  /** It will be answered with a run, not with an error. */
  predicate Finding(s: Service, j: nat, key: Text) {
    Pending(s, j, key) && Finds(s.starts.runs, s.asks[j].session, s.asks[j].run).Some?
  }

  /** The step is a reply or a hit for the entry. */
  predicate Concerns(s: Service, e: Step, key: Text) {
    (e.Asks? && CacheKey(e.session, e.run) == key) || (e.Came? && Pending(s, e.j, key))
  }

  /** The run stays settled, no start comes back with the entry's run, and no new run takes a name that an
      ask for the entry waits for. */
  ghost predicate Calm(s: Service, e: Step, key: Text) {
    (e.OfStart? && e.e.Create? ==> forall j: nat :: Pending(s, j, key) ==> s.asks[j].run != e.e.name) &&
    (e.OfStart? && Returns(s.starts, e.e).Some? && Returns(s.starts, e.e).value < |s.starts.runs| ==>
      CacheKey(s.starts.calls[e.e.i].session, s.starts.runs[Returns(s.starts, e.e).value].name) != key) &&
    (e.Came? && Pending(s, e.j, key) ==> e.settled)
  }

  ghost predicate AllCalm(s: Service, more: seq<Step>, key: Text) {
    forall i :: 0 <= i < |more| ==> Calm(Onward(s, more[..i]), more[i], key)
  }

  /** Whatever of the entry is shown has the answer. */
  ghost predicate AlwaysShown(s: Service, more: seq<Step>, key: Text, answer: Text) {
    forall i :: 0 <= i < |more| ==> AnswersWith(Onward(s, more[..i]), more[i], key, answer)
  }

  predicate AnswersWith(s: Service, e: Step, key: Text, answer: Text) {
    Concerns(s, e, key) && ShownBy(s, e).Some? ==> ShownBy(s, e).value.answer == Some(answer)
  }

  /** The entry has the answer, and every ask for it that will find its run began with the answer held. */
  ghost predicate Steady(s: Service, key: Text, answer: Text) {
    key in s.cache && s.cache[key].value.answer == Some(answer) && GoodAnswer(answer) &&
    forall j: nat :: Finding(s, j, key) ==> s.asks[j].held == Some(answer)
  }

  lemma SteadyStep(s: Service, e: Step, key: Text, answer: Text)
    requires Steady(s, key, answer) && Calm(s, e, key)
    ensures Steady(Next(s, e), key, answer) && AnswersWith(s, e, key, answer)
  {
    match e
    case OfStart(e, now) => SteadyStart(s, e, now, key, answer);
    case Asks(session, run, force, now) => SteadyAsk(s, session, run, force, now, key, answer);
    case Came(j, now, settled, a) => SteadyReply(s, j, now, settled, a, key, answer);
    case Failed(j) => SteadyClose(s, j, key, answer);
  }

  lemma SameRuns(w: World, e: Event)
    ensures |w.runs| <= |Do(w, e).runs|
    ensures forall k :: 0 <= k < |w.runs| ==> Do(w, e).runs[k].name == w.runs[k].name && Do(w, e).runs[k].source == w.runs[k].source
    ensures forall k :: |w.runs| <= k < |Do(w, e).runs| ==> e.Create? && Do(w, e).runs[k].name == e.name
  {
    hide WithSource, WithUnique, Active, GoodKey, Stamp;
  }

  lemma SameFinds(runs: seq<Run>, runs': seq<Run>, session: Id, run: Text)
    requires |runs| <= |runs'| && forall k :: 0 <= k < |runs| ==> runs'[k].name == runs[k].name && runs'[k].source == runs[k].source
    requires forall k :: |runs| <= k < |runs'| ==> runs'[k].name != run
    ensures Finds(runs, session, run) == Finds(runs', session, run)
  {
    SameNames(runs, runs', run);
    hide Parse;
  }

  lemma {:induction false} SameNames(runs: seq<Run>, runs': seq<Run>, run: Text)
    requires |runs| <= |runs'| && forall k :: 0 <= k < |runs| ==> runs'[k].name == runs[k].name
    requires forall k :: |runs| <= k < |runs'| ==> runs'[k].name != run
    ensures WithName(runs, run) == WithName(runs', run)
    decreases |runs'|
  {
    if |runs| < |runs'| {
      SameNames(runs, runs'[..|runs'| - 1], run);
    } else if runs != [] {
      SameNames(runs[..|runs| - 1], runs'[..|runs| - 1], run);
    }
  }

  lemma SteadyStart(s: Service, e: Event, now: int, key: Text, answer: Text)
    requires Steady(s, key, answer) && Calm(s, OfStart(e, now), key)
    ensures Steady(Next(s, OfStart(e, now)), key, answer)
  {
    var s' := Next(s, OfStart(e, now));
    SameRuns(s.starts, e);
    NextStarts(s, e, now);
    hide Do, Finds, Returns, CacheKey;
    forall j: nat | Finding(s', j, key) ensures s'.asks[j].held == Some(answer) {
      assert Pending(s, j, key);
      SameFinds(s.starts.runs, s'.starts.runs, s.asks[j].session, s.asks[j].run);
      assert Finding(s, j, key);
    }
  }

  lemma SteadyAsk(s: Service, session: Id, run: Text, force: bool, now: int, key: Text, answer: Text)
    requires Steady(s, key, answer)
    ensures Steady(Next(s, Asks(session, run, force, now)), key, answer)
    ensures AnswersWith(s, Asks(session, run, force, now), key, answer)
  {
    var s' := Next(s, Asks(session, run, force, now));
    hide Finds, CacheKey;
    forall j: nat | Finding(s', j, key) ensures s'.asks[j].held == Some(answer) {
      if j < |s.asks| {
        assert Finding(s, j, key);
      }
    }
  }

  lemma SteadyReply(s: Service, j: nat, now: int, settled: bool, a: Option<Text>, key: Text, answer: Text)
    requires Steady(s, key, answer) && Calm(s, Came(j, now, settled, a), key)
    ensures Steady(Next(s, Came(j, now, settled, a)), key, answer) && AnswersWith(s, Came(j, now, settled, a), key, answer)
  {
    var s' := Next(s, Came(j, now, settled, a));
    hide Finds, CacheKey;
    if Open(s, j) && Finds(s.starts.runs, s.asks[j].session, s.asks[j].run).Some? {
      assert Pending(s, j, key) ==> Finding(s, j, key);
    }
    forall i: nat | Finding(s', i, key) ensures s'.asks[i].held == Some(answer) {
      assert Finding(s, i, key);
    }
  }

  lemma SteadyClose(s: Service, j: nat, key: Text, answer: Text)
    requires Steady(s, key, answer)
    ensures Steady(Next(s, Failed(j)), key, answer)
  {
    var s' := Next(s, Failed(j));
    hide Finds, CacheKey;
    forall i: nat | Finding(s', i, key) ensures s'.asks[i].held == Some(answer) {
      assert Finding(s, i, key);
    }
  }

  lemma {:induction false} SteadyOn(s: Service, more: seq<Step>, key: Text, answer: Text)
    requires Steady(s, key, answer) && AllCalm(s, more, key)
    ensures Steady(Onward(s, more), key, answer) && AlwaysShown(s, more, key, answer)
  {
    hide Next, Steady, Calm, AnswersWith, Onward;
    if more == [] {
      NothingMore(s);
    } else {
      var init := more[..|more| - 1];
      assert forall i :: 0 <= i < |init| ==> init[..i] == more[..i];
      SteadyOn(s, init, key, answer);
      OneMore(s, more);
      SteadyStep(Onward(s, init), more[|more| - 1], key, answer);
    }
  }

  lemma NothingMore(s: Service)
    ensures Onward(s, []) == s
  {}

  lemma OneMore(s: Service, more: seq<Step>)
    requires more != []
    ensures Onward(s, more) == Next(Onward(s, more[..|more| - 1]), more[|more| - 1])
  {}

  /** The reply to an ask that began before the answer was kept brings another one. */
  lemma ReplyReplaces(s: Service, j: nat, key: Text, answer: Text) returns (e: Step)
    requires Finding(s, j, key) && s.asks[j].held != Some(answer)
    requires s.asks[j].held.Some? ==> GoodAnswer(s.asks[j].held.value)
    ensures Calm(s, e, key) && !AnswersWith(s, e, key, answer)
  {
    var other: Text := if answer == [0x61] then [0x62] else [0x61];
    e := Came(j, 0, true, Some(other));
    FirstOrNew(s.asks[j].held, other);
    ReplyIs(s, j, other, key);
    assert other[0] == 0x61 || answer == [0x61];
    hide *;
    ReplyDiffers(s, e, key, answer);
  }

  lemma ReplyIs(s: Service, j: nat, other: Text, key: Text)
    requires Finding(s, j, key)
    ensures var e := Came(j, 0, true, Some(other));
      Calm(s, e, key) && Concerns(s, e, key) && ShownBy(s, e).Some? &&
      ShownBy(s, e).value.answer == AnswerFor(s.asks[j].held, true, Some(other))
  {
    hide *;
    ReplyIsCalm(s, j, other, key);
    FindingMeans(s, j, key);
    ReplyConcerns(s, j, other, key);
    ReplyShown(s, j, other);
  }

  lemma FindingMeans(s: Service, j: nat, key: Text)
    requires Finding(s, j, key)
    ensures Pending(s, j, key) && Open(s, j) && Finds(s.starts.runs, s.asks[j].session, s.asks[j].run).Some?
  {
    hide Finds, CacheKey;
  }

  lemma ReplyConcerns(s: Service, j: nat, other: Text, key: Text)
    requires Pending(s, j, key)
    ensures Concerns(s, Came(j, 0, true, Some(other)), key)
  {
    hide Pending, CacheKey;
  }

  lemma ReplyShown(s: Service, j: nat, other: Text)
    requires Open(s, j) && Finds(s.starts.runs, s.asks[j].session, s.asks[j].run).Some?
    ensures var e := Came(j, 0, true, Some(other));
      ShownBy(s, e).Some? && ShownBy(s, e).value.answer == AnswerFor(s.asks[j].held, true, Some(other))
  {
    hide Finds, AnswerFor, Recent, Returns, Recalls;
  }

  lemma ReplyIsCalm(s: Service, j: nat, other: Text, key: Text)
    ensures Calm(s, Came(j, 0, true, Some(other)), key)
  {
    hide Pending, CacheKey, Returns;
  }

  lemma ReplyDiffers(s: Service, e: Step, key: Text, answer: Text)
    requires Concerns(s, e, key) && ShownBy(s, e).Some? && ShownBy(s, e).value.answer != Some(answer)
    ensures !AnswersWith(s, e, key, answer)
  {
    hide Concerns, ShownBy;
  }

  lemma FirstOrNew(held: Option<Text>, other: Text)
    requires (held.Some? ==> GoodAnswer(held.value)) && |other| == 1
    ensures AnswerFor(held, true, Some(other)) == if held.Some? then held else Some(other)
  {}

  /** An answer was kept. As long as the run stays settled, no start comes back with it and no new run takes
      a name that is asked for, everything shown of it has that answer, just when every ask for it that
      still waits, and will find its run, began when the answer was kept. */
  lemma AnswerStaysJustWhen(merges: bool, steps: seq<Step>, key: Text)
    requires var s := After(merges, steps); key in s.cache && s.cache[key].value.answer.Some?
    ensures var s := After(merges, steps);
      var answer := s.cache[key].value.answer.value;
      (forall j: nat :: Finding(s, j, key) ==> s.asks[j].held == Some(answer)) <==>
      (forall more :: AllCalm(s, more, key) ==> AlwaysShown(s, more, key, answer))
  {
    AnswersBounded(merges, steps);
    hide After;
    AnswerStaysFrom(After(merges, steps), key);
  }

  lemma AnswerStaysFrom(s: Service, key: Text)
    requires AnswersGood(s) && key in s.cache && s.cache[key].value.answer.Some?
    ensures var answer := s.cache[key].value.answer.value;
      (forall j: nat :: Finding(s, j, key) ==> s.asks[j].held == Some(answer)) <==>
      (forall more :: AllCalm(s, more, key) ==> AlwaysShown(s, more, key, answer))
  {
    var answer := s.cache[key].value.answer.value;
    if forall j: nat :: Finding(s, j, key) ==> s.asks[j].held == Some(answer) {
      assert Steady(s, key, answer) by { hide Finding, CacheKey; }
      hide *;
      forall more | AllCalm(s, more, key) ensures AlwaysShown(s, more, key, answer) {
        SteadyOn(s, more, key, answer);
      }
    } else {
      var j: nat :| Finding(s, j, key) && s.asks[j].held != Some(answer);
      FindingOpen(s, j, key);
      assert s.asks[j].held.Some? ==> GoodAnswer(s.asks[j].held.value) by { hide Finding; }
      hide *;
      var e := ReplyReplaces(s, j, key, answer);
      OneStepOnly(s, e, key, answer);
    }
  }

  lemma FindingOpen(s: Service, j: nat, key: Text)
    requires Finding(s, j, key)
    ensures j < |s.asks|
  {}

  lemma OneStepOnly(s: Service, e: Step, key: Text, answer: Text)
    requires Calm(s, e, key) && !AnswersWith(s, e, key, answer)
    ensures AllCalm(s, [e], key) && !AlwaysShown(s, [e], key, answer)
  {
    hide Calm, AnswersWith, Next;
    assert [e][..0] == [] && Onward(s, []) == s;
    assert [e][0] == e && Onward(s, [e][..0]) == s;
  }
}
