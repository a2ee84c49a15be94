/** When the limit of three children and the promise of one run per key hold for a session, and what
    reaches beyond them otherwise. */
module DelegationLimits {
  import opened Wrappers
  import opened TextCodec
  import opened DelegationSource
  import opened DelegationStamp
  import opened Delegation
  import opened DelegationSafety

  // ---- A start that goes through -----------------------------------------------------

  lemma RunOneMore(merges: bool, events: seq<Event>, e: Event)
    ensures RunAll(merges, events + [e]) == Do(RunAll(merges, events), e)
  {
    hide Do;
    assert (events + [e])[..|events + [e]| - 1] == events;
  }

  function OneStart(session: Id, c: Context, key: Id, i: nat, name: Text): seq<Event> {
    [Begin(session, key), Enter(i, Some(c)), Look(i), Listed(i, true), Create(i, name), Answered(i, true)]
  }

  /** Nothing stands in the way of a start: it looks in vain, a slot is free, and the backend accepts it. */
  ghost predicate Free(w: World, m: Made, name: Text) {
    InLimits(m.context) && GoodKey(m.key) && InBounds(m.session, m.context) && m.session !in w.locks &&
    Active(w.runs, m.session) < MAX_CHILDREN && !NameTaken(w.runs, name) &&
    NewKey(w.runs, w.merges, m)
  }

  /** No run has the start's key yet. */
  predicate NewKey(runs: seq<Run>, merges: bool, m: Made) {
    m.key != [] ==>
      !HasSource(runs, SourceOf(m.session, m.context, m.key)) &&
      (merges ==> forall k :: 0 <= k < |runs| ==> runs[k].unique != Unique(m.session, m.key))
  }

  function Stamped(m: Made, name: Text): Run
    requires Stamp(m.session, m.context, m.key).Some?
  {
    var ticket := Stamp(m.session, m.context, m.key).value;
    Run(name, ticket.source, ticket.unique, false, false, m)
  }

  lemma StartsListing(w: World, m: Made)
    requires InLimits(m.context) && GoodKey(m.key) && m.session !in w.locks
    ensures var i, w' := |w.calls|, Do(Do(Do(w, Begin(m.session, m.key)), Enter(|w.calls|, Some(m.context))), Look(|w.calls|));
      w'.runs == w.runs && w'.merges == w.merges && w'.locks == w.locks[m.session := i] && |w'.calls| == i + 1 &&
      w'.calls[i] == Call(m.session, m.key, None, Listing(m.context, Some(w.runs)))
  {
    hide Active, SourceOf, HasSource, Stamp, GoodKey;
  }

  lemma StartsMaking(w: World, i: nat, m: Made, name: Text)
    requires i < |w.calls| && w.calls[i] == Call(m.session, m.key, None, Listing(m.context, Some(w.runs)))
    requires GoodKey(m.key) && InBounds(m.session, m.context) && Active(w.runs, m.session) < MAX_CHILDREN && !NameTaken(w.runs, name)
    requires NewKey(w.runs, w.merges, m)
    ensures var w' := Do(Do(w, Listed(i, true)), Create(i, name));
      w'.runs == w.runs + [Stamped(m, name)] && w'.locks == w.locks && w'.merges == w.merges && |w'.calls| == |w.calls| &&
      w'.calls[i] == Call(m.session, m.key, None, Starting(m.context, true, Some(|w.runs|)))
  {
    hide Active, SourceOf, HasSource, NameTaken, InBounds, GoodKey, WithSource, WithUnique, Unique;
    BlankKey(m.session, m.key);
    var w1 := Do(w, Listed(i, true));
    assert w1.calls[i] == Call(m.session, m.key, None, Starting(m.context, false, None)) && w1.runs == w.runs;
  }

  lemma BlankKey(session: Id, key: Id)
    ensures key == [] ==> Unique(session, key).None?
  {}

  lemma StartGoesThrough(w: World, m: Made, name: Text)
    requires Free(w, m, name)
    ensures var i := |w.calls|;
      var w' := Do(Do(Do(Do(Do(Do(w, Begin(m.session, m.key)), Enter(i, Some(m.context))), Look(i)), Listed(i, true)), Create(i, name)),
                   Answered(i, true));
      w'.locks == w.locks && w'.merges == w.merges && w'.runs == w.runs + [Stamped(m, name)] && |w'.calls| == i + 1
  {
    hide Active, SourceOf, HasSource, NameTaken, InBounds, GoodKey, Stamp, Asked, Choose, NewKey;
    StartsListing(w, m);
    var w3 := Do(Do(Do(w, Begin(m.session, m.key)), Enter(|w.calls|, Some(m.context))), Look(|w.calls|));
    StartsMaking(w3, |w.calls|, m, name);
    StartEnds(Do(Do(w3, Listed(|w.calls|, true)), Create(|w.calls|, name)), |w.calls|, m.session);
    assert w.locks[m.session := |w.calls|] - {m.session} == w.locks;
  }

  lemma StartEnds(w: World, i: nat, session: Id)
    requires i < |w.calls| && w.calls[i].session == session && w.calls[i].phase.Starting? && w.calls[i].phase.asked
    requires session in w.locks && w.locks[session] == i
    ensures var w' := Do(w, Answered(i, true));
      w'.locks == w.locks - {session} && w'.runs == w.runs && w'.merges == w.merges && |w'.calls| == |w.calls|
  {}

  lemma RunSix(merges: bool, events: seq<Event>, a: Event, b: Event, c: Event, d: Event, e: Event, f: Event)
    ensures RunAll(merges, events + [a, b, c, d, e, f]) == Do(Do(Do(Do(Do(Do(RunAll(merges, events), a), b), c), d), e), f)
  {
    hide Do, RunAll;
    RunOneMore(merges, events, a);
    assert events + [a] + [b] == events + [a, b];
    RunOneMore(merges, events + [a], b);
    assert events + [a, b] + [c] == events + [a, b, c];
    RunOneMore(merges, events + [a, b], c);
    assert events + [a, b, c] + [d] == events + [a, b, c, d];
    RunOneMore(merges, events + [a, b, c], d);
    assert events + [a, b, c, d] + [e] == events + [a, b, c, d, e];
    RunOneMore(merges, events + [a, b, c, d], e);
    assert events + [a, b, c, d, e] + [f] == events + [a, b, c, d, e, f];
    RunOneMore(merges, events + [a, b, c, d, e], f);
  }

  /** One more start after some events. */
  lemma StartAfter(merges: bool, events: seq<Event>, m: Made, name: Text) returns (more: seq<Event>)
    requires Free(RunAll(merges, events), m, name)
    ensures var w, w' := RunAll(merges, events), RunAll(merges, events + more);
      w'.locks == w.locks && w'.merges == w.merges && w'.runs == w.runs + [Stamped(m, name)]
    ensures forall i :: 0 <= i < |more| ==> more[i].Create? ==> more[i].name == name
  {
    hide Do, RunAll, Free, Stamped;
    var i := |RunAll(merges, events).calls|;
    more := OneStart(m.session, m.context, m.key, i, name);
    StartGoesThrough(RunAll(merges, events), m, name);
    RunSix(merges, events, Begin(m.session, m.key), Enter(i, Some(m.context)), Look(i), Listed(i, true), Create(i, name), Answered(i, true));
  }

  /** Runs that are alike but for their names. */
  function Copies(r: Run, n: nat): seq<Run> {
    seq(n, k requires 0 <= k < n => r.(name := Name(k)))
  }

  function Name(k: nat): Text {
    seq(k, _ => 0x61)
  }

  lemma CopiesNext(r: Run, n: nat)
    ensures Copies(r, n + 1) == Copies(r, n) + [r.(name := Name(n))] && !NameTaken(Copies(r, n), Name(n))
  {
    assert forall k :: 0 <= k < n ==> |Copies(r, n)[k].name| == k;
  }

  // ---- Children nobody counts ---------------------------------------------------------

  /** The runs a session started in one context that have not settled. */
  function MadeIn(runs: seq<Run>, session: Id, c: Context): nat {
    if runs == [] then 0
    else
      var last := runs[|runs| - 1];
      MadeIn(runs[..|runs| - 1], session, c) +
        if last.made.session == session && last.made.context == c && !last.settled && !last.resumed then 1 else 0
  }

  lemma {:induction false} MadeAreOwn(runs: seq<Run>, session: Id, c: Context)
    requires Counted(session)
    ensures MadeIn(runs, session, c) <= OwnActive(runs, session)
  {
    hide Counted;
    if runs != [] {
      MadeAreOwn(runs[..|runs| - 1], session, c);
    }
  }

  lemma {:induction false} NoneMade(runs: seq<Run>, session: Id, c: Context)
    requires !InBounds(session, c) && forall k :: 0 <= k < |runs| ==> RunOk(runs[k])
    ensures MadeIn(runs, session, c) == 0
  {
    hide InBounds, SourceOf, Unique, InLimits, GoodKey;
    if runs != [] {
      assert RunOk(runs[|runs| - 1]);
      NoneMade(runs[..|runs| - 1], session, c);
    }
  }

  lemma {:induction false} NoneCounted(r: Run, n: nat)
    requires RunOk(r) && !Counted(r.made.session)
    ensures Active(Copies(r, n), r.made.session) == 0
  {
    hide RunOk, Counted, ChildOf, Name;
    if n > 0 {
      CopiesNext(r, n - 1);
      assert Copies(r, n)[..n - 1] == Copies(r, n - 1);
      ChildJustWhen(r, r.made.session);
      SameSourceSameChild(r, Copies(r, n)[n - 1], r.made.session);
      NoneCounted(r, n - 1);
    }
  }

  lemma {:induction false} AllMade(r: Run, n: nat)
    requires !r.settled && !r.resumed
    ensures MadeIn(Copies(r, n), r.made.session, r.made.context) == n
  {
    hide Name;
    if n > 0 {
      CopiesNext(r, n - 1);
      assert Copies(r, n)[..n - 1] == Copies(r, n - 1);
      AllMade(r, n - 1);
    }
  }

  lemma StampedOk(m: Made, name: Text)
    requires InLimits(m.context) && GoodKey(m.key) && InBounds(m.session, m.context)
    ensures Stamp(m.session, m.context, m.key).Some? && RunOk(Stamped(m, name))
  {}

  /** A session that is not counted can start any number of children. */
  lemma {:induction false} StartsUncounted(session: Id, c: Context, n: nat) returns (events: seq<Event>)
    requires InLimits(c) && InBounds(session, c) && !Counted(session)
    ensures session !in RunAll(true, events).locks && Stamp(session, c, []).Some?
    ensures RunAll(true, events).runs == Copies(Stamped(Made(session, c, []), []), n)
  {
    hide Do, InLimits, Counted, Stamp, Active, InBounds, Name, Stamped;
    var m := Made(session, c, []);
    StampedOk(m, []);
    var r := Stamped(m, []);
    if n == 0 {
      events := [];
    } else {
      var before := StartsUncounted(session, c, n - 1);
      hide RunAll;
      StampedIs(m, Name(n - 1));
      NoneCounted(r, n - 1);
      CopiesNext(r, n - 1);
      FreeWithoutKey(RunAll(true, before), m, Name(n - 1));
      var more := StartAfter(true, before, m, Name(n - 1));
      events := before + more;
    }
  }

  lemma StampedIs(m: Made, name: Text)
    requires Stamp(m.session, m.context, m.key).Some?
    ensures Stamped(m, []).(name := name) == Stamped(m, name) && Stamped(m, []).made == m &&
      !Stamped(m, []).settled && !Stamped(m, []).resumed
  {}

  lemma FreeWithoutKey(w: World, m: Made, name: Text)
    requires InLimits(m.context) && InBounds(m.session, m.context) && m.key == [] && m.session !in w.locks
    requires Active(w.runs, m.session) < MAX_CHILDREN && !NameTaken(w.runs, name)
    ensures Free(w, m, name)
  {}

  /** The limit of three holds for a session's starts in a context just when nothing of its id is trimmed
      or replaced, or the control plane refuses such starts anyway. Otherwise no start counts the others. */
  lemma ChildLimitJustWhen(session: Id, c: Context)
    requires InLimits(c)
    ensures Counted(session) || !InBounds(session, c) <==>
      forall merges, events :: MadeIn(RunAll(merges, events).runs, session, c) <= MAX_CHILDREN
  {
    hide Stamped, Stamp;
    if Counted(session) || !InBounds(session, c) {
      forall merges, events ensures MadeIn(RunAll(merges, events).runs, session, c) <= MAX_CHILDREN {
        LimitHolds(merges, events, session, c);
      }
    } else {
      var events := StartsUncounted(session, c, MAX_CHILDREN + 1);
      var m := Made(session, c, []);
      StampedIs(m, []);
      AllMade(Stamped(m, []), MAX_CHILDREN + 1);
      assert MadeIn(RunAll(true, events).runs, session, c) == MAX_CHILDREN + 1;
    }
  }

  lemma LimitHolds(merges: bool, events: seq<Event>, session: Id, c: Context)
    requires Counted(session) || !InBounds(session, c)
    ensures MadeIn(RunAll(merges, events).runs, session, c) <= MAX_CHILDREN
  {
    AllInv(merges, events);
    hide RunAll, Counted, InBounds, RunOk;
    if Counted(session) {
      MadeAreOwn(RunAll(merges, events).runs, session, c);
    } else {
      NoneMade(RunAll(merges, events).runs, session, c);
    }
  }

  // ---- One run per key without the backend's help -----------------------------------------

  ghost predicate MadeTwice(runs: seq<Run>, m: Made) {
    exists k, l :: 0 <= k < l < |runs| && runs[k].made == m && runs[l].made == m
  }

  /** Over all backends, merging or not, the same start with a key makes one run just when nothing of its
      ids and key is trimmed, or the backend refuses it anyway. Otherwise its retry looks for a source
      that no run carries. */
  lemma OneRunPerKeyJustWhen(m: Made)
    requires InLimits(m.context) && GoodKey(m.key) && m.key != []
    ensures Findable(m) || !InBounds(m.session, m.context) <==>
      forall merges, events :: !MadeTwice(RunAll(merges, events).runs, m)
  {
    hide MadeTwice, InBounds, Findable;
    if Findable(m) || !InBounds(m.session, m.context) {
      forall merges, events ensures !MadeTwice(RunAll(merges, events).runs, m) {
        NotMadeTwice(merges, events, m);
      }
    } else {
      var events := StartedTwice(m);
    }
  }

  lemma NotMadeTwice(merges: bool, events: seq<Event>, m: Made)
    requires Findable(m) || !InBounds(m.session, m.context)
    ensures !MadeTwice(RunAll(merges, events).runs, m)
  {
    AllInv(merges, events);
    var runs := RunAll(merges, events).runs;
    hide RunAll, Findable, InBounds, SourceOf, GoodKey, InLimits, OwnActive;
    forall k, l | 0 <= k < l < |runs| && runs[k].made == m ensures runs[l].made != m {
      assert RunOk(runs[k]) && Different(runs[k], runs[l], merges);
    }
  }

  lemma {:induction false} ActiveAtMost(runs: seq<Run>, session: Id)
    ensures Active(runs, session) <= |runs|
  {
    hide ChildOf;
    if runs != [] {
      ActiveAtMost(runs[..|runs| - 1], session);
    }
  }

  lemma StartedTwice(m: Made) returns (events: seq<Event>)
    requires InLimits(m.context) && GoodKey(m.key) && m.key != [] && InBounds(m.session, m.context) && !Findable(m)
    ensures MadeTwice(RunAll(false, events).runs, m)
  {
    hide *;
    StampedOk(m, Name(0));
    var first := Stamped(m, Name(0));
    StartedOnce(m, first);
    FindsOwnJustWhen(first);
    FirstFree(m);
    NothingYet();
    var once := StartAfter(false, [], m, Name(0));
    assert [] + once == once;
    OnlyFirst(RunAll(false, once), m, first);
    var again := StartAfter(false, once, m, Name(1));
    events := once + again;
    BothMade(RunAll(false, events).runs, first, Stamped(m, Name(1)), m);
  }

  lemma NothingYet()
    ensures RunAll(false, []).runs == [] && RunAll(false, []).locks == map[] && !RunAll(false, []).merges
  {}

  lemma FirstFree(m: Made)
    requires InLimits(m.context) && GoodKey(m.key) && InBounds(m.session, m.context)
    ensures Free(RunAll(false, []), m, Name(0))
  {
    NothingYet();
    hide SourceOf, InBounds, InLimits, GoodKey;
  }

  lemma StartedOnce(m: Made, first: Run)
    requires Stamp(m.session, m.context, m.key).Some? && first == Stamped(m, Name(0))
    ensures first.made == m && first.name == Name(0) && Stamped(m, Name(1)).made == m
  {}

  lemma OnlyFirst(w: World, m: Made, first: Run)
    requires InLimits(m.context) && GoodKey(m.key) && InBounds(m.session, m.context) && m.session !in w.locks && !w.merges
    requires w.runs == [first] && first.name == Name(0) && first.source != SourceOf(m.session, m.context, m.key)
    ensures Free(w, m, Name(1))
  {
    hide SourceOf, InBounds, InLimits, GoodKey, Active;
    ActiveAtMost(w.runs, m.session);
    assert |Name(0)| != |Name(1)|;
  }

  lemma BothMade(runs: seq<Run>, a: Run, b: Run, m: Made)
    requires runs == [a] + [b] && a.made == m && b.made == m
    ensures MadeTwice(runs, m)
  {
    assert runs[0] == a && runs[1] == b;
  }

  // ---- Parked children -------------------------------------------------------------------

  /** The runs at work that a session started in one context, resumed ones too. */
  function AtWork(runs: seq<Run>, session: Id, c: Context): nat {
    if runs == [] then 0
    else
      var last := runs[|runs| - 1];
      AtWork(runs[..|runs| - 1], session, c) +
        if last.made.session == session && last.made.context == c && !last.settled then 1 else 0
  }

  lemma {:induction false} NoneActive(r: Run, n: nat, session: Id)
    requires r.settled
    ensures Active(Copies(r, n), session) == 0
  {
    hide ChildOf, Name;
    if n > 0 {
      CopiesNext(r, n - 1);
      assert Copies(r, n)[..n - 1] == Copies(r, n - 1);
      NoneActive(r, n - 1, session);
    }
  }

  lemma {:induction false} AllAtWork(r: Run, n: nat)
    requires !r.settled
    ensures AtWork(Copies(r, n), r.made.session, r.made.context) == n
  {
    hide Name;
    if n > 0 {
      CopiesNext(r, n - 1);
      assert Copies(r, n)[..n - 1] == Copies(r, n - 1);
      AllAtWork(r, n - 1);
    }
  }

  /** A child is started and parked, and then the next one. */
  lemma {:induction false} StartsParked(session: Id, c: Context, n: nat) returns (events: seq<Event>)
    requires InLimits(c) && InBounds(session, c)
    ensures session !in RunAll(true, events).locks && Stamp(session, c, []).Some?
    ensures RunAll(true, events).runs == Copies(Settled(Stamped(Made(session, c, []), [])), n)
  {
    hide Do, InLimits, Stamp, Active, InBounds, Name, Stamped;
    var m := Made(session, c, []);
    StampedOk(m, []);
    var parked := Settled(Stamped(m, []));
    if n == 0 {
      events := [];
    } else {
      var before := StartsParked(session, c, n - 1);
      hide RunAll;
      StampedIs(m, Name(n - 1));
      NoneActive(parked, n - 1, session);
      CopiesNext(parked, n - 1);
      FreeWithoutKey(RunAll(true, before), m, Name(n - 1));
      var more := StartAfter(true, before, m, Name(n - 1));
      events := before + more + [Settle(n - 1)];
      RunOneMore(true, before + more, Settle(n - 1));
      LastParked(RunAll(true, before + more), Stamped(m, []), n);
    }
  }

  lemma LastParked(w: World, r: Run, n: nat)
    requires n > 0 && w.runs == Copies(Settled(r), n - 1) + [r.(name := Name(n - 1))]
    ensures Do(w, Settle(n - 1)) == w.(runs := Copies(Settled(r), n))
  {
    CopiesNext(Settled(r), n - 1);
    assert w.runs[n - 1] == r.(name := Name(n - 1));
    assert w.runs[n - 1 := Settled(r).(name := Name(n - 1))] == Copies(Settled(r), n);
  }

  lemma {:induction false} GoOn(events: seq<Event>, parked: Run, n: nat, k: nat) returns (more: seq<Event>)
    requires parked.settled && k <= n && RunAll(true, events).runs == Copies(parked, n)
    ensures RunAll(true, events + more).runs == Copies(Resumed(parked), k) + Copies(parked, n)[k..]
  {
    hide RunAll, Name;
    if k == 0 {
      more := [];
      assert events + more == events;
    } else {
      var init := GoOn(events, parked, n, k - 1);
      more := init + [Resume(k - 1)];
      assert events + more == events + init + [Resume(k - 1)];
      RunOneMore(true, events + init, Resume(k - 1));
      OneGoesOn(RunAll(true, events + init), parked, n, k);
    }
  }

  lemma OneGoesOn(w: World, parked: Run, n: nat, k: nat)
    requires parked.settled && 0 < k <= n && w.runs == Copies(Resumed(parked), k - 1) + Copies(parked, n)[k - 1..]
    ensures Do(w, Resume(k - 1)).runs == Copies(Resumed(parked), k) + Copies(parked, n)[k..]
  {
    hide Name;
    CopiesNext(Resumed(parked), k - 1);
    assert w.runs[k - 1] == parked.(name := Name(k - 1));
    assert w.runs[k - 1 := Resumed(parked).(name := Name(k - 1))] == Copies(Resumed(parked), k) + Copies(parked, n)[k..];
  }

  /** A parked child holds no slot and takes none when it goes on: that way any session that can start
      runs comes to have any number of children at work. */
  lemma ParkedChildrenAddUp(session: Id, c: Context, n: nat) returns (events: seq<Event>)
    requires InLimits(c) && InBounds(session, c)
    ensures AtWork(RunAll(true, events).runs, session, c) == n
  {
    var started := StartsParked(session, c, n);
    var m := Made(session, c, []);
    StampedIs(m, []);
    hide RunAll, Stamp, Stamped, Name, InBounds;
    var parked := Settled(Stamped(m, []));
    var more := GoOn(started, parked, n, n);
    events := started + more;
    assert RunAll(true, events).runs == Copies(Resumed(parked), n);
    AllAtWork(Resumed(parked), n);
  }
}
