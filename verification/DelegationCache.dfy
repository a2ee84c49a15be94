/** How long a result that was shown is shown again: under a second, and never after a later one. */
module DelegationCache {
  import opened Wrappers
  import opened TextCodec
  import opened DelegationSource
  import opened Delegation
  import opened DelegationSafety
  import opened DelegationViews

  /** The backend's answer to a start, or its reply to an ask. */
  predicate FromBackend(e: Step) {
    e.Came? || (e.OfStart? && e.e.Answered?)
  }

  /** At time t the step showed v, which came from the backend, of the run that the viewer calls by this key. */
  predicate Brings(s: Service, e: Step, key: Text, v: Shown, t: int) {
    FromBackend(e) && e.now == t && ShownBy(s, e) == Some(v) &&
    v.run < |s.starts.runs| && key == Viewer(s, e) + [COLON] + s.starts.runs[v.run].name
  }

  /** Step k of the run of events did, and no later one did for the key. */
  ghost predicate LastBrought(merges: bool, steps: seq<Step>, k: nat, key: Text, v: Shown, t: int) {
    k < |steps| && Brings(After(merges, steps[..k]), steps[k], key, v, t) && NoneSince(merges, steps, k + 1, key)
  }

  ghost predicate NoneSince(merges: bool, steps: seq<Step>, from: nat, key: Text) {
    forall j, v, t :: from <= j < |steps| ==> !Brings(After(merges, steps[..j]), steps[j], key, v, t)
  }

  lemma StepStores(s: Service, e: Step, key: Text)
    ensures (forall v, t :: !Brings(s, e, key, v, t)) ==>
      (key in Next(s, e).cache <==> key in s.cache) && (key in s.cache ==> Next(s, e).cache[key] == s.cache[key])
    ensures forall v, t :: Brings(s, e, key, v, t) ==> key in Next(s, e).cache && Next(s, e).cache[key] == Cached(t, v)
  {
    hide Do, Finds, Recalls, AnswerFor;
    if FromBackend(e) && ShownBy(s, e).Some? {
      var v := ShownBy(s, e).value;
      assert v.run < |s.starts.runs| ==>
        Brings(s, e, Viewer(s, e) + [COLON] + s.starts.runs[v.run].name, v, e.now);
    }
  }

  /** The entry of the cache is what was brought last. */
  lemma {:induction false} CacheIs(merges: bool, steps: seq<Step>, key: Text)
    ensures var s := After(merges, steps);
      if key in s.cache then exists k :: LastBrought(merges, steps, k, key, s.cache[key].value, s.cache[key].at)
      else NoneSince(merges, steps, 0, key)
  {
    hide Next, Brings;
    if steps != [] {
      var n := |steps| - 1;
      var before, e, s := After(merges, steps[..n]), steps[n], After(merges, steps);
      assert forall j :: 0 <= j < n ==> steps[..n][..j] == steps[..j];
      CacheIs(merges, steps[..n], key);
      StepStores(before, e, key);
      if v, t :| Brings(before, e, key, v, t) {
        assert LastBrought(merges, steps, n, key, v, t);
      } else if key in before.cache {
        var v, t := before.cache[key].value, before.cache[key].at;
        var k :| LastBrought(merges, steps[..n], k, key, v, t);
        assert LastBrought(merges, steps, k, key, v, t);
      }
    }
  }

  /** Something was brought last by one step only. */
  lemma LastIsOne(merges: bool, steps: seq<Step>, k: nat, key: Text, v: Shown, t: int, k': nat, v': Shown, t': int)
    requires LastBrought(merges, steps, k, key, v, t) && LastBrought(merges, steps, k', key, v', t')
    ensures k == k' && v == v' && t == t'
  {
    hide After, ShownBy, Viewer;
  }

  /** An ask that is not forced is shown v at once just when the last result brought for its key was v, less than a
      thousand milliseconds ago; otherwise, and always when forced, the ask waits for the backend. */
  lemma ShownAtOnceJustWhen(merges: bool, steps: seq<Step>, session: Id, run: Text, force: bool, now: int, v: Shown)
    ensures var s, ask := After(merges, steps), Asks(session, run, force, now);
      (ShownBy(s, ask) == Some(v) <==>
        !force && exists k, t :: LastBrought(merges, steps, k, session + [COLON] + run, v, t) && now - t < 1000) &&
      (ShownBy(s, ask).Some? ==> Next(s, ask) == s) &&
      (ShownBy(s, ask).None? ==>
        Next(s, ask).cache == s.cache && |Next(s, ask).asks| == |s.asks| + 1 &&
        Next(s, ask).asks[..|s.asks|] == s.asks && Open(Next(s, ask), |s.asks|) &&
        Next(s, ask).asks[|s.asks|].session == session && Next(s, ask).asks[|s.asks|].run == run)
  {
    var s, key := After(merges, steps), session + [COLON] + run;
    CacheIs(merges, steps, key);
    hide After, Brings, NoneSince;
    if key in s.cache {
      var w, u := s.cache[key].value, s.cache[key].at;
      var k :| LastBrought(merges, steps, k, key, w, u);
      forall k', t' | LastBrought(merges, steps, k', key, v, t') ensures v == w && t' == u {
        LastIsOne(merges, steps, k, key, w, u, k', v, t');
      }
    } else {
      forall k', t' ensures !LastBrought(merges, steps, k', key, v, t') {
        if LastBrought(merges, steps, k', key, v, t') { NotNone(merges, steps, k', key, v, t'); }
      }
    }
  }

  lemma NotNone(merges: bool, steps: seq<Step>, k: nat, key: Text, v: Shown, t: int)
    requires LastBrought(merges, steps, k, key, v, t)
    ensures !NoneSince(merges, steps, 0, key)
  {
    hide After, Brings;
  }

  // ---- Answers -------------------------------------------------------------------

  /** At most eight thousand units: a longer answer ends in an ellipsis. */
  function Cut(answer: Text): (cut: Text)
    ensures |answer| <= 8000 ==> cut == answer
    ensures |answer| > 8000 ==> |cut| == 8000 && cut[..7999] == answer[..7999] && cut[7999] == 0x2026
  {
    if |answer| <= 8000 then answer else answer[..7999] + [0x2026]
  }

  /** A reply to an ask for this key said that the run is settled, and its machine gave this answer. */
  predicate Gives(s: Service, e: Step, key: Text, x: Text) {
    e.Came? && e.settled && Open(s, e.j) && key == CacheKey(s.asks[e.j].session, s.asks[e.j].run) &&
    e.answer.Some? && e.answer.value != [] && x == Cut(e.answer.value)
  }

  ghost predicate Given(merges: bool, steps: seq<Step>, key: Text, x: Text) {
    exists k :: 0 <= k < |steps| && Gives(After(merges, steps[..k]), steps[k], key, x)
  }

  ghost predicate AnswersGiven(merges: bool, steps: seq<Step>, s: Service) {
    (forall key :: key in s.cache && s.cache[key].value.answer.Some? ==> Given(merges, steps, key, s.cache[key].value.answer.value)) &&
    (forall j :: 0 <= j < |s.asks| && s.asks[j].held.Some? ==>
      Given(merges, steps, CacheKey(s.asks[j].session, s.asks[j].run), s.asks[j].held.value))
  }

  lemma GivenBefore(merges: bool, steps: seq<Step>, key: Text, x: Text)
    requires steps != [] && Given(merges, steps[..|steps| - 1], key, x)
    ensures Given(merges, steps, key, x)
  {
    hide After, Gives;
    var n := |steps| - 1;
    var k :| 0 <= k < n && Gives(After(merges, steps[..n][..k]), steps[..n][k], key, x);
    assert steps[..n][..k] == steps[..k];
  }

  lemma CutTwice(x: Text, y: Text)
    requires x == Cut(y)
    ensures Bounded(y) == x && Bounded(x) == x && (y != [] ==> x != [])
  {}

  lemma GivenIsCut(merges: bool, steps: seq<Step>, key: Text, x: Text)
    requires Given(merges, steps, key, x)
    ensures Bounded(x) == x && x != []
  {
    var k :| 0 <= k < |steps| && Gives(After(merges, steps[..k]), steps[k], key, x);
    CutTwice(x, steps[k].answer.value);
  }

  /** What a step shows was given before, or by the step itself. */
  lemma ShownGiven(merges: bool, steps: seq<Step>)
    requires steps != [] && AnswersGiven(merges, steps[..|steps| - 1], After(merges, steps[..|steps| - 1]))
    ensures var s, e := After(merges, steps[..|steps| - 1]), steps[|steps| - 1];
      e.Came? && ShownBy(s, e).Some? && ShownBy(s, e).value.answer.Some? ==>
        Given(merges, steps, CacheKey(s.asks[e.j].session, s.asks[e.j].run), ShownBy(s, e).value.answer.value)
  {
    var n := |steps| - 1;
    var s, e := After(merges, steps[..n]), steps[n];
    hide Finds, After, Given, Bounded, Cut;
    if e.Came? && ShownBy(s, e).Some? && ShownBy(s, e).value.answer.Some? {
      var ask := s.asks[e.j];
      var key := CacheKey(ask.session, ask.run);
      if ask.held.Some? {
        GivenIsCut(merges, steps[..n], key, ask.held.value);
        GivenBefore(merges, steps, key, ask.held.value);
      } else {
        CutTwice(Cut(e.answer.value), e.answer.value);
        assert Gives(s, e, key, Cut(e.answer.value));
        GivenNow(merges, steps, key, Cut(e.answer.value));
      }
    }
  }

  lemma GivenNow(merges: bool, steps: seq<Step>, key: Text, x: Text)
    requires steps != [] && Gives(After(merges, steps[..|steps| - 1]), steps[|steps| - 1], key, x)
    ensures Given(merges, steps, key, x)
  {
    hide After, Gives;
  }

  lemma NextAnswers(s: Service, e: Step)
    ensures var s' := Next(s, e);
      (forall key :: key in s'.cache && s'.cache[key].value.answer.Some? ==>
        (key in s.cache && s'.cache[key] == s.cache[key]) ||
        (e.Came? && Open(s, e.j) && key == CacheKey(s.asks[e.j].session, s.asks[e.j].run) && ShownBy(s, e) == Some(s'.cache[key].value))) &&
      (forall j :: 0 <= j < |s'.asks| && s'.asks[j].held.Some? ==>
        (j < |s.asks| && s'.asks[j].session == s.asks[j].session && s'.asks[j].run == s.asks[j].run && s'.asks[j].held == s.asks[j].held) ||
        (var key := CacheKey(s'.asks[j].session, s'.asks[j].run); key in s.cache && s.cache[key].value.answer == s'.asks[j].held))
  {
    hide Do, Returns, Recalls, AnswerFor, CacheKey;
  }

  lemma {:induction false} AlwaysGiven(merges: bool, steps: seq<Step>)
    ensures AnswersGiven(merges, steps, After(merges, steps))
  {
    if steps != [] {
      var n := |steps| - 1;
      var before, e, s := After(merges, steps[..n]), steps[n], After(merges, steps);
      AlwaysGiven(merges, steps[..n]);
      NextAnswers(before, e);
      ShownGiven(merges, steps);
      hide Next, After, Given, CacheKey, ShownBy;
      forall key | key in s.cache && s.cache[key].value.answer.Some?
        ensures Given(merges, steps, key, s.cache[key].value.answer.value)
      {
        if key in before.cache && s.cache[key] == before.cache[key] {
          GivenBefore(merges, steps, key, s.cache[key].value.answer.value);
        }
      }
      forall j | 0 <= j < |s.asks| && s.asks[j].held.Some?
        ensures Given(merges, steps, CacheKey(s.asks[j].session, s.asks[j].run), s.asks[j].held.value)
      {
        GivenBefore(merges, steps, CacheKey(s.asks[j].session, s.asks[j].run), s.asks[j].held.value);
      }
    }
  }

  /** In every history an answer that a reply shows is one that the run's machine gave for that key, once the run was
      settled, whole or cut to eight thousand units. */
  lemma AnswersAreGiven(merges: bool, steps: seq<Step>)
    ensures steps != [] ==>
      var s, e := After(merges, steps[..|steps| - 1]), steps[|steps| - 1];
      e.Came? && ShownBy(s, e).Some? && ShownBy(s, e).value.answer.Some? ==>
        e.settled && Given(merges, steps, CacheKey(s.asks[e.j].session, s.asks[e.j].run), ShownBy(s, e).value.answer.value)
  {
    if steps != [] {
      AlwaysGiven(merges, steps[..|steps| - 1]);
      ShownGiven(merges, steps);
      hide Finds, After, Given, Bounded, Cut;
    }
  }

  // ---- Each ask is answered once ---------------------------------------------------

  /** A reply or a failure closes an ask for good: nothing that comes later for it is shown or kept. */
  lemma {:induction false} AskEndsOnce(s: Service, j: nat, more: seq<Step>, e: Step)
    requires j < |s.asks| && !s.asks[j].open && (e == Failed(j) || (e.Came? && e.j == j))
    ensures var s' := Ahead(s, more); j < |s'.asks| && !s'.asks[j].open && ShownBy(s', e).None? && Next(s', e) == s'
  {
    if more != [] {
      AskEndsOnce(s, j, more[..|more| - 1], e);
      hide Do, Finds, Returns, Recalls, AnswerFor, CacheKey;
    }
  }

  function Ahead(s: Service, more: seq<Step>): Service {
    if more == [] then s else Next(Ahead(s, more[..|more| - 1]), more[|more| - 1])
  }

  lemma AnswerCloses(s: Service, e: Step)
    requires (e.Failed? || e.Came?) && Open(s, e.j)
    ensures var s' := Next(s, e); e.j < |s'.asks| && !s'.asks[e.j].open
  {
    hide Finds, AnswerFor;
  }
}
