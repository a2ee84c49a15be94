/** Incremental history sync: the node sends only the tail of the transcript when the client's
    prefix, named by a count and a hash, is its own. The client appends a tail that begins where its own
    messages end, and drops its cache on any other. */
module HistorySync {
  import opened Wrappers

  datatype Mode = Full | Append

  /** have is None when it is missing or not an integer. */
  datatype Cursor = Cursor(have: Option<int>, token: Option<string>)

  datatype Delta<T> = Delta(mode: Mode, baseCount: nat, messages: seq<T>, count: nat, historyHash: string)

  /** Stands for the digest of the serialized messages: no collisions, never empty. */
  ghost predicate CollisionFree<T(!new)>(hash: seq<T> -> string) {
    (forall a, b :: hash(a) == hash(b) ==> a == b) && forall a :: hash(a) != ""
  }

  function HistoryDelta<T>(hash: seq<T> -> string, messages: seq<T>, cursor: Cursor): Delta<T> {
    var count := |messages|;
    if cursor.have.Some? && 0 < cursor.have.value <= count && cursor.token.Some? && cursor.token.value != "" &&
       hash(messages[..cursor.have.value]) == cursor.token.value
    then Delta(Append, cursor.have.value, messages[cursor.have.value..], count, hash(messages))
    else Delta(Full, 0, messages, count, hash(messages))
  }

  // ---- A client ----------------------------------------------------------

  /** What a client caches: messages, their count and the token as they came. */
  datatype Cache<T> = Cache(messages: seq<T>, count: nat, token: string)

  function CursorOf<T>(c: Option<Cache<T>>): Cursor {
    if c.None? then Cursor(None, None) else Cursor(Some(c.value.count), Some(c.value.token))
  }

  function Apply<T>(c: Option<Cache<T>>, d: Delta<T>): Option<Cache<T>> {
    if d.mode == Full then Some(Cache(d.messages, d.count, d.historyHash))
    else if c.Some? && d.baseCount == c.value.count then Some(Cache(c.value.messages + d.messages, d.count, d.historyHash))
    else None
  }

  /** An answer on its way, and the messages the node had when it gave it. */
  datatype Answer<T> = Answer(delta: Delta<T>, at: seq<T>)

  /** asked: the cursors of requests on their way. */
  datatype World<T> = World(messages: seq<T>, cache: Option<Cache<T>>, asked: seq<Cursor>, answers: seq<Answer<T>>)

  /** The channel keeps the order of requests and of answers. */
  datatype Event<T> = Edit(messages: seq<T>) | Ask | Reply | Arrive

  function Step<T>(hash: seq<T> -> string, w: World<T>, e: Event<T>): World<T> {
    match e
    case Edit(messages) => w.(messages := messages)
    case Ask => w.(asked := w.asked + [CursorOf(w.cache)])
    case Reply =>
      if w.asked == [] then w
      else
        w.(asked := w.asked[1..], answers := w.answers + [Answer(HistoryDelta(hash, w.messages, w.asked[0]), w.messages)])
    case Arrive =>
      if w.answers == [] then w else w.(cache := Apply(w.cache, w.answers[0].delta), answers := w.answers[1..])
  }

  function Run<T>(hash: seq<T> -> string, start: seq<T>, events: seq<Event<T>>): World<T> {
    if events == [] then World(start, None, [], [])
    else Step(hash, Run(hash, start, events[..|events| - 1]), events[|events| - 1])
  }

  // ---- One answer ----------------------------------------------------------

  predicate Honest<T(==)>(hash: seq<T> -> string, c: Option<Cache<T>>) {
    c.Some? ==> c.value.count == |c.value.messages| && c.value.token == hash(c.value.messages)
  }

  /** An answer to the client's own cursor gives it the node's messages; only the new tail is sent just when what it
      holds is a prefix. */
  lemma OneSync<T(!new)>(hash: seq<T> -> string, messages: seq<T>, c: Option<Cache<T>>)
    requires CollisionFree(hash) && Honest(hash, c)
    ensures var d := HistoryDelta(hash, messages, CursorOf(c));
      Apply(c, d) == Some(Cache(messages, |messages|, hash(messages))) &&
      (d.mode == Append <==> c.Some? && c.value.messages != [] && c.value.messages <= messages) &&
      (d.mode == Append ==> d.messages == messages[|c.value.messages|..])
  {
    if c.Some? && 0 < |c.value.messages| <= |messages| {
      var held := c.value.messages;
      assert held <= messages <==> messages[..|held|] == held;
      assert hash(messages[..|held|]) == c.value.token <==> messages[..|held|] == held;
      assert held <= messages ==> held + messages[|held|..] == messages;
    }
  }

  // ---- Every run -------------------------------------------------------------

  ghost predicate AnswerOk<T(!new)>(hash: seq<T> -> string, a: Answer<T>) {
    exists cursor :: a.delta == HistoryDelta(hash, a.at, cursor)
  }

  /** Every answer on its way is the node's answer to some cursor; the cache has as many messages as it says. */
  ghost predicate AnswersOk<T(!new)>(hash: seq<T> -> string, w: World<T>) {
    (forall i :: 0 <= i < |w.answers| ==> AnswerOk(hash, w.answers[i])) &&
    (w.cache.Some? ==> w.cache.value.count == |w.cache.value.messages|)
  }

  lemma {:induction false} AlwaysOk<T(!new)>(hash: seq<T> -> string, start: seq<T>, events: seq<Event<T>>)
    ensures AnswersOk(hash, Run(hash, start, events))
  {
    if events != [] {
      AlwaysOk(hash, start, events[..|events| - 1]);
      StepOk(hash, Run(hash, start, events[..|events| - 1]), events[|events| - 1]);
    }
  }

  lemma StepOk<T(!new)>(hash: seq<T> -> string, w: World<T>, e: Event<T>)
    requires AnswersOk(hash, w)
    ensures AnswersOk(hash, Step(hash, w, e))
  {
    var w' := Step(hash, w, e);
    if e.Reply? && w.asked != [] {
      assert AnswerOk(hash, Answer(HistoryDelta(hash, w.messages, w.asked[0]), w.messages));
      hide HistoryDelta, AnswerOk;
    } else if e.Arrive? && w.answers != [] {
      assert AnswerOk(hash, w.answers[0]);
      AppliedCount(hash, w.cache, w.answers[0]);
      hide HistoryDelta, AnswerOk, Apply;
    }
  }

  lemma AppliedCount<T(!new)>(hash: seq<T> -> string, c: Option<Cache<T>>, a: Answer<T>)
    requires AnswerOk(hash, a) && (c.Some? ==> c.value.count == |c.value.messages|)
    ensures var c' := Apply(c, a.delta); c'.Some? ==> c'.value.count == |c'.value.messages|
  {}

  /** In every run, when an answer arrives the client then holds what the node had at the answer, with its hash, just
      when all of it was sent or what the client holds is where the sent tail begins. It drops the cache when only the
      counts differ; with equal counts it holds a transcript that never was. */
  lemma ArrivalExactJustWhen<T(!new)>(hash: seq<T> -> string, start: seq<T>, events: seq<Event<T>>)
    requires Run(hash, start, events).answers != []
    ensures var w := Run(hash, start, events); var a, after := w.answers[0], Step(hash, w, Arrive).cache;
      a.delta.baseCount <= |a.at| &&
      (after == Some(Cache(a.at, |a.at|, hash(a.at))) <==>
        (a.delta.mode == Full || (w.cache.Some? && w.cache.value.messages == a.at[..a.delta.baseCount]))) &&
      (after.None? <==> a.delta.mode == Append && (w.cache.None? || |w.cache.value.messages| != a.delta.baseCount))
  {
    AlwaysOk(hash, start, events);
    var w := Run(hash, start, events);
    var a := w.answers[0];
    assert AnswerOk(hash, a);
    var cursor :| a.delta == HistoryDelta(hash, a.at, cursor);
    hide Run;
    var k := a.delta.baseCount;
    assert a.delta.mode == Append ==> a.at == a.at[..k] + a.delta.messages;
    if a.delta.mode == Append && w.cache.Some? && |w.cache.value.messages| == k {
      var held := w.cache.value.messages;
      if held + a.delta.messages == a.at {
        assert held == (held + a.delta.messages)[..k];
      }
    }
  }

  /** A request is made only when no other is on its way. */
  ghost predicate OneAtATime<T>(hash: seq<T> -> string, start: seq<T>, events: seq<Event<T>>) {
    forall i :: 0 <= i < |events| && events[i].Ask? ==>
      Run(hash, start, events[..i]).asked == [] && Run(hash, start, events[..i]).answers == []
  }

  /** What is on its way, with one request at a time. */
  ghost predicate Orderly<T(!new)>(hash: seq<T> -> string, w: World<T>) {
    Honest(hash, w.cache) && |w.asked| + |w.answers| <= 1 &&
    (w.asked != [] ==> w.asked[0] == CursorOf(w.cache)) &&
    (w.answers != [] ==> w.answers[0].delta == HistoryDelta(hash, w.answers[0].at, CursorOf(w.cache)))
  }

  /** Then every answer that arrives gives the client what the node had when it answered, after any edits. */
  lemma {:induction false} SyncIsExact<T(!new)>(hash: seq<T> -> string, start: seq<T>, events: seq<Event<T>>)
    requires CollisionFree(hash) && OneAtATime(hash, start, events)
    ensures var w := Run(hash, start, events);
      Orderly(hash, w) &&
      (w.answers != [] ==> Step(hash, w, Arrive).cache == Some(Cache(w.answers[0].at, |w.answers[0].at|, hash(w.answers[0].at))))
  {
    if events != [] {
      var n := |events| - 1;
      assert forall i :: 0 <= i < n ==> events[..n][..i] == events[..i];
      SyncIsExact(hash, start, events[..n]);
      var before := Run(hash, start, events[..n]);
      assert events[n].Ask? ==> before.asked == [] && before.answers == [];
      hide OneAtATime, HistoryDelta, Apply, CursorOf;
      if events[n].Arrive? && before.answers != [] {
        OneSync(hash, before.answers[0].at, before.cache);
      }
    }
    var w := Run(hash, start, events);
    if w.answers != [] {
      hide OneAtATime, Run;
      OneSync(hash, w.answers[0].at, w.cache);
    }
  }

  // ---- A transcript that never was ---------------------------------------------

  /** The client holds as many messages as its token stands for, but others. */
  ghost predicate Mistaken<T(!new)>(hash: seq<T> -> string, c: Option<Cache<T>>, meant: seq<T>) {
    c.Some? && c.value.token == hash(meant) && c.value.count == |c.value.messages| == |meant| && c.value.messages != meant &&
    meant != []
  }

  /** As long as the node's messages begin with what the token stands for, the next sync does not mend it. */
  lemma MistakeStays<T(!new)>(hash: seq<T> -> string, c: Option<Cache<T>>, meant: seq<T>, messages: seq<T>)
    requires CollisionFree(hash) && Mistaken(hash, c, meant) && meant <= messages
    ensures Mistaken(hash, Apply(c, HistoryDelta(hash, messages, CursorOf(c))), messages)
  {
    var held := c.value.messages;
    assert messages[..|meant|] == meant;
    assert messages == meant + messages[|meant|..];
    var i :| 0 <= i < |meant| && held[i] != meant[i];
    assert (held + messages[|meant|..])[i] != messages[i];
  }

  lemma OneMore<T>(hash: seq<T> -> string, start: seq<T>, events: seq<Event<T>>, e: Event<T>)
    ensures Run(hash, start, events + [e]) == Step(hash, Run(hash, start, events), e)
  {
    assert (events + [e])[..|events|] == events;
  }

  /** Both requests leave while the client holds a alone. */
  lemma BothAsked<T(!new)>(hash: seq<T> -> string, a: T) returns (events: seq<Event<T>>)
    ensures var k := Cursor(Some(1), Some(hash([a])));
      Run(hash, [a], events) == World([a], Some(Cache([a], 1, hash([a]))), [k, k], [])
  {
    var k, none := Cursor(Some(1), Some(hash([a]))), Cursor(None, None);
    var held := Some(Cache([a], 1, hash([a])));
    var first := Answer(Delta(Full, 0, [a], 1, hash([a])), [a]);
    assert HistoryDelta(hash, [a], none) == first.delta;
    NothingYet(hash, a);
    hide Run, HistoryDelta;
    events := Then(hash, a, [], Ask, World([a], None, [], []), World([a], None, [none], []));
    events := Then(hash, a, events, Reply, World([a], None, [none], []), World([a], None, [], [first]));
    events := Then(hash, a, events, Arrive, World([a], None, [], [first]), World([a], held, [], []));
    events := Then(hash, a, events, Ask, World([a], held, [], []), World([a], held, [k], []));
    events := Then(hash, a, events, Ask, World([a], held, [k], []), World([a], held, [k, k], []));
  }

  /** The node's messages are edited, and edited back before the second answer. */
  lemma BothAnswered<T(!new)>(hash: seq<T> -> string, a: T, b: T, c: T) returns (events: seq<Event<T>>)
    requires CollisionFree(hash) && a != c
    ensures var full, tail := Answer(Delta(Full, 0, [c], 1, hash([c])), [c]), Answer(Delta(Append, 1, [b], 2, hash([a, b])), [a, b]);
      Run(hash, [a], events) == World([a, b], Some(Cache([a], 1, hash([a]))), [], [full, tail])
  {
    var k, held := Cursor(Some(1), Some(hash([a]))), Some(Cache([a], 1, hash([a])));
    var full, tail := Answer(Delta(Full, 0, [c], 1, hash([c])), [c]), Answer(Delta(Append, 1, [b], 2, hash([a, b])), [a, b]);
    TheAnswers(hash, a, b, c);
    hide Run, HistoryDelta, CollisionFree;
    events := BothAsked(hash, a);
    events := Then(hash, a, events, Edit([c]), World([a], held, [k, k], []), World([c], held, [k, k], []));
    events := Then(hash, a, events, Reply, World([c], held, [k, k], []), World([c], held, [k], [full]));
    events := Then(hash, a, events, Edit([a, b]), World([c], held, [k], [full]), World([a, b], held, [k], [full]));
    events := Then(hash, a, events, Reply, World([a, b], held, [k], [full]), World([a, b], held, [], [full, tail]));
  }

  /** Two requests on their way at once are enough. */
  lemma MistakeReached<T(!new)>(hash: seq<T> -> string, a: T, b: T, c: T) returns (events: seq<Event<T>>)
    requires CollisionFree(hash) && a != c
    ensures var w := Run(hash, [a], events); w.messages == [a, b] && Mistaken(hash, w.cache, w.messages)
  {
    var held, other := Some(Cache([a], 1, hash([a]))), Some(Cache([c], 1, hash([c])));
    var wrong := Some(Cache([c, b], 2, hash([a, b])));
    var full, tail := Answer(Delta(Full, 0, [c], 1, hash([c])), [c]), Answer(Delta(Append, 1, [b], 2, hash([a, b])), [a, b]);
    assert [c] + [b] == [c, b];
    assert Mistaken(hash, wrong, [a, b]) by { assert [c, b][0] != [a, b][0]; }
    hide Run, HistoryDelta, CollisionFree, Mistaken;
    events := BothAnswered(hash, a, b, c);
    events := Then(hash, a, events, Arrive, World([a, b], held, [], [full, tail]), World([a, b], other, [], [tail]));
    events := Then(hash, a, events, Arrive, World([a, b], other, [], [tail]), World([a, b], wrong, [], []));
  }

  lemma TheAnswers<T(!new)>(hash: seq<T> -> string, a: T, b: T, c: T)
    requires CollisionFree(hash) && a != c
    ensures HistoryDelta(hash, [c], Cursor(Some(1), Some(hash([a])))) == Delta(Full, 0, [c], 1, hash([c]))
    ensures HistoryDelta(hash, [a, b], Cursor(Some(1), Some(hash([a])))) == Delta(Append, 1, [b], 2, hash([a, b]))
  {
    assert [c][..1] == [c] && [a, b][..1] == [a] && [a, b][1..] == [b];
    assert [c][0] != [a][0];
  }

  lemma NothingYet<T(!new)>(hash: seq<T> -> string, a: T)
    ensures Run(hash, [a], []) == World([a], None, [], [])
  {}

  lemma Then<T(!new)>(hash: seq<T> -> string, a: T, events: seq<Event<T>>, e: Event<T>, w: World<T>, w': World<T>)
      returns (more: seq<Event<T>>)
    requires Run(hash, [a], events) == w && Step(hash, w, e) == w'
    ensures Run(hash, [a], more) == w'
  {
    more := events + [e];
    OneMore(hash, [a], events, e);
  }
}
