/** Room-key rotations, devices storing templates, and re-sealing passes, interleaved at every await. */
module ResealSafety {
  import opened Wrappers
  import opened DeviceRegistry
  import opened Reseal

  /** A pass in progress: the keys it read when it started and, once the control plane has listed the
      templates, those still to do. known is history: every room key made until the pass read its keys. */
  datatype Going = Going(current: Key, retired: seq<Key>, todo: Option<seq<Template>>, known: set<Key>)

  /** used: every room key so far. written: the text last entered for each template; both are history. */
  datatype World = World(r: Registry, node: NodeId, all: map<TemplateId, Template>, going: Option<Going>,
    used: set<Key>, written: map<TemplateId, string>)

  /** PassStops: a listing or an answer never arrives, or the node restarts. */
  datatype Event =
    | Store(id: TemplateId, key: Key, text: string)
    | RotateTo(key: Key)
    | StartPass
    | Listed(listed: seq<Template>)
    | NextTemplate(answers: bool)
    | EndPass
    | PassStops

  ghost predicate Listing(all: map<TemplateId, Template>, listed: seq<Template>) {
    Lists(all, listed) && forall id :: id in all ==> all[id] in listed
  }

  /** The keys are read first; the listing is awaited. */
  function ReadKeys(w: World): World {
    w.(going := Some(Going(w.r.room, w.r.retired, None, w.used)))
  }

  predicate Doing(w: World) {
    w.going.Some? && w.going.value.todo.Some? && w.going.value.todo.value != []
  }

  /** The listed copy of the template whose turn it is. */
  function Head(w: World): Template
    requires Doing(w)
  {
    w.going.value.todo.value[0]
  }

  ghost function Do(w: World, e: Event): World {
    match e
    case Store(id, key, text) =>
      w.(all := w.all[id := Template(id, Sealed(w.node, key, text), false)], written := w.written[id := text])
    case RotateTo(key) => if key in w.used then w else w.(r := Rotate(w.r, key).0, used := w.used + {key})
    case StartPass => if w.going.Some? then w else ReadKeys(w)
    case Listed(listed) =>
      if w.going.None? || w.going.value.todo.Some? || !Listing(w.all, listed) then w
      else w.(going := Some(w.going.value.(todo := Some(listed))))
    case NextTemplate(answers) =>
      if !Doing(w) then w
      else
        var g, t := w.going.value, Head(w);
        var p := Treat(Progress(w.all, Some(ResealResult(0, []))), w.node, g.current, g.retired, t,
                       if answers then {t.id} else {});
        w.(all := p.all, going := if p.result.None? then None else Some(g.(todo := Some(g.todo.value[1..]))))
    case EndPass =>
      if w.going.None? || w.going.value.todo != Some([]) then w
      else if w.r.room != w.going.value.current then ReadKeys(w)
      else if w.going.value.retired != [] then w.(going := None, r := ForgetRetired(w.r))
      else w.(going := None)
    case PassStops => w.(going := None)
  }

  predicate Holds(w: World, key: Key) {
    key == w.r.room || key in w.r.retired
  }

  /** Openable with the keys the node still has. */
  predicate Readable(w: World, id: TemplateId) {
    id in w.all && Opens(w.all[id], w.node, w.r.room, w.r.retired)
  }

  /** The template has the text last entered for it and can be opened. */
  predicate Kept(w: World, id: TemplateId) {
    id in w.all && id in w.written && Readable(w, id) && w.all[id].sealed.text == w.written[id] && w.all[id].id == id
  }

  /** What must be respected for nothing to be lost: no rotation while eight keys are retired, and no
      template stored once a pass has its listing or under a key the node does not have. */
  predicate Careful(w: World, e: Event) {
    match e
    case Store(id, key, text) => (w.going.Some? ==> w.going.value.todo.None?) && Holds(w, key)
    case RotateTo(key) => |w.r.retired| < MAX_RETIRED_ROOM_KEYS
    case _ => true
  }

  ghost predicate KeysOk(w: World) {
    w.r.room in w.used && w.r.room !in w.r.retired && (forall k :: k in w.r.retired ==> k in w.used) &&
    (forall i, j :: 0 <= i < j < |w.r.retired| ==> w.r.retired[i] != w.r.retired[j])
  }

  /** The pass still has every key it read, and the node's other keys are all newer. */
  ghost predicate PassKeysOk(w: World, g: Going) {
    Holds(w, g.current) && g.current in g.known && g.current !in g.retired && (forall k :: k in g.retired ==> k in g.known) && g.known <= w.used &&
    (if w.r.room == g.current then w.used == g.known else w.r.room !in g.known) &&
    (forall k :: Holds(w, k) && k in g.known ==> k == g.current || k in g.retired)
  }

  /** What is still to do is stored as it was listed; the rest is sealed under the pass's key or under
      one made since the pass read its keys. */
  ghost predicate TodoOk(w: World, g: Going, todo: seq<Template>) {
    Lists(w.all, todo) &&
    forall id :: id in w.all ==> w.all[id] in todo || w.all[id].sealed.key == g.current || w.all[id].sealed.key !in g.known
  }

  ghost predicate GoingOk(w: World, g: Going) {
    PassKeysOk(w, g) && (g.todo.Some? ==> TodoOk(w, g, g.todo.value))
  }

  ghost predicate AllKept(w: World) {
    w.all.Keys == w.written.Keys && forall id :: id in w.all ==> Kept(w, id)
  }

  ghost predicate Inv(w: World) {
    KeysOk(w) && AllKept(w) && (w.going.Some? ==> GoingOk(w, w.going.value))
  }

  lemma RotateOk(w: World, key: Key)
    requires Inv(w) && |w.r.retired| < MAX_RETIRED_ROOM_KEYS
    ensures Inv(Do(w, RotateTo(key)))
  {
    var w' := Do(w, RotateTo(key));
    if key !in w.used {
      assert w'.r.retired == [w.r.room] + w.r.retired;
      assert forall k :: Holds(w', k) <==> k == key || Holds(w, k);
      forall id | id in w'.all ensures Kept(w', id) {
        assert Kept(w, id);
      }
    }
  }

  lemma StoreOk(w: World, id: TemplateId, key: Key, text: string)
    requires Inv(w) && Careful(w, Store(id, key, text))
    ensures Inv(Do(w, Store(id, key, text)))
  {
    var w' := Do(w, Store(id, key, text));
    forall i | i in w'.all ensures Kept(w', i) {
      assert i != id ==> Kept(w, i);
    }
    if w.going.Some? {
      assert PassKeysOk(w', w.going.value);
    }
  }

  /** Treating a template that is stored as listed leaves it, re-seals it under the pass's key, or,
      when its key is newer than the pass's, flags it. */
  lemma TreatedOne(w: World, answers: bool)
    requires Inv(w) && Doing(w)
    ensures var g, t, w' := w.going.value, Head(w), Do(w, NextTemplate(answers));
      var rest := Some(g.(todo := Some(g.todo.value[1..])));
      t.id in w.all && w.all[t.id] == t && Readable(w, t.id) &&
      (if t.sealed.key == g.current then w'.all == w.all && w'.going == rest
       else if t.sealed.key !in g.known && t.unreadable then w'.all == w.all && w'.going == rest
       else if !answers then w'.all == w.all && w'.going.None?
       else if t.sealed.key !in g.known then w'.all == w.all[t.id := t.(unreadable := true)] && w'.going == rest
       else
         w'.all == w.all[t.id := Template(t.id, Sealed(w.node, g.current, t.sealed.text), false)] && w'.going == rest)
  {
    var g, t := w.going.value, Head(w);
    assert Kept(w, t.id);
    assert Holds(w, t.sealed.key);
  }

  lemma NextOk(w: World, answers: bool)
    requires Inv(w)
    ensures Inv(Do(w, NextTemplate(answers)))
  {
    if Doing(w) {
      var w', g, t := Do(w, NextTemplate(answers)), w.going.value, Head(w);
      TreatedOne(w, answers);
      assert w'.r == w.r && w'.node == w.node && w'.used == w.used && w'.written == w.written;
      hide Do;
      assert Kept(w, t.id);
      forall id | id in w'.all ensures Kept(w', id) {
        assert Kept(w, id);
      }
      if w'.going.Some? {
        StillGoing(w, w', g, t);
      }
    }
  }

  lemma StillGoing(w: World, w': World, g: Going, t: Template)
    requires GoingOk(w, g) && g.todo.Some? && g.todo.value != [] && t == g.todo.value[0]
    requires w'.r == w.r && w'.node == w.node && w'.used == w.used && w'.all.Keys == w.all.Keys && t.id in w.all
    requires w'.all[t.id].sealed.key == g.current || w'.all[t.id].sealed.key !in g.known
    requires forall id :: id in w.all && id != t.id ==> w'.all[id] == w.all[id] && w.all[id].id == id
    ensures GoingOk(w', g.(todo := Some(g.todo.value[1..])))
  {
    var todo := g.todo.value;
    forall id | id in w'.all
      ensures w'.all[id] in todo[1..] || w'.all[id].sealed.key == g.current || w'.all[id].sealed.key !in g.known
    {
      if id != t.id && w.all[id] in todo {
        var i :| 0 <= i < |todo| && todo[i] == w.all[id];
        assert todo[1..][i - 1] == w.all[id];
      }
    }
    assert Lists(w'.all, todo[1..]);
  }

  /** What is not under the key of a pass that ends under the room key is newer than every key. */
  lemma AllUnderPassKey(w: World, id: TemplateId)
    requires Inv(w) && w.going.Some? && w.going.value.todo == Some([]) && w.r.room == w.going.value.current && id in w.all
    ensures w.all[id].sealed.key == w.r.room
  {
    assert Kept(w, id);
  }

  lemma EndOk(w: World)
    requires Inv(w)
    ensures Inv(Do(w, EndPass))
  {
    var w' := Do(w, EndPass);
    if w.going.Some? && w.going.value.todo == Some([]) && w.r.room == w.going.value.current {
      forall id | id in w'.all ensures Kept(w', id) {
        assert Kept(w, id);
        AllUnderPassKey(w, id);
      }
    } else {
      forall id | id in w'.all ensures Kept(w', id) {
        assert Kept(w, id);
      }
    }
  }

  lemma ListedOk(w: World, listed: seq<Template>)
    requires Inv(w)
    ensures Inv(Do(w, Listed(listed)))
  {
    var w' := Do(w, Listed(listed));
    forall id | id in w'.all ensures Kept(w', id) {
      assert Kept(w, id);
    }
  }

  lemma DoOk(w: World, e: Event)
    requires Inv(w) && Careful(w, e)
    ensures Inv(Do(w, e))
  {
    match e
    case Store(id, key, text) => StoreOk(w, id, key, text);
    case RotateTo(key) => RotateOk(w, key);
    case StartPass => SameKept(w, e);
    case Listed(listed) => ListedOk(w, listed);
    case NextTemplate(answers) => NextOk(w, answers);
    case EndPass => EndOk(w);
    case PassStops => SameKept(w, e);
  }

  lemma SameKept(w: World, e: Event)
    requires Inv(w) && (e.StartPass? || e.PassStops?)
    ensures Inv(Do(w, e))
  {
    var w' := Do(w, e);
    forall id | id in w'.all ensures Kept(w', id) {
      assert Kept(w, id);
    }
  }

  function Start(node: NodeId, key: Key): World {
    World.World(Registry([], key, [], map[]), node, map[], None, {key}, map[])
  }

  ghost function Run(node: NodeId, key: Key, events: seq<Event>): World {
    if events == [] then Start(node, key) else Do(Run(node, key, events[..|events| - 1]), events[|events| - 1])
  }

  ghost predicate CarefulRun(node: NodeId, key: Key, events: seq<Event>) {
    events != [] ==>
      CarefulRun(node, key, events[..|events| - 1]) &&
      Careful(Run(node, key, events[..|events| - 1]), events[|events| - 1])
  }

  lemma {:induction false} RunOk(node: NodeId, key: Key, events: seq<Event>)
    requires CarefulRun(node, key, events)
    ensures Inv(Run(node, key, events))
  {
    hide Do, Careful;
    if events != [] {
      RunOk(node, key, events[..|events| - 1]);
      hide Inv;
      DoOk(Run(node, key, events[..|events| - 1]), events[|events| - 1]);
    }
  }

  /** However rotations, passes cut short, and passes overtaken by rotations interleave, a careful run
      leaves every template readable with the text last entered for it, through every forgetting of
      retired keys. */
  lemma NoTemplateIsLost(node: NodeId, key: Key, events: seq<Event>, id: TemplateId)
    requires CarefulRun(node, key, events)
    ensures var w := Run(node, key, events);
      (id in w.all <==> id in w.written) && (id in w.all ==> Readable(w, id) && w.all[id].sealed.text == w.written[id])
  {
    RunOk(node, key, events);
    var w := Run(node, key, events);
    if id in w.all {
      assert Kept(w, id);
    }
  }

  /** A pass that ends with the room key it started with leaves everything under that key. */
  lemma PassEndsCurrent(node: NodeId, key: Key, events: seq<Event>)
    requires CarefulRun(node, key, events)
    requires var w := Run(node, key, events); w.going.Some? && Do(w, EndPass).going.None?
    ensures var w := Do(Run(node, key, events), EndPass);
      forall id :: id in w.all ==> w.all[id].sealed.key == w.r.room
  {
    RunOk(node, key, events);
    var w := Run(node, key, events);
    forall id | id in w.all ensures w.all[id].sealed.key == w.r.room {
      AllUnderPassKey(w, id);
    }
  }

  // ---- Each condition is needed -------------------------------------------------

  /** A rotation makes a readable template unreadable just when eight keys are retired and it is
      sealed under the oldest of them. */
  lemma RotationLosesJustWhen(w: World, key: Key, id: TemplateId)
    requires KeysOk(w) && key !in w.used && Readable(w, id) && |w.r.retired| <= MAX_RETIRED_ROOM_KEYS
    ensures !Readable(Do(w, RotateTo(key)), id) <==>
      |w.r.retired| == MAX_RETIRED_ROOM_KEYS && w.all[id].sealed.key == w.r.retired[MAX_RETIRED_ROOM_KEYS - 1]
  {
    var longer, after := [w.r.room] + w.r.retired, Do(w, RotateTo(key)).r.retired;
    var k := w.all[id].sealed.key;
    assert longer[0] == w.r.room && forall i :: 0 <= i < |w.r.retired| ==> longer[i + 1] == w.r.retired[i];
    var i :| 0 <= i < |longer| && longer[i] == k;
    assert i < MAX_RETIRED_ROOM_KEYS ==> after[i] == k;
    assert forall j :: 0 <= j < |after| ==> after[j] == longer[j];
  }
}
