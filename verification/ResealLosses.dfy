/** What forgetting retired keys loses: which stores during a pass, and which rotations, leave a template
    that no key of the node opens. */
module ResealLosses {
  import opened Wrappers
  import DeviceRegistry
  import opened Reseal
  import opened ResealSafety
  import opened ResealDuringPass

  // ---- The end of a pass ---------------------------------------------------------------

  /** The events after the template's turn, or all of them before it had one. */
  ghost function SinceTurn(w: World, events: seq<Event>, id: TemplateId): seq<Event> {
    if events == [] then []
    else
      var init, last := events[..|events| - 1], events[|events| - 1];
      if HasTurn(After(w, init), last, id) then [] else SinceTurn(w, init, id) + [last]
  }

  /** The pass is through its listing, no rotation overtook it, and there are keys to forget. */
  predicate Forgets(w: World) {
    w.going.Some? && w.going.value.todo == Some([]) && w.r.room == w.going.value.current && w.going.value.retired != []
  }

  predicate Redone(g: Going, t: Template) {
    t.sealed.key != g.current && t.sealed.key in g.retired
  }

  lemma LastStoredAppend(events: seq<Event>, e: Event, id: TemplateId)
    ensures LastStored(events + [e], id) == if StoreOf(e, id) then OneStored(e) else LastStored(events, id)
  {
    assert (events + [e])[..|events|] == events;
  }

  lemma TurnIsListed(g: Going, listed: seq<Template>, node: NodeId, w: World, e: Event, id: TemplateId)
    requires Since(g, listed, node, w) && HasTurn(w, e, id)
    ensures exists i :: 0 <= i < |listed| && listed[i].id == id
  {
    assert Head(w) == listed[|listed| - |w.going.value.todo.value|];
  }

  /** A template that was not listed is under the key it was last stored under. */
  lemma {:induction false} NotListedKey(g: Going, listed: seq<Template>, w: World, events: seq<Event>, id: TemplateId)
    requires Since(g, listed, w.node, w) && OnePass(events) && Distinct(listed, w.node)
    requires id !in w.all && forall i :: 0 <= i < |listed| ==> listed[i].id != id
    ensures var x, entered := After(w, events), LastStored(events, id);
      Since(g, listed, w.node, x) && (id in x.all <==> entered.Some?) &&
      (id in x.all ==> x.all[id].sealed.node == w.node && x.all[id].sealed.key == entered.value.key)
  {
    hide Do, Since;
    if events != [] {
      var init, last := events[..|events| - 1], events[|events| - 1];
      NotListedKey(g, listed, w, init, id);
      if HasTurn(After(w, init), last, id) {
        TurnIsListed(g, listed, w.node, After(w, init), last, id);
      }
      OneEvent(g, listed, w.node, After(w, init), last, id);
    }
  }

  /** A listed template the pass does not re-seal is under the key it was last stored under. */
  lemma {:induction false} NotRedoneKey(g: Going, listed: seq<Template>, i: nat, w: World, events: seq<Event>)
    requires Since(g, listed, w.node, w) && OnePass(events) && Distinct(listed, w.node) && i < |listed|
    requires listed[i].id in w.all && w.all[listed[i].id] == listed[i] && !Redone(g, listed[i])
    ensures var x, id, entered := After(w, events), listed[i].id, LastStored(events, listed[i].id);
      Since(g, listed, w.node, x) && id in x.all && x.all[id].id == id && x.all[id].sealed.node == w.node &&
      x.all[id].sealed.key == if entered.Some? then entered.value.key else listed[i].sealed.key
  {
    hide Do, Since;
    if events != [] {
      var init, last, id := events[..|events| - 1], events[|events| - 1], listed[i].id;
      NotRedoneKey(g, listed, i, w, init);
      if HasTurn(After(w, init), last, id) {
        OneTurn(g, listed, w.node, i, After(w, init), last.answers);
      } else {
        OneEvent(g, listed, w.node, After(w, init), last, id);
      }
    }
  }

  predicate RedoneAs(g: Going, listed: seq<Template>, i: nat, x: World, entered: Option<Entry>)
    requires i < |listed|
  {
    var id := listed[i].id;
    id in x.all && x.all[id].id == id && x.all[id].sealed.node == x.node &&
    (HasListing(x) && Past(listed, i, x) ==> x.all[id].sealed.key == if entered.Some? then entered.value.key else g.current)
  }

  lemma RedoneStep(g: Going, listed: seq<Template>, node: NodeId, i: nat, x: World, e: Event, entered: Option<Entry>)
    requires Since(g, listed, node, x) && Distinct(listed, node) && i < |listed| && Redone(g, listed[i]) && !e.Listed?
    requires RedoneAs(g, listed, i, x, entered)
    ensures RedoneAs(g, listed, i, Do(x, e),
                     if HasTurn(x, e, listed[i].id) then None else if StoreOf(e, listed[i].id) then OneStored(e) else entered)
  {
    SinceNode(g, listed, node, x);
    OneEvent(g, listed, node, x, e, listed[i].id);
    SinceNode(g, listed, node, Do(x, e));
    if HasTurn(x, e, listed[i].id) {
      OneTurn(g, listed, node, i, x, e.answers);
      hide Do, Since;
    } else if HasListing(Do(x, e)) && Past(listed, i, Do(x, e)) {
      NoListingAnew(x, e);
      PastBefore(g, listed, node, i, x, e);
      hide Do, Since;
    } else {
      hide Do, Since;
    }
  }

  /** A listed template the pass re-seals is, after its turn, under the pass's key or the key it was last
      stored under since then. */
  lemma {:induction false} RedoneKey(g: Going, listed: seq<Template>, i: nat, w: World, events: seq<Event>)
    requires Since(g, listed, w.node, w) && OnePass(events) && Distinct(listed, w.node) && i < |listed|
    requires listed[i].id in w.all && w.all[listed[i].id] == listed[i] && Redone(g, listed[i])
    requires HasListing(w) ==> Waits(listed, i, w)
    ensures var x := After(w, events);
      Since(g, listed, w.node, x) && RedoneAs(g, listed, i, x, LastStored(SinceTurn(w, events, listed[i].id), listed[i].id))
  {
    if events == [] {
    } else {
      var init, last, id := events[..|events| - 1], events[|events| - 1], listed[i].id;
      RedoneKey(g, listed, i, w, init);
      LastStoredAppend(SinceTurn(w, init, id), last, id);
      hide Do, Since, RedoneAs;
      OneEvent(g, listed, w.node, After(w, init), last, id);
      RedoneStep(g, listed, w.node, i, After(w, init), last, LastStored(SinceTurn(w, init, id), id));
    }
  }

  lemma NoListingAnew(w: World, e: Event)
    requires !e.Listed? && HasListing(Do(w, e))
    ensures HasListing(w)
  {}

  /** Without its turn the pass does not get past a template. */
  lemma PastBefore(g: Going, listed: seq<Template>, node: NodeId, i: nat, w: World, e: Event)
    requires Since(g, listed, node, w) && !e.Listed? && i < |listed| && !HasTurn(w, e, listed[i].id)
    requires HasListing(Do(w, e)) && Past(listed, i, Do(w, e))
    ensures Past(listed, i, w)
  {
    if e.NextTemplate? && Doing(w) {
      var k := |listed| - |w.going.value.todo.value|;
      assert Head(w) == listed[k];
    }
  }

  /** From a listing to a pass's end that forgets the retired keys, with stores and rotations in any
      order: a template cannot be read afterwards just when what counts as last stored was under another
      key than the room key. For a template the pass re-sealed only what came after its turn counts, for
      any other whatever came since the listing; with nothing stored, one that the pass could not open
      stays unreadable. */
  lemma EndLosesJustWhen(node: NodeId, key: DeviceRegistry.Key, events: seq<Event>, listed: seq<Template>, during: seq<Event>,
      id: TemplateId)
    requires OnePass(during)
    requires var w := Run(node, key, events); w.going.Some? && w.going.value.todo.None? && Listing(w.all, listed)
    requires var end := After(Do(Run(node, key, events), Listed(listed)), during); Forgets(end) && id in end.all
    ensures var w := Run(node, key, events);
      var g, start := w.going.value, Do(w, Listed(listed));
      var end := After(start, during);
      var entered := LastStored(if id in w.all && Redone(g, w.all[id]) then SinceTurn(start, during, id) else during, id);
      !Readable(Do(end, EndPass), id) <==>
        if entered.Some? then entered.value.key != end.r.room
        else id in w.all && !Opens(w.all[id], node, g.current, g.retired)
  {
    var w, g := Run(node, key, events), Run(node, key, events).going.value;
    var start := Do(w, Listed(listed));
    var end := After(start, during);
    ListingShows(node, key, events, listed);
    ForgottenEnd(end, id);
    if id in w.all {
      RunShaped(node, key, events);
      assert w.all[id] in listed;
      var i :| 0 <= i < |listed| && listed[i] == w.all[id];
      assert listed[i].id == id && listed[i].sealed.node == node;
      assert HasListing(start) ==> Waits(listed, i, start);
      hide Run, Listing, After, Do, Shaped;
      if Redone(g, w.all[id]) {
        RedoneKey(g, listed, i, start, during);
      } else {
        NotRedoneKey(g, listed, i, start, during);
      }
    } else {
      hide Run, After, Do;
      NotListedKey(g, listed, start, during, id);
    }
  }

  lemma ForgottenEnd(w: World, id: TemplateId)
    requires Forgets(w) && id in w.all
    ensures Readable(Do(w, EndPass), id) <==> w.all[id].sealed.node == w.node && w.all[id].sealed.key == w.r.room
  {}

  /** A loss is reached: a device that has not got the new key yet stores a template during the pass. */
  lemma EndLossReached(node: NodeId, key: DeviceRegistry.Key, newer: DeviceRegistry.Key, id: TemplateId, text: string)
    requires newer != key
    ensures var w := Do(Do(Start(node, key), RotateTo(newer)), StartPass);
      Careful(Start(node, key), RotateTo(newer)) &&
      var stored := Do(Do(w, Listed([])), Store(id, key, text));
      Readable(stored, id) && Forgets(stored) && id in Do(stored, EndPass).all && !Readable(Do(stored, EndPass), id)
  {
    assert Listing(Start(node, key).all, []);
  }

  // ---- Rotations -----------------------------------------------------------------------

  function Rotations(keys: seq<DeviceRegistry.Key>): seq<Event> {
    if keys == [] then [] else Rotations(keys[..|keys| - 1]) + [RotateTo(keys[|keys| - 1])]
  }

  /** A first key and new ones after it. */
  ghost predicate AllNew(key: DeviceRegistry.Key, keys: seq<DeviceRegistry.Key>) {
    (forall i :: 0 <= i < |keys| ==> keys[i] != key) && (forall i, j :: 0 <= i < j < |keys| ==> keys[i] != keys[j])
  }

  /** Some rotations after a first store: the first key is the oldest of the retired ones. */
  ghost predicate Rotated(w: World, key: DeviceRegistry.Key, keys: seq<DeviceRegistry.Key>) {
    KeysOk(w) && |w.r.retired| == |keys| && w.r.room == (if keys == [] then key else keys[|keys| - 1]) &&
    (keys != [] ==> w.r.retired[|keys| - 1] == key) && (forall k :: k in w.used <==> k == key || k in keys)
  }

  lemma {:induction false} RotatesOn(w: World, key: DeviceRegistry.Key, keys: seq<DeviceRegistry.Key>)
    requires Rotated(w, key, []) && AllNew(key, keys) && |keys| <= DeviceRegistry.MAX_RETIRED_ROOM_KEYS
    ensures var w' := After(w, Rotations(keys)); Rotated(w', key, keys) && w'.all == w.all && w'.node == w.node
  {
    hide Do, Rotated;
    if keys != [] {
      var init, last := keys[..|keys| - 1], keys[|keys| - 1];
      RotatesOn(w, key, init);
      assert Rotations(keys)[..|Rotations(keys)| - 1] == Rotations(init);
      RotatesOnce(After(w, Rotations(init)), key, init, last);
      assert keys == init + [last];
    }
  }

  lemma RotatesOnce(w: World, key: DeviceRegistry.Key, keys: seq<DeviceRegistry.Key>, last: DeviceRegistry.Key)
    requires Rotated(w, key, keys) && last != key && last !in keys && |keys| < DeviceRegistry.MAX_RETIRED_ROOM_KEYS
    ensures var w' := Do(w, RotateTo(last)); Rotated(w', key, keys + [last]) && w'.all == w.all && w'.node == w.node
  {
    var w' := Do(w, RotateTo(last));
    assert w'.r.retired == [w.r.room] + w.r.retired;
  }

  /** A template stored under the first key is lost at the ninth rotation without a finished pass. */
  lemma RotationLossReached(node: NodeId, key: DeviceRegistry.Key, keys: seq<DeviceRegistry.Key>, id: TemplateId, text: string)
    requires |keys| == DeviceRegistry.MAX_RETIRED_ROOM_KEYS + 1 && AllNew(key, keys)
    ensures var n := DeviceRegistry.MAX_RETIRED_ROOM_KEYS;
      var w := After(Do(Start(node, key), Store(id, key, text)), Rotations(keys[..n]));
      KeysOk(w) && Readable(w, id) && keys[n] !in w.used && !Readable(Do(w, RotateTo(keys[n])), id)
  {
    var n := DeviceRegistry.MAX_RETIRED_ROOM_KEYS;
    var w0 := Do(Start(node, key), Store(id, key, text));
    RotatesOn(w0, key, keys[..n]);
    var w := After(w0, Rotations(keys[..n]));
    assert w.all[id].sealed == Sealed(node, key, text);
    hide Do, After;
    RotationLosesJustWhen(w, keys[n], id);
  }
}
