/** What a re-sealing pass does to a template that is stored while the pass runs: when the entered text
    is lost, and when a template the node can read is flagged as unreadable. */
module ResealDuringPass {
  import opened Wrappers
  import DeviceRegistry
  import opened Reseal
  import opened ResealSafety

  ghost function After(w: World, events: seq<Event>): World {
    if events == [] then w else Do(After(w, events[..|events| - 1]), events[|events| - 1])
  }

  datatype Entry = Entry(key: DeviceRegistry.Key, text: string)

  /** What was last entered for a template in a stretch of events, and under which key. */
  function LastStored(events: seq<Event>, id: TemplateId): Option<Entry> {
    if events == [] then None
    else
      var last := events[|events| - 1];
      if last.Store? && last.id == id then Some(Entry(last.key, last.text)) else LastStored(events[..|events| - 1], id)
  }

  /** No other pass gets a listing. */
  predicate OnePass(events: seq<Event>) {
    forall i :: 0 <= i < |events| ==> !events[i].Listed?
  }

  // ---- One pass, template by template ------------------------------------------------

  predicate HasListing(w: World) {
    w.going.Some? && w.going.value.todo.Some?
  }

  /** In every run, careful or not, templates are this node's and stored under their ids. */
  ghost predicate Shaped(w: World) {
    (forall id :: id in w.all ==> w.all[id].id == id && w.all[id].sealed.node == w.node) &&
    (HasListing(w) ==> forall i :: 0 <= i < |w.going.value.todo.value| ==> w.going.value.todo.value[i].sealed.node == w.node) &&
    w.r.room in w.used
  }

  lemma {:induction false} RunShaped(node: NodeId, key: DeviceRegistry.Key, events: seq<Event>)
    ensures Shaped(Run(node, key, events)) && Run(node, key, events).node == node
  {
    hide Do, Shaped;
    if events == [] {
      StartShaped(node, key);
    } else {
      RunShaped(node, key, events[..|events| - 1]);
      ShapedStep(Run(node, key, events[..|events| - 1]), events[|events| - 1]);
    }
  }

  lemma StartShaped(node: NodeId, key: DeviceRegistry.Key)
    ensures Shaped(Start(node, key))
  {}

  lemma ShapedStep(w: World, e: Event)
    requires Shaped(w)
    ensures Shaped(Do(w, e)) && Do(w, e).node == w.node
  {}

  /** The stored template when its turn is over, from its listed copy and what was stored until then. */
  function Turned(g: Going, listed: Template, now: Template, answers: bool): Template {
    if listed.sealed.key == g.current || !answers then now
    else if listed.sealed.key in g.retired then
      Template(listed.id, Sealed(listed.sealed.node, g.current, listed.sealed.text), false)
    else if listed.unreadable then now
    else now.(unreadable := true)
  }

  /** A template some stores after it was as given. */
  function Stored(was: Template, entry: Option<Entry>): Template {
    if entry.None? then was else Template(was.id, Sealed(was.sealed.node, entry.value.key, entry.value.text), false)
  }

  /** Some events after a pass with keys g got its listing. */
  predicate Since(g: Going, listed: seq<Template>, node: NodeId, w: World) {
    w.node == node &&
    (HasListing(w) ==>
       (var p := w.going.value;
        p.current == g.current && p.retired == g.retired && |p.todo.value| <= |listed| &&
        p.todo.value == listed[|listed| - |p.todo.value|..]))
  }

  /** The i-th listed template has not had its turn. */
  predicate Waits(listed: seq<Template>, i: nat, w: World) {
    HasListing(w) && |w.going.value.todo.value| >= |listed| - i
  }

  /** The pass is past the i-th listed template, or over. */
  predicate Past(listed: seq<Template>, i: nat, w: World) {
    !Waits(listed, i, w)
  }

  ghost predicate Distinct(listed: seq<Template>, node: NodeId) {
    (forall i, j :: 0 <= i < j < |listed| ==> listed[i].id != listed[j].id) &&
    forall i :: 0 <= i < |listed| ==> listed[i].sealed.node == node
  }

  predicate StoreOf(e: Event, id: TemplateId) {
    e.Store? && e.id == id
  }

  function OneStored(e: Event): Option<Entry>
    requires e.Store?
  {
    Some(Entry(e.key, e.text))
  }

  predicate HasTurn(w: World, e: Event, id: TemplateId) {
    e.NextTemplate? && Doing(w) && Head(w).id == id
  }

  /** One event: it stores the template, is its turn, or leaves it alone. */
  lemma OneEvent(g: Going, listed: seq<Template>, node: NodeId, w: World, e: Event, id: TemplateId)
    requires Since(g, listed, node, w) && !e.Listed? && Distinct(listed, node)
    ensures var w' := Do(w, e);
      Since(g, listed, node, w') &&
      (StoreOf(e, id) ==> id in w'.all && w'.all[id] == Template(id, Sealed(node, e.key, e.text), false)) &&
      (!StoreOf(e, id) && !HasTurn(w, e, id) ==> (id in w'.all <==> id in w.all) && (id in w.all ==> w'.all[id] == w.all[id]))
  {
    if e.NextTemplate? && Doing(w) {
      var k := |listed| - |w.going.value.todo.value|;
      assert Head(w) == listed[k];
      assert listed[k..][1..] == listed[k + 1..];
    }
  }

  lemma OrderOfTurns(g: Going, listed: seq<Template>, node: NodeId, w: World, e: Event, i: nat)
    requires Since(g, listed, node, w) && !e.Listed? && Distinct(listed, node) && i < |listed|
    ensures Waits(listed, i, Do(w, e)) ==> Waits(listed, i, w) && !HasTurn(w, e, listed[i].id)
    ensures Past(listed, i, w) ==> Past(listed, i, Do(w, e)) && !HasTurn(w, e, listed[i].id)
  {
    if e.NextTemplate? && Doing(w) {
      var k := |listed| - |w.going.value.todo.value|;
      assert Head(w) == listed[k];
    }
  }

  /** The turn itself. */
  lemma OneTurn(g: Going, listed: seq<Template>, node: NodeId, i: nat, w: World, answers: bool)
    requires i < |listed| && Since(g, listed, node, w) && Distinct(listed, node)
    requires HasTurn(w, NextTemplate(answers), listed[i].id)
    requires var id := listed[i].id; id in w.all && w.all[id].sealed.node == node && w.all[id].id == id
    ensures var w', id := Do(w, NextTemplate(answers)), listed[i].id;
      Since(g, listed, node, w') && Past(listed, i, w') && id in w'.all && w'.all[id] == Turned(g, listed[i], w.all[id], answers)
    ensures HasListing(Do(w, NextTemplate(answers))) ==>
      answers || listed[i].sealed.key == g.current || (listed[i].unreadable && listed[i].sealed.key !in g.retired)
  {
    var k := |listed| - |w.going.value.todo.value|;
    assert Head(w) == listed[k] && k == i;
    assert listed[k..][1..] == listed[k + 1..];
  }

  /** Until its turn comes a template is as it was last stored. */
  lemma {:induction false} BeforeTurn(g: Going, listed: seq<Template>, node: NodeId, i: nat, w: World, events: seq<Event>)
    requires i < |listed| && Since(g, listed, node, w) && OnePass(events) && Distinct(listed, node)
    requires listed[i].id in w.all && w.all[listed[i].id] == listed[i]
    ensures var w', id := After(w, events), listed[i].id;
      Since(g, listed, node, w') &&
      (Waits(listed, i, w') ==> id in w'.all && w'.all[id] == Stored(listed[i], LastStored(events, id)))
  {
    hide Do, Since;
    if events != [] {
      var init := events[..|events| - 1];
      BeforeTurn(g, listed, node, i, w, init);
      OneEvent(g, listed, node, After(w, init), events[|events| - 1], listed[i].id);
      OrderOfTurns(g, listed, node, After(w, init), events[|events| - 1], i);
    }
  }

  /** After its turn the pass leaves the template alone. */
  lemma {:induction false} AfterTurn(g: Going, listed: seq<Template>, node: NodeId, i: nat, w: World, events: seq<Event>)
    requires i < |listed| && Since(g, listed, node, w) && OnePass(events) && Distinct(listed, node) && Past(listed, i, w)
    requires var id := listed[i].id; id in w.all && w.all[id].id == id && w.all[id].sealed.node == node
    ensures var w', id := After(w, events), listed[i].id;
      Since(g, listed, node, w') && Past(listed, i, w') && id in w'.all && w'.all[id] == Stored(w.all[id], LastStored(events, id))
  {
    hide Do, Since;
    if events != [] {
      var init := events[..|events| - 1];
      AfterTurn(g, listed, node, i, w, init);
      OneEvent(g, listed, node, After(w, init), events[|events| - 1], listed[i].id);
      OrderOfTurns(g, listed, node, After(w, init), events[|events| - 1], i);
    }
  }

  /** From the listing through a template's turn: what is stored then. */
  lemma ThroughTurn(g: Going, listed: seq<Template>, i: nat, start: World, before: seq<Event>, answers: bool)
    requires i < |listed| && Since(g, listed, start.node, start) && OnePass(before) && Distinct(listed, start.node)
    requires listed[i].id in start.all && start.all[listed[i].id] == listed[i]
    requires HasTurn(After(start, before), NextTemplate(answers), listed[i].id)
    ensures var turn, id := After(start, before), listed[i].id;
      var w, now := Do(turn, NextTemplate(answers)), Stored(listed[i], LastStored(before, listed[i].id));
      id in turn.all && turn.all[id] == now &&
      Since(g, listed, start.node, w) && Past(listed, i, w) && id in w.all && w.all[id] == Turned(g, listed[i], now, answers)
  {
    var turn := After(start, before);
    BeforeTurn(g, listed, start.node, i, start, before);
    TurnIsWaiting(g, listed, start.node, i, turn);
    OneTurn(g, listed, start.node, i, turn, answers);
  }

  lemma TurnIsWaiting(g: Going, listed: seq<Template>, node: NodeId, i: nat, w: World)
    requires i < |listed| && Since(g, listed, node, w) && Distinct(listed, node) && Doing(w) && Head(w).id == listed[i].id
    ensures Waits(listed, i, w)
  {
    assert Head(w) == listed[|listed| - |w.going.value.todo.value|];
  }

  /** What a listing shows in any run. */
  lemma ListingShows(node: NodeId, key: DeviceRegistry.Key, events: seq<Event>, listed: seq<Template>)
    requires var w := Run(node, key, events); w.going.Some? && w.going.value.todo.None? && Listing(w.all, listed)
    ensures var w := Run(node, key, events);
      var start := Do(w, Listed(listed));
      Distinct(listed, node) && start.node == node && Since(w.going.value, listed, node, start) &&
      start.all == w.all && start.r == w.r && start.written == w.written && start.going.Some? &&
      (forall i :: 0 <= i < |listed| ==> listed[i].id in w.all && w.all[listed[i].id] == listed[i])
  {
    RunShaped(node, key, events);
    assert listed[|listed| - |listed|..] == listed;
  }

  // ---- Entered text ------------------------------------------------------------------

  /** From the listing to any point after a template's turn, whatever else happens: the text last
      entered for it is lost just when other text was last entered before its turn than was listed,
      none was entered after it, the listed copy was under a retired key of the pass, and the pass's
      request got through. */
  lemma TextLostJustWhen(node: NodeId, key: DeviceRegistry.Key, events: seq<Event>, listed: seq<Template>, id: TemplateId,
      before: seq<Event>, answers: bool, after: seq<Event>)
    requires CarefulRun(node, key, events) && OnePass(before) && OnePass(after)
    requires var w := Run(node, key, events);
      id in w.all && w.going.Some? && w.going.value.todo.None? && Listing(w.all, listed)
    requires var turn := After(Do(Run(node, key, events), Listed(listed)), before); Doing(turn) && Head(turn).id == id
    ensures var w := Run(node, key, events);
      var turn := After(Do(w, Listed(listed)), before);
      var end := After(Do(turn, NextTemplate(answers)), after);
      id in end.all && id in end.written &&
      (end.all[id].sealed.text != end.written[id] <==>
       answers && w.all[id].sealed.key in w.going.value.retired && LastStored(after, id).None? &&
       LastStored(before, id).Some? && LastStored(before, id).value.text != w.all[id].sealed.text)
  {
    RunOk(node, key, events);
    var w, g := Run(node, key, events), Run(node, key, events).going.value;
    assert Kept(w, id) && g.current !in g.retired;
    var i :| 0 <= i < |listed| && listed[i] == w.all[id];
    var start := Do(w, Listed(listed));
    ListingShows(node, key, events, listed);
    hide Run, CarefulRun, Inv, Listing, Since, Do;
    ThroughTurn(g, listed, i, start, before, answers);
    var turned := Do(After(start, before), NextTemplate(answers));
    AfterTurn(g, listed, node, i, turned, after);
    LastWritten(start, before, id);
    WrittenUnturned(After(start, before), NextTemplate(answers), id);
    LastWritten(turned, after, id);
  }

  lemma {:induction false} LastWritten(w: World, events: seq<Event>, id: TemplateId)
    requires id in w.written
    ensures var w' := After(w, events);
      id in w'.written && w'.written[id] == if LastStored(events, id).Some? then LastStored(events, id).value.text else w.written[id]
  {
    hide Do;
    if events != [] {
      LastWritten(w, events[..|events| - 1], id);
      WrittenUnturned(After(w, events[..|events| - 1]), events[|events| - 1], id);
    }
  }

  lemma WrittenUnturned(w: World, e: Event, id: TemplateId)
    requires id in w.written
    ensures id in Do(w, e).written && Do(w, e).written[id] == if StoreOf(e, id) then e.text else w.written[id]
  {}

  /** Such a loss is reached: after a rotation a template is entered again between listing and turn. */
  lemma TextLossReached(node: NodeId, key: DeviceRegistry.Key, newer: DeviceRegistry.Key, id: TemplateId, old_: string, new_: string)
    requires newer != key
    ensures
      var t := Template(id, Sealed(node, key, old_), false);
      var w := Do(Do(Start(node, key), Store(id, key, old_)), RotateTo(newer));
      var end := Do(Do(Do(Do(w, StartPass), Listed([t])), Store(id, newer, new_)), NextTemplate(true));
      id in end.all && id in end.written && end.written[id] == new_ && end.all[id].sealed == Sealed(node, newer, old_)
  {
    var t := Template(id, Sealed(node, key, old_), false);
    var w := Do(Do(Start(node, key), Store(id, key, old_)), RotateTo(newer));
    assert t in [t] && w.all == map[id := t] && Listing(w.all, [t]);
  }

  // ---- Flags -----------------------------------------------------------------------

  /** Whatever was stored, rotated or lost before: at the end of its turn a template is flagged just when
      its listed copy opened under no key of the pass and was not flagged, or was flagged and is still
      as listed and not re-sealed. Whether it can then be read depends on what is stored by then: the
      flag belongs to the listed copy. */
  lemma FlaggedJustWhen(node: NodeId, key: DeviceRegistry.Key, events: seq<Event>, listed: seq<Template>, id: TemplateId,
      before: seq<Event>)
    requires OnePass(before)
    requires var w := Run(node, key, events);
      id in w.all && w.going.Some? && w.going.value.todo.None? && Listing(w.all, listed)
    requires var turn := After(Do(Run(node, key, events), Listed(listed)), before); Doing(turn) && Head(turn).id == id
    ensures var w := Run(node, key, events);
      var (g, was, entered) := (w.going.value, w.all[id], LastStored(before, id));
      var turn := After(Do(w, Listed(listed)), before);
      var end := Do(turn, NextTemplate(true));
      id in end.all &&
      (end.all[id].unreadable <==>
       (if was.unreadable then entered.None? && (was.sealed.key == g.current || was.sealed.key !in g.retired)
        else was.sealed.key != g.current && was.sealed.key !in g.retired)) &&
      (Readable(end, id) <==>
       Holds(turn, if was.sealed.key != g.current && was.sealed.key in g.retired then g.current
                   else if entered.Some? then entered.value.key else was.sealed.key))
  {
    var w, turn := Run(node, key, events), After(Do(Run(node, key, events), Listed(listed)), before);
    RunShaped(node, key, events);
    TurnLeaves(node, key, events, listed, id, before);
    var end := Do(turn, NextTemplate(true));
    assert w.all[id].id == id && w.all[id].sealed.node == w.node;
    assert end.r == turn.r;
    hide Run, After, Do, Listing, Shaped;
    assert Readable(end, id) <==> end.all[id].sealed.node == end.node && Holds(turn, end.all[id].sealed.key);
  }

  lemma TurnLeaves(node: NodeId, key: DeviceRegistry.Key, events: seq<Event>, listed: seq<Template>, id: TemplateId,
      before: seq<Event>)
    requires OnePass(before)
    requires var w := Run(node, key, events);
      id in w.all && w.going.Some? && w.going.value.todo.None? && Listing(w.all, listed)
    requires var turn := After(Do(Run(node, key, events), Listed(listed)), before); Doing(turn) && Head(turn).id == id
    ensures var w := Run(node, key, events);
      var end := Do(After(Do(w, Listed(listed)), before), NextTemplate(true));
      id in end.all && w.node == node && end.node == node &&
      end.all[id] == Turned(w.going.value, w.all[id], Stored(w.all[id], LastStored(before, id)), true)
  {
    var w, g := Run(node, key, events), Run(node, key, events).going.value;
    assert w.all[id] in listed;
    var i :| 0 <= i < |listed| && listed[i] == w.all[id];
    RunShaped(node, key, events);
    assert listed[i].id == id;
    var start := Do(w, Listed(listed));
    ListingShows(node, key, events, listed);
    hide Run, Listing, Since, After, Do, Shaped, Turned, Stored, Distinct;
    ThroughTurn(g, listed, i, start, before, true);
    SinceNode(g, listed, node, Do(After(start, before), NextTemplate(true)));
  }

  lemma SinceNode(g: Going, listed: seq<Template>, node: NodeId, w: World)
    requires Since(g, listed, node, w)
    ensures w.node == node
  {}

  /** In a careful run every template can be read, so every flag is wrong. A turn leaves one just when
      the template is sealed under a key made after the pass read its keys (one that was rotated to,
      and stored under, while the listing was awaited), or already had one under the pass's key. */
  lemma CarefulFlagJustWhen(node: NodeId, key: DeviceRegistry.Key, events: seq<Event>)
    requires CarefulRun(node, key, events) && Doing(Run(node, key, events))
    ensures var w := Run(node, key, events);
      var t, g, w' := Head(w), w.going.value, Do(w, NextTemplate(true));
      Readable(w', t.id) &&
      (w'.all[t.id].unreadable <==> t.sealed.key !in g.known || (t.unreadable && t.sealed.key == g.current))
  {
    RunOk(node, key, events);
    var w := Run(node, key, events);
    TreatedOne(w, true);
    NextOk(w, true);
    assert Kept(Do(w, NextTemplate(true)), Head(w).id);
  }

  /** A flag goes just when the template is stored again or re-sealed from a key the pass read as retired. */
  lemma FlagClearedJustWhen(node: NodeId, key: DeviceRegistry.Key, events: seq<Event>, e: Event, id: TemplateId)
    requires CarefulRun(node, key, events)
    requires id in Run(node, key, events).all && Run(node, key, events).all[id].unreadable
    ensures var w := Run(node, key, events);
      id in Do(w, e).all &&
      (!Do(w, e).all[id].unreadable <==>
       (e.Store? && e.id == id) ||
       (e == NextTemplate(true) && Doing(w) && Head(w).id == id && Head(w).sealed.key in w.going.value.retired))
  {
    RunOk(node, key, events);
    var w := Run(node, key, events);
    if e.NextTemplate? && Doing(w) {
      TreatedOne(w, e.answers);
      assert Holds(w, Head(w).sealed.key);
    }
  }

  lemma RunOneMore(node: NodeId, key: DeviceRegistry.Key, events: seq<Event>, e: Event)
    ensures Run(node, key, events + [e]) == Do(Run(node, key, events), e)
    ensures CarefulRun(node, key, events + [e]) <==> CarefulRun(node, key, events) && Careful(Run(node, key, events), e)
  {
    hide Do, Careful;
    assert (events + [e])[..|events + [e]| - 1] == events;
  }

  /** So no number of passes clears the flag of a template under the room key, until it is entered
      again or the key is rotated. */
  lemma {:induction false} WrongFlagStays(node: NodeId, key: DeviceRegistry.Key, events: seq<Event>, more: seq<Event>, id: TemplateId)
    requires CarefulRun(node, key, events + more) && CarefulRun(node, key, events)
    requires var w := Run(node, key, events); id in w.all && w.all[id].unreadable && w.all[id].sealed.key == w.r.room
    requires forall i :: 0 <= i < |more| ==> !more[i].RotateTo? && !(more[i].Store? && more[i].id == id)
    ensures var w, w' := Run(node, key, events), Run(node, key, events + more);
      id in w'.all && w'.all[id] == w.all[id] && w'.r.room == w.r.room && Readable(w', id)
  {
    hide Do, Careful;
    if more == [] {
      assert events + more == events;
      RunOk(node, key, events);
      assert Kept(Run(node, key, events), id);
    } else {
      var init, e := more[..|more| - 1], more[|more| - 1];
      assert events + more == events + init + [e];
      RunOneMore(node, key, events + init, e);
      WrongFlagStays(node, key, events, init, id);
      RunOk(node, key, events + init);
      FlagStep(Run(node, key, events + init), e, id);
      RunOk(node, key, events + more);
      assert Kept(Run(node, key, events + more), id);
    }
  }

  lemma FlagStep(w: World, e: Event, id: TemplateId)
    requires Inv(w) && id in w.all && w.all[id].unreadable && w.all[id].sealed.key == w.r.room
    requires !e.RotateTo? && !(e.Store? && e.id == id)
    ensures var w' := Do(w, e); id in w'.all && w'.all[id] == w.all[id] && w'.r.room == w.r.room
  {
    if e.NextTemplate? && Doing(w) {
      TreatedOne(w, e.answers);
      assert Do(w, e).r == w.r;
      hide Do;
    }
  }

  /** Such a flag is reached: the key is rotated and a template stored under the new key between the
      pass's reading of its keys and its listing. */
  lemma WrongFlagReached(node: NodeId, key: DeviceRegistry.Key, newer: DeviceRegistry.Key, id: TemplateId, text: string)
      returns (events: seq<Event>)
    requires newer != key
    ensures CarefulRun(node, key, events)
    ensures var w := Run(node, key, events);
      Readable(w, id) && w.all[id].unreadable && w.all[id].sealed == Sealed(node, newer, text) && w.r.room == newer
  {
    var t := Template(id, Sealed(node, newer, text), false);
    var e1, e2, e3 := [StartPass], [StartPass, RotateTo(newer)], [StartPass, RotateTo(newer), Store(id, newer, text)];
    RunOneMore(node, key, [], StartPass);
    assert [] + [StartPass] == e1;
    RunOneMore(node, key, e1, RotateTo(newer));
    assert e1 + [RotateTo(newer)] == e2;
    RunOneMore(node, key, e2, Store(id, newer, text));
    assert e2 + [Store(id, newer, text)] == e3;
    RunOneMore(node, key, e3, Listed([t]));
    events := e3 + [Listed([t]), NextTemplate(true)];
    assert e3 + [Listed([t])] + [NextTemplate(true)] == events;
    RunOneMore(node, key, e3 + [Listed([t])], NextTemplate(true));
    GapRun(node, key, newer, t);
  }

  lemma GapRun(node: NodeId, key: DeviceRegistry.Key, newer: DeviceRegistry.Key, t: Template)
    requires newer != key && t.sealed.node == node && t.sealed.key == newer && !t.unreadable
    ensures var w1 := Do(Start(node, key), StartPass);
      var w2 := Do(w1, RotateTo(newer));
      var w3 := Do(w2, Store(t.id, newer, t.sealed.text));
      var w := Do(Do(w3, Listed([t])), NextTemplate(true));
      Careful(w1, RotateTo(newer)) && Careful(w2, Store(t.id, newer, t.sealed.text)) &&
      w.all == map[t.id := t.(unreadable := true)] && w.r.room == newer && w.node == node
  {
    var w3 := Do(Do(Do(Start(node, key), StartPass), RotateTo(newer)), Store(t.id, newer, t.sealed.text));
    assert w3.all == map[t.id := t] && w3.r.retired == [key];
    assert t in [t] && Listing(w3.all, [t]);
  }
}
