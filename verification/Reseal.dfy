/** Stored automation instructions and the pass that re-seals them after the room key was rotated. */
module Reseal {
  import opened Wrappers
  import opened DeviceRegistry

  type NodeId = nat
  type TemplateId = nat

  /** Instructions sealed for one node under one key. */
  datatype Sealed = Sealed(node: NodeId, key: Key, text: string)
  datatype Template = Template(id: TemplateId, sealed: Sealed, unreadable: bool)
  datatype ResealResult = ResealResult(resealed: nat, unreadable: seq<TemplateId>)

  function TryOpen(key: Key, s: Sealed): Option<string> {
    if s.key == key then Some(s.text) else None
  }

  /** The plaintext under the first of the keys that opens it. */
  function FirstOpening(keys: seq<Key>, s: Sealed): (text: Option<string>)
    ensures text == if s.key in keys then Some(s.text) else None
  {
    if keys == [] then None
    else if TryOpen(keys[0], s).Some? then TryOpen(keys[0], s) else FirstOpening(keys[1..], s)
  }

  /** What the node can still open: the current room key first, then the retired ones. */
  method OpenSealed(r: Registry, s: Sealed) returns (text: Option<string>)
    ensures text == if s.key == r.room || s.key in r.retired then Some(s.text) else None
  {
    var keys := [r.room] + r.retired;
    for i := 0 to |keys|
      invariant forall k :: 0 <= k < i ==> s.key != keys[k]
    {
      text := TryOpen(keys[i], s);
      if text.Some? {
        return;
      }
    }
    assert keys[0] == r.room && forall k :: 0 <= k < |r.retired| ==> keys[k + 1] == r.retired[k];
    return None;
  }

  /** The control plane's stored templates. */
  class TemplateStore {
    var all: map<TemplateId, Template>

    constructor (templates: map<TemplateId, Template>)
      ensures all == templates
    {
      all := templates;
    }

    /** New instructions replace the old ones and clear the flag; answers: the request got through. */
    method Save(id: TemplateId, s: Sealed, answers: bool) returns (ok: bool)
      modifies this
      ensures ok == Accepts(old(all), id, s.node, answers)
      ensures all == if ok then old(all)[id := Template(id, s, false)] else old(all)
    {
      ok := answers && id in all && all[id].sealed.node == s.node;
      if ok {
        all := all[id := Template(id, s, false)];
      }
    }

    method MarkUnreadable(id: TemplateId, node: NodeId, answers: bool) returns (ok: bool)
      modifies this
      ensures ok == Accepts(old(all), id, node, answers)
      ensures all == if ok then old(all)[id := old(all)[id].(unreadable := true)] else old(all)
    {
      ok := answers && id in all && all[id].sealed.node == node;
      if ok {
        all := all[id := all[id].(unreadable := true)];
      }
    }
  }

  predicate Accepts(all: map<TemplateId, Template>, id: TemplateId, node: NodeId, answers: bool) {
    answers && id in all && all[id].sealed.node == node
  }

  // ---- One pass ----------------------------------------------------------------

  /** None: a request failed and the pass threw. */
  datatype Progress = Progress(all: map<TemplateId, Template>, result: Option<ResealResult>)

  /** What the pass does about one template; answered: the templates whose request gets through. */
  function Treat(p: Progress, node: NodeId, current: Key, retired: seq<Key>, t: Template, answered: set<TemplateId>): Progress {
    if p.result.None? || t.sealed.node != node || TryOpen(current, t.sealed).Some? then p
    else
      var text := FirstOpening(retired, t.sealed);
      var sofar := p.result.value;
      var ok := Accepts(p.all, t.id, node, t.id in answered);
      if text.None? then
        var noted := sofar.(unreadable := sofar.unreadable + [t.id]);
        if t.unreadable then p.(result := Some(noted))
        else if !ok then p.(result := None)
        else Progress(p.all[t.id := p.all[t.id].(unreadable := true)], Some(noted))
      else if !ok then p.(result := None)
      else Progress(p.all[t.id := Template(t.id, Sealed(node, current, text.value), false)],
                    Some(sofar.(resealed := sofar.resealed + 1)))
  }

  function Pass(all: map<TemplateId, Template>, node: NodeId, current: Key, retired: seq<Key>, templates: seq<Template>,
      answered: set<TemplateId>): Progress {
    if templates == [] then Progress(all, Some(ResealResult(0, [])))
    else
      Treat(Pass(all, node, current, retired, templates[..|templates| - 1], answered), node, current, retired,
            templates[|templates| - 1], answered)
  }

  method ResealAutomationTemplates(node: NodeId, current: Key, retired: seq<Key>, templates: seq<Template>,
      store: TemplateStore, answered: set<TemplateId>) returns (r: Option<ResealResult>)
    modifies store
    ensures Progress(store.all, r) == Pass(old(store.all), node, current, retired, templates, answered)
  {
    var result := ResealResult(0, []);
    for i := 0 to |templates|
      invariant Progress(store.all, Some(result)) == Pass(old(store.all), node, current, retired, templates[..i], answered)
    {
      var template := templates[i];
      assert templates[..i + 1][..i] == templates[..i];
      PassStops(old(store.all), node, current, retired, templates, i + 1, answered);
      if template.sealed.node != node {
        continue;
      }
      if TryOpen(current, template.sealed).Some? {
        continue;
      }
      var plaintext := FirstOpening(retired, template.sealed);
      if plaintext.None? {
        result := result.(unreadable := result.unreadable + [template.id]);
        if !template.unreadable {
          var ok := store.MarkUnreadable(template.id, node, template.id in answered);
          if !ok {
            return None;
          }
        }
        continue;
      }
      var ok := store.Save(template.id, Sealed(node, current, plaintext.value), template.id in answered);
      if !ok {
        return None;
      }
      result := result.(resealed := result.resealed + 1);
    }
    assert templates[..|templates|] == templates;
    return Some(result);
  }

  /** A pass that threw does nothing more. */
  lemma {:induction false} PassStops(all: map<TemplateId, Template>, node: NodeId, current: Key, retired: seq<Key>,
      templates: seq<Template>, i: nat, answered: set<TemplateId>)
    requires i <= |templates|
    ensures Pass(all, node, current, retired, templates[..i], answered).result.None? ==>
      Pass(all, node, current, retired, templates, answered) == Pass(all, node, current, retired, templates[..i], answered)
    decreases |templates| - i
  {
    if i == |templates| {
      assert templates[..i] == templates;
    } else {
      PassStops(all, node, current, retired, templates, i + 1, answered);
      assert templates[..i + 1][..i] == templates[..i];
    }
  }

  /** The listing the control plane gives: each stored template once. */
  ghost predicate Lists(all: map<TemplateId, Template>, templates: seq<Template>) {
    (forall i :: 0 <= i < |templates| ==> templates[i].id in all && all[templates[i].id] == templates[i]) &&
    (forall i, j :: 0 <= i < j < |templates| ==> templates[i].id != templates[j].id)
  }

  predicate Opens(t: Template, node: NodeId, current: Key, retired: seq<Key>) {
    t.sealed.node == node && (t.sealed.key == current || t.sealed.key in retired)
  }

  /** What becomes of one template: sealed under the current key with the text it had, or flagged. */
  predicate Treated(was: Template, now: Template, node: NodeId, current: Key, retired: seq<Key>) {
    if was.sealed.node != node then now == was
    else if Opens(was, node, current, retired) then
      now.id == was.id && now.sealed == Sealed(node, current, was.sealed.text) &&
      now.unreadable == (was.unreadable && was.sealed.key == current)
    else now == was.(unreadable := true)
  }

  ghost predicate PassedSoFar(all: map<TemplateId, Template>, p: Progress, node: NodeId, current: Key, retired: seq<Key>,
      done: seq<Template>) {
    p.all.Keys == all.Keys && p.result.Some? &&
    (forall i :: 0 <= i < |done| ==> done[i].id in p.all && Treated(done[i], p.all[done[i].id], node, current, retired)) &&
    (forall id :: id in all && (forall i :: 0 <= i < |done| ==> done[i].id != id) ==> p.all[id] == all[id]) &&
    (forall id :: id in p.result.value.unreadable <==>
      exists i :: 0 <= i < |done| && done[i].id == id && done[i].sealed.node == node && !Opens(done[i], node, current, retired))
  }

  lemma {:induction false} PassPrefix(all: map<TemplateId, Template>, node: NodeId, current: Key, retired: seq<Key>,
      templates: seq<Template>, k: nat)
    requires Lists(all, templates) && k <= |templates|
    ensures PassedSoFar(all, Pass(all, node, current, retired, templates[..k], all.Keys), node, current, retired, templates[..k])
  {
    hide *;
    if k == 0 {
      NothingPassed(all, node, current, retired);
      assert templates[..k] == [];
    } else {
      PassPrefix(all, node, current, retired, templates, k - 1);
      var before, t := templates[..k - 1], templates[k - 1];
      assert templates[..k] == before + [t];
      ListedOnce(all, templates, k - 1);
      PassLast(all, node, current, retired, before, t);
      var p := Pass(all, node, current, retired, before, all.Keys);
      NotYetPassed(all, p, node, current, retired, before, t);
      OneMore(all, p, node, current, retired, before, t);
    }
  }

  lemma NothingPassed(all: map<TemplateId, Template>, node: NodeId, current: Key, retired: seq<Key>)
    ensures PassedSoFar(all, Pass(all, node, current, retired, [], all.Keys), node, current, retired, [])
  {}

  lemma ListedOnce(all: map<TemplateId, Template>, templates: seq<Template>, k: nat)
    requires Lists(all, templates) && k < |templates|
    ensures templates[k].id in all && all[templates[k].id] == templates[k]
    ensures forall i :: 0 <= i < k ==> templates[..k][i].id != templates[k].id
  {}

  lemma PassLast(all: map<TemplateId, Template>, node: NodeId, current: Key, retired: seq<Key>, before: seq<Template>, t: Template)
    ensures Pass(all, node, current, retired, before + [t], all.Keys) ==
      Treat(Pass(all, node, current, retired, before, all.Keys), node, current, retired, t, all.Keys)
  {
    hide Treat;
    assert (before + [t])[..|before|] == before;
  }

  lemma NotYetPassed(all: map<TemplateId, Template>, p: Progress, node: NodeId, current: Key, retired: seq<Key>,
      done: seq<Template>, t: Template)
    requires PassedSoFar(all, p, node, current, retired, done) && t.id in all
    requires forall i :: 0 <= i < |done| ==> done[i].id != t.id
    ensures p.all[t.id] == all[t.id]
  {
    hide Treated;
  }

  lemma OneMore(all: map<TemplateId, Template>, p: Progress, node: NodeId, current: Key, retired: seq<Key>,
      done: seq<Template>, t: Template)
    requires PassedSoFar(all, p, node, current, retired, done)
    requires t.id in all && p.all[t.id] == all[t.id] == t && forall i :: 0 <= i < |done| ==> done[i].id != t.id
    ensures PassedSoFar(all, Treat(p, node, current, retired, t, all.Keys), node, current, retired, done + [t])
  {
    var p', done' := Treat(p, node, current, retired, t, all.Keys), done + [t];
    assert Treated(t, p'.all[t.id], node, current, retired);
    assert forall i :: 0 <= i < |done| ==> done'[i] == done[i] && p'.all[done[i].id] == p.all[done[i].id];
    assert done'[|done|] == t;
    forall id | id in all && (forall i :: 0 <= i < |done'| ==> done'[i].id != id) ensures p'.all[id] == all[id] {
      assert done'[|done|].id != id;
      assert forall i :: 0 <= i < |done| ==> done[i] == done'[i];
    }
    OneMoreUnreadable(p, node, current, retired, done, t, all.Keys);
  }

  lemma OneMoreUnreadable(p: Progress, node: NodeId, current: Key, retired: seq<Key>, done: seq<Template>, t: Template,
      answered: set<TemplateId>)
    requires p.result.Some? && Treat(p, node, current, retired, t, answered).result.Some?
    requires forall id :: id in p.result.value.unreadable <==>
      exists i :: 0 <= i < |done| && done[i].id == id && done[i].sealed.node == node && !Opens(done[i], node, current, retired)
    ensures forall id :: id in Treat(p, node, current, retired, t, answered).result.value.unreadable <==>
      exists i :: 0 <= i < |done + [t]| && (done + [t])[i].id == id && (done + [t])[i].sealed.node == node &&
        !Opens((done + [t])[i], node, current, retired)
  {
    var now, done' := Treat(p, node, current, retired, t, answered).result.value.unreadable, done + [t];
    assert done'[|done|] == t && forall i :: 0 <= i < |done| ==> done'[i] == done[i];
    forall id
      ensures id in now <==>
        exists i :: 0 <= i < |done'| && done'[i].id == id && done'[i].sealed.node == node && !Opens(done'[i], node, current, retired)
    {
      if id in p.result.value.unreadable {
        var i :| 0 <= i < |done| && done[i].id == id && done[i].sealed.node == node && !Opens(done[i], node, current, retired);
        assert done'[i] == done[i];
      }
    }
  }

  /** A pass over all stored templates whose requests get through: every template of this node that
      opened under the current or a retired key opens under the current key to the same text, the
      others of this node are flagged and are exactly the unreadable list, and no other changes. */
  lemma PassSettlesEveryTemplate(all: map<TemplateId, Template>, node: NodeId, current: Key, retired: seq<Key>,
      templates: seq<Template>)
    requires Lists(all, templates) && forall id :: id in all ==> all[id] in templates && all[id].id == id
    ensures var p := Pass(all, node, current, retired, templates, all.Keys);
      p.result.Some? && p.all.Keys == all.Keys &&
      (forall id :: id in all ==> Treated(all[id], p.all[id], node, current, retired)) &&
      (forall id :: id in p.result.value.unreadable <==>
        id in all && all[id].sealed.node == node && !Opens(all[id], node, current, retired))
  {
    PassPrefix(all, node, current, retired, templates, |templates|);
    assert templates[..|templates|] == templates;
    forall id | id in all ensures exists i :: 0 <= i < |templates| && templates[i] == all[id] && templates[i].id == id {
      assert all[id] in templates;
    }
  }

  /** Where a listing has templates that only a retired key opens. */
  function UnderRetired(templates: seq<Template>, node: NodeId, current: Key, retired: seq<Key>): set<nat> {
    set i: nat | i < |templates| && templates[i].sealed.node == node && templates[i].sealed.key != current && templates[i].sealed.key in retired
  }

  lemma RetiredNext(before: seq<Template>, t: Template, node: NodeId, current: Key, retired: seq<Key>)
    ensures |UnderRetired(before + [t], node, current, retired)| == |UnderRetired(before, node, current, retired)| +
      if t.sealed.node == node && t.sealed.key != current && t.sealed.key in retired then 1 else 0
  {
    var n, all := |before|, before + [t];
    assert all[n] == t && forall i :: 0 <= i < n ==> all[i] == before[i];
    var earlier, now := UnderRetired(before, node, current, retired), UnderRetired(all, node, current, retired);
    assert now == earlier + if n in now then {n} else {};
    assert n !in earlier;
  }

  /** The count of a finished pass is the number of templates that were under a retired key. */
  lemma {:induction false} PassCounts(all: map<TemplateId, Template>, node: NodeId, current: Key, retired: seq<Key>,
      templates: seq<Template>, answered: set<TemplateId>)
    ensures var p := Pass(all, node, current, retired, templates, answered);
      p.result.Some? ==> p.result.value.resealed == |UnderRetired(templates, node, current, retired)|
  {
    hide UnderRetired;
    if templates != [] {
      var n := |templates| - 1;
      PassCounts(all, node, current, retired, templates[..n], answered);
      RetiredNext(templates[..n], templates[n], node, current, retired);
      assert templates == templates[..n] + [templates[n]];
    } else {
      NoneRetired(node, current, retired);
    }
  }

  lemma NoneRetired(node: NodeId, current: Key, retired: seq<Key>)
    ensures UnderRetired([], node, current, retired) == {}
  {}

  /** A second pass re-seals nothing and changes nothing. */
  lemma SecondPassChangesNothing(all: map<TemplateId, Template>, node: NodeId, current: Key, retired: seq<Key>,
      first: seq<Template>, second: seq<Template>)
    requires Lists(all, first) && forall id :: id in all ==> all[id] in first && all[id].id == id
    requires Lists(Pass(all, node, current, retired, first, all.Keys).all, second)
    ensures var after := Pass(all, node, current, retired, first, all.Keys).all;
      var p := Pass(after, node, current, retired, second, after.Keys);
      p.all == after && p.result.Some? && p.result.value.resealed == 0
  {
    PassSettlesEveryTemplate(all, node, current, retired, first);
    var after := Pass(all, node, current, retired, first, all.Keys).all;
    forall i | 0 <= i < |second| ensures Settled(second[i], node, current, retired) {
      var id := second[i].id;
      assert Treated(all[id], after[id], node, current, retired);
    }
    SettledStays(after, node, current, retired, second);
  }

  predicate Settled(t: Template, node: NodeId, current: Key, retired: seq<Key>) {
    t.sealed.node == node ==> t.sealed.key == current || (t.sealed.key !in retired && t.unreadable)
  }

  lemma {:induction false} SettledStays(all: map<TemplateId, Template>, node: NodeId, current: Key, retired: seq<Key>,
      templates: seq<Template>)
    requires forall i :: 0 <= i < |templates| ==> Settled(templates[i], node, current, retired)
    ensures var p := Pass(all, node, current, retired, templates, all.Keys);
      p.all == all && p.result.Some? && p.result.value.resealed == 0
  {
    if templates != [] {
      SettledStays(all, node, current, retired, templates[..|templates| - 1]);
    }
  }

  /** A pass cut short by a failed request has changed only what a whole pass would: everything that
      opened still opens to the same text. */
  lemma {:induction false} FailedPassLosesNothing(all: map<TemplateId, Template>, node: NodeId, current: Key,
      retired: seq<Key>, templates: seq<Template>, answered: set<TemplateId>, id: TemplateId)
    requires Lists(all, templates) && id in all && Opens(all[id], node, current, retired)
    ensures var p := Pass(all, node, current, retired, templates, answered);
      p.all.Keys == all.Keys && Opens(p.all[id], node, current, retired) && p.all[id].sealed.text == all[id].sealed.text
  {
    if templates != [] {
      var t := templates[|templates| - 1];
      FailedPassLosesNothing(all, node, current, retired, templates[..|templates| - 1], answered, id);
    }
  }
}
