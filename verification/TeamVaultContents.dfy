/** What a team vault holds, read off the accepted changes: every key has the value it was last set to, and every
    machine that opened the vault has those values in its store. */
module TeamVaultContents {
  import opened Wrappers
  import opened TextCodec
  import opened TeamVault
  import opened TeamVaultSafety

  predicate Removes(c: Change, name: string) {
    c.Edited? && c.patch.removeKey == Some(name)
  }

  /** A change that both sets and removes a key removes it. */
  predicate Sets(c: Change, name: string, value: string, at: int) {
    c.Edited? && c.patch.setKey == Some((name, value)) && c.now == at && !Removes(c, name)
  }

  predicate Touches(c: Change, name: string) {
    c.Edited? && ((c.patch.setKey.Some? && c.patch.setKey.value.0 == name) || Removes(c, name))
  }

  predicate LastTouch(log: seq<Change>, name: string, i: int) {
    0 <= i < |log| && Touches(log[i], name) && forall j :: i < j < |log| ==> !Touches(log[j], name)
  }

  /** The last change that touched the key set it to this. */
  predicate SetLast(log: seq<Change>, name: string, value: string, at: int) {
    exists i :: 0 <= i < |log| && LastTouch(log, name, i) && Sets(log[i], name, value, at)
  }

  predicate Writes(c: Change, text: string, at: int) {
    c.Edited? && c.patch.text == Some(text) && c.now == at
  }

  predicate LastText(log: seq<Change>, text: string, at: int, i: int) {
    0 <= i < |log| && Writes(log[i], text, at) && forall j :: i < j < |log| && log[j].Edited? ==> log[j].patch.text.None?
  }

  predicate NoText(log: seq<Change>) {
    forall j :: 0 <= j < |log| && log[j].Edited? ==> log[j].patch.text.None?
  }

  predicate Has(body: Body, name: string, value: string, at: int) {
    name in body.keys && body.keys[name] == Entry(value, at)
  }

  /** The body holds the keys that were set last, with the values and times of those changes, and the text last
      written. */
  ghost predicate LastWins(log: seq<Change>, body: Body) {
    (forall name, value, at :: Has(body, name, value, at) <==> SetLast(log, name, value, at)) &&
    (forall text, at, i :: LastText(log, text, at, i) ==> body.text == text && body.updatedAt == at) &&
    (NoText(log) ==> body.text == "" && body.updatedAt == 0)
  }

  /** What a patch that was not refused does. */
  lemma PatchDoes(body: Body, patch: Patch, now: int, name: string)
    requires ApplyPatch(body, patch, now).Ok?
    ensures var after, c := ApplyPatch(body, patch, now).value, Edited(patch, now);
      if Removes(c, name) then name !in after.keys
      else if patch.setKey.Some? && patch.setKey.value.0 == name then
        name in after.keys && after.keys[name] == Entry(patch.setKey.value.1, now)
      else (name in after.keys <==> name in body.keys) && (name in body.keys ==> after.keys[name] == body.keys[name])
    ensures var after := ApplyPatch(body, patch, now).value;
      if patch.text.Some? then after.text == patch.text.value && after.updatedAt == now
      else after.text == body.text && after.updatedAt == body.updatedAt
  {
    hide Utf8Length, GoodName, Inherited;
  }

  lemma LastTouchGrows(log: seq<Change>, c: Change, name: string)
    ensures forall i :: LastTouch(log + [c], name, i) <==> if Touches(c, name) then i == |log| else LastTouch(log, name, i)
  {
    hide Touches;
    var log' := log + [c];
    forall i ensures LastTouch(log', name, i) <==> if Touches(c, name) then i == |log| else LastTouch(log, name, i) {
      assert forall j :: 0 <= j < |log| ==> log'[j] == log[j];
      assert log'[|log|] == c;
    }
  }

  lemma TouchedLast(log: seq<Change>, c: Change, name: string, value: string, at: int)
    requires Touches(c, name)
    ensures SetLast(log + [c], name, value, at) <==> Sets(c, name, value, at)
  {
    LastTouchGrows(log, c, name);
    assert (log + [c])[|log|] == c;
    hide LastTouch, Sets, Touches;
    if Sets(c, name, value, at) {
      assert LastTouch(log + [c], name, |log|);
    }
  }

  lemma Untouched(log: seq<Change>, c: Change, name: string, value: string, at: int)
    requires !Touches(c, name)
    ensures SetLast(log + [c], name, value, at) <==> SetLast(log, name, value, at)
  {
    LastTouchGrows(log, c, name);
    assert forall i :: 0 <= i < |log| ==> (log + [c])[i] == log[i];
    hide Sets, Touches;
    if i :| 0 <= i < |log + [c]| && LastTouch(log + [c], name, i) && Sets((log + [c])[i], name, value, at) {
      assert LastTouch(log, name, i);
    }
    hide LastTouch;
    if i :| 0 <= i < |log| && LastTouch(log, name, i) && Sets(log[i], name, value, at) {
      assert LastTouch(log + [c], name, i);
    }
  }

  lemma KeysGrow(log: seq<Change>, c: Change, before: Body, after: Body)
    requires LastWins(log, before) && Follows(before, c, after)
    ensures forall name, value, at :: Has(after, name, value, at) <==> SetLast(log + [c], name, value, at)
  {
    forall name, value, at ensures Has(after, name, value, at) <==> SetLast(log + [c], name, value, at) {
      if c.Edited? { PatchDoes(before, c.patch, c.now, name); }
      assert Has(before, name, value, at) <==> SetLast(log, name, value, at);
      hide ApplyPatch, LastTouch, SetLast;
      if Touches(c, name) {
        TouchedLast(log, c, name, value, at);
      } else {
        Untouched(log, c, name, value, at);
      }
    }
  }

  lemma TextGrows(log: seq<Change>, c: Change, before: Body, after: Body)
    requires LastWins(log, before) && Follows(before, c, after)
    ensures forall text, at, i :: LastText(log + [c], text, at, i) ==> after.text == text && after.updatedAt == at
    ensures NoText(log + [c]) ==> after.text == "" && after.updatedAt == 0
  {
    var log' := log + [c];
    assert log'[|log|] == c && forall i :: 0 <= i < |log| ==> log'[i] == log[i];
    if c.Edited? { PatchDoes(before, c.patch, c.now, ""); }
    hide ApplyPatch;
    forall text, at, i | LastText(log', text, at, i) ensures after.text == text && after.updatedAt == at {
      if i < |log| { assert LastText(log, text, at, i); }
    }
    if NoText(log') {
      assert NoText(log);
      assert c.Edited? ==> log'[|log|].patch.text.None?;
    }
  }

  lemma {:induction false} BodiesLastWin(t: Team, g: nat)
    requires TeamOk(t) && g <= |t.log|
    ensures LastWins(t.log[..g], t.bodies[g])
  {
    if g == 0 {
      assert t.log[..0] == [];
      hide LastTouch, Sets;
    } else {
      BodiesLastWin(t, g - 1);
      assert t.log[..g] == t.log[..g - 1] + [t.log[g - 1]];
      assert Follows(t.bodies[g - 1], t.log[g - 1], t.bodies[g]);
      hide Follows, TeamOk;
      KeysGrow(t.log[..g - 1], t.log[g - 1], t.bodies[g - 1], t.bodies[g]);
      TextGrows(t.log[..g - 1], t.log[g - 1], t.bodies[g - 1], t.bodies[g]);
    }
  }

  /** In every run of machines and control plane: a key is in the vault just when the last accepted change that touched
      it set it, with the value and time of that change, and the text is the one written last. */
  lemma VaultHoldsLastValues(events: seq<Event>, team: TeamId)
    ensures var t := TeamOf(Run(events), team); t.vault.Some? ==> LastWins(t.log, t.vault.value.sealed.body)
  {
    RunOk(events);
    var t := TeamOf(Run(events), team);
    assert TeamOk(t);
    BodiesLastWin(t, |t.log|);
    assert t.log[..|t.log|] == t.log;
  }

  // ---- On the machines -------------------------------------------------------------

  /** The store has the value of every key of the body, and no other name but inherited ones; the file shows the text
      and the keys' times. */
  predicate Fits(m: Machine) {
    m.body.Some? ==>
      (forall name :: name in m.body.value.keys ==> name in m.store && m.store[name] == m.body.value.keys[name].value) &&
      (forall name :: name in m.store ==> name in m.body.value.keys || name in INHERITED_NAMES) &&
      m.file.Some? && m.file.value.text == m.body.value.text && m.file.value.updatedAt == m.body.value.updatedAt &&
      m.file.value.updated.Keys == m.body.value.keys.Keys &&
      forall name :: name in m.body.value.keys ==> m.file.value.updated[name] == m.body.value.keys[name].updatedAt
  }

  lemma KeepFits(m: Machine, team: TeamId, body: Body, generation: nat)
    ensures Fits(Keep(m, team, body, generation))
  {}

  lemma TickFits(m: Machine, s: Snapshot)
    requires Fits(m)
    ensures Fits(Tick(m, s).machine)
  {
    KeptIn(m, s);
    hide Keep, OpenEnvelope;
  }

  /** The states in which a tick keeps a body. */
  lemma KeptIn(m: Machine, s: Snapshot)
    ensures forall m', team, body, generation, status :: Fits(Keep(m', team, body, generation).(status := status))
  {
    forall m', team, body, generation, status ensures Fits(Keep(m', team, body, generation).(status := status)) {
      KeepFits(m', team, body, generation);
    }
  }

  ghost predicate AllFit(w: World) {
    forall id :: Fits(PeerOf(w, id).machine)
  }

  lemma SetPeerFits(w: World, id: MachineId, p: Peer)
    requires AllFit(w) && Fits(p.machine)
    ensures AllFit(SetPeer(w, id, p))
  {
    hide Fits;
    forall i ensures Fits(PeerOf(SetPeer(w, id, p), i).machine) {
      assert PeerOf(SetPeer(w, id, p), i) == if i == id then p else PeerOf(w, i);
    }
  }

  lemma WriteFits(m: Machine, s: Snapshot, patch: Patch, base: nat, now: int, mint: Key)
    requires Fits(m) && Write(m, s, patch, base, now, mint).Ok?
    ensures Fits(Write(m, s, patch, base, now, mint).value.0)
  {
    hide ApplyPatch;
  }

  lemma GoOnFits(w: World, id: MachineId, m: Machine, s: Snapshot, intent: Option<Intent>, now: int, mint: Key)
    requires AllFit(w) && Fits(m)
    ensures AllFit(GoOn(w, id, m, s, intent, now, mint))
  {
    hide Fits, AllFit, SetPeer, Write;
    SetPeerFits(w, id, Peer(m, Idle));
    if intent.Some? && Write(m, s, intent.value.patch, intent.value.base, now, mint).Ok? {
      var r := Write(m, s, intent.value.patch, intent.value.base, now, mint).value;
      WriteFits(m, s, intent.value.patch, intent.value.base, now, mint);
      SetPeerFits(w, id, Peer(r.0, Saving(r.1)));
      SamePeersFit(SetPeer(w, id, Peer(r.0, Saving(r.1))), GoOn(w, id, m, s, intent, now, mint));
    }
  }

  lemma SamePeersFit(w: World, w': World)
    requires AllFit(w) && w'.peers == w.peers
    ensures AllFit(w')
  {
    hide Fits;
    forall i ensures Fits(PeerOf(w', i).machine) {
      assert PeerOf(w', i) == PeerOf(w, i);
    }
  }

  lemma StepFits(w: World, e: Event)
    requires AllFit(w)
    ensures AllFit(Do(w, e))
  {
    match e
    case Fetch(id, s, intent) =>
      assert Fits(PeerOf(w, id).machine);
      hide Fits, AllFit, SetPeer;
      SetPeerFits(w, id, Peer(PeerOf(w, id).machine, Answered(s, intent)));
    case Proceed(id, now, mint) => ProceedFits(w, id, now, mint);
    case Reply(id, a, now, mint) => ReplyFits(w, id, a, now, mint);
    case NoReply(id, now, mint) =>
      var p := PeerOf(w, id);
      assert Fits(p.machine);
      hide Fits, AllFit, SetPeer, GoOn;
      SetPeerFits(w, id, Peer(p.machine, Idle));
      if p.phase.Rotating? { GoOnFits(w, id, p.machine, p.phase.snapshot, p.phase.intent, now, mint); }
    case Restart(id) =>
      hide AllFit, SetPeer;
      SetPeerFits(w, id, Peer(PeerOf(w, id).machine.(status := NoTeam, body := None), Idle));
    case Arrive(sent) =>
      hide AllFit;
      SamePeersFit(w, Do(w, e));
    case MemberLeft(team) =>
      hide AllFit;
      SamePeersFit(w, Do(w, e));
  }

  lemma ProceedFits(w: World, id: MachineId, now: int, mint: Key)
    requires AllFit(w)
    ensures AllFit(Do(w, Proceed(id, now, mint)))
  {
    var p := PeerOf(w, id);
    assert Fits(p.machine);
    hide Fits, AllFit, SetPeer, GoOn, Tick;
    if p.phase.Answered? {
      var s := p.phase.snapshot;
      var t := Tick(p.machine, s);
      TickFits(p.machine, s);
      if t.rotate {
        if s.team.Some? && t.body.Some? {
          var put := PutFor(s, t.body.value, None, mint);
          SetPeerFits(w, id, Peer(t.machine, Rotating(s, p.phase.intent, put)));
          SamePeersFit(SetPeer(w, id, Peer(t.machine, Rotating(s, p.phase.intent, put))), Do(w, Proceed(id, now, mint)));
        }
      } else {
        GoOnFits(w, id, t.machine, s, p.phase.intent, now, mint);
      }
    }
  }

  lemma ReplyFits(w: World, id: MachineId, a: Receipt, now: int, mint: Key)
    requires AllFit(w)
    ensures AllFit(Do(w, Reply(id, a, now, mint)))
  {
    var p := PeerOf(w, id);
    var m := Pushed(p.machine, a.put, a.generation, a.keyGeneration);
    KeepFits(p.machine.(key := Some(a.put.local.(keyGeneration := a.keyGeneration))), a.put.team, a.put.sealed.body, a.generation);
    hide Fits, AllFit, SetPeer, GoOn, Keep;
    SetPeerFits(w, id, Peer(m, Idle));
    if p.phase.Rotating? { GoOnFits(w, id, m, p.phase.snapshot, p.phase.intent, now, mint); }
  }

  lemma {:induction false} RunFits(events: seq<Event>)
    ensures AllFit(Run(events))
  {
    hide Do;
    if events != [] {
      RunFits(events[..|events| - 1]);
      StepFits(Run(events[..|events| - 1]), events[|events| - 1]);
    }
  }

  /** A machine that has opened the vault holds the values that were last set up to the generation its file names, and
      its store and its file have them. */
  lemma MachineHoldsLastValues(events: seq<Event>, id: MachineId)
    ensures var m := PeerOf(Run(events), id).machine;
      Fits(m) &&
      (m.body.Some? ==>
        (m.file.Some? &&
         var t, g := TeamOf(Run(events), m.file.value.team), m.file.value.generation;
         g <= |t.log| && LastWins(t.log[..g], m.body.value)))
  {
    RunFits(events);
    RunOk(events);
    var m := PeerOf(Run(events), id).machine;
    assert MachineOk(Run(events), m);
    if m.body.Some? {
      var t := TeamOf(Run(events), m.file.value.team);
      assert TeamOk(t);
      hide AllFit, Inv, LastWins;
      BodiesLastWin(t, m.file.value.generation);
    }
  }

  // ---- Limits ------------------------------------------------------------------------

  predicate GoodValue(name: string, value: string) {
    1 <= |name| <= 64 && 1 <= Utf8Length(value) <= 8192 &&
    forall i :: 0 <= i < |name| ==>
      'a' <= name[i] <= 'z' || 'A' <= name[i] <= 'Z' || (i > 0 && ('0' <= name[i] <= '9' || name[i] == '_'))
  }

  predicate WithinLimits(c: Change) {
    c.Edited? ==>
      ((c.patch.text.Some? ==> Utf8Length(c.patch.text.value) <= 16384) &&
       (c.patch.setKey.Some? ==> GoodValue(c.patch.setKey.value.0, c.patch.setKey.value.1)))
  }

  lemma PatchWithinLimits(body: Body, patch: Patch, now: int)
    requires ApplyPatch(body, patch, now).Ok?
    ensures WithinLimits(Edited(patch, now))
  {
    hide Inherited;
    if patch.setKey.Some? { NotEmpty(patch.setKey.value.1); }
  }

  lemma NotEmpty(s: string)
    ensures s != "" ==> Utf8Length(s) >= 1
  {}

  /** No accepted change breaks a limit. */
  lemma AcceptedWithinLimits(events: seq<Event>, team: TeamId, i: nat)
    requires i < |TeamOf(Run(events), team).log|
    ensures WithinLimits(TeamOf(Run(events), team).log[i])
  {
    hide Run, ApplyPatch, WithinLimits;
    RunOk(events);
    var t := TeamOf(Run(events), team);
    assert TeamOk(t) && Follows(t.bodies[i], t.log[i], t.bodies[i + 1]);
    if t.log[i].Edited? {
      PatchWithinLimits(t.bodies[i], t.log[i].patch, t.log[i].now);
    } else {
      RotationWithinLimits();
    }
  }

  lemma RotationWithinLimits()
    ensures WithinLimits(Rotated)
  {}

  /** The length that is limited is the length in UTF-8. */
  lemma {:induction false} LengthIsUtf8(s: string)
    requires AllScalars(Codes(s))
    ensures Utf8Length(s) == |EncodeScalars(Codes(s))|
  {
    if s != "" {
      assert Codes(s)[1..] == Codes(s[1..]);
      LengthIsUtf8(s[1..]);
    }
  }

  function Codes(s: string): (cs: seq<nat>)
    ensures |cs| == |s| && forall i :: 0 <= i < |s| ==> cs[i] == s[i] as int
  {
    seq(|s|, i requires 0 <= i < |s| => s[i] as int)
  }

  // ---- After a member left -------------------------------------------------------------

  /** The vault asks for a new key, or has one; what was stored since is under a later key generation than g. */
  ghost predicate Moved(w: World, before: World, team: TeamId, g: nat) {
    TeamOf(w, team).vault.Some? &&
    (var v := TeamOf(w, team).vault.value; v.keyGeneration > g || (v.keyGeneration == g && v.needsRotation)) &&
    forall a :: a in w.receipts && a !in before.receipts && a.put.team == team ==> a.keyGeneration > g
  }

  lemma MovedStep(w: World, before: World, team: TeamId, g: nat, e: Event)
    requires Moved(w, before, team, g)
    ensures Moved(Do(w, e), before, team, g)
  {
    hide Tick, Write, Pushed, Shows, BasedOnKept, GoOn;
    if !e.Arrive? && !e.MemberLeft? { OthersKeepTeams(w, e); }
  }

  lemma OthersKeepTeams(w: World, e: Event)
    requires !e.Arrive? && !e.MemberLeft?
    ensures Do(w, e).teams == w.teams && Do(w, e).receipts == w.receipts
  {
    hide Tick, Write, Pushed, Shows, BasedOnKept;
  }

  /** Once a member left a team with a vault, whatever the control plane stores for it in any continuation is under a
      later key generation: a key the member had writes nothing more. */
  lemma {:induction false} StoredUnderANewKey(events: seq<Event>, team: TeamId, more: seq<Event>)
    requires TeamOf(Run(events), team).vault.Some?
    ensures Moved(Run(events + [MemberLeft(team)] + more), Run(events), team, KeyGenerationOf(TeamOf(Run(events), team).vault))
  {
    hide Moved, Do;
    var start := events + [MemberLeft(team)];
    if more == [] {
      assert start + more == start && start[..|events|] == events;
      LeftMoves(Run(events), team);
    } else {
      var init, last := more[..|more| - 1], more[|more| - 1];
      StoredUnderANewKey(events, team, init);
      assert (start + more)[..|start + more| - 1] == start + init;
      MovedStep(Run(start + init), Run(events), team, KeyGenerationOf(TeamOf(Run(events), team).vault), last);
    }
  }

  lemma LeftMoves(w: World, team: TeamId)
    requires TeamOf(w, team).vault.Some?
    ensures Moved(Do(w, MemberLeft(team)), w, team, KeyGenerationOf(TeamOf(w, team).vault))
  {}

  /** A tick owes a rotation just when it opened a vault that asks for one on an admin's machine. */
  lemma RotationOwedJustWhen(m: Machine, s: Snapshot)
    ensures Tick(m, s).rotate <==>
      (s.team.Some? && s.admin && s.vault.Some? && s.vault.value.needsRotation && Tick(m, s).machine.status == Ready(s.team.value, true))
  {
    hide OpenEnvelope, TeamVault.Stored;
  }
}
