/** After a vault was stored under a fresh key: ticks answered late, sealed copies that land or are lost,
    and restarts, on any machines. Only copies of the new key lead back to it, and without one the vault
    can be written again just while a machine still has its body in memory. */
module TeamVaultOverlap {
  import opened Wrappers
  import opened TeamVault
  import TeamVaultSafety
  import TeamVaultKeys
  import TeamVaultStranded

  type MachineId = nat

  datatype Copy = Copy(to: MachineId, wrapped: Wrapped)

  /** copies: what the control plane keeps for each machine. sealing: copies on their way to it. saving: machines
      whose push was stored and has written its key, but has not kept its body yet. */
  datatype Room = Room(machines: map<MachineId, Machine>, copies: map<MachineId, Wrapped>, sealing: set<Copy>,
    saving: set<MachineId>)

  datatype Event =
    | Looks(id: MachineId, snapshot: Snapshot)
    | Seals(id: MachineId, to: MachineId, opens: bool)
    | Lands(copy: Copy)
    | Lost(copy: Copy)
    | Finishes(id: MachineId)
    | Restarts(id: MachineId)

  /** A team and its newest vault, the first under its key. */
  datatype Newest = Newest(team: TeamId, vault: Vault)

  function MachineOf(r: Room, id: MachineId): Machine {
    if id in r.machines then r.machines[id] else NEW_MACHINE
  }

  function CopyOf(r: Room, id: MachineId): Option<Wrapped> {
    if id in r.copies then Some(r.copies[id]) else None
  }

  function Current(r: Room, n: Newest, id: MachineId, admin: bool): Snapshot {
    Snapshot(Some(n.team), admin, Some(n.vault), CopyOf(r, id))
  }

  predicate OfKey(n: Newest, w: Wrapped) {
    w.opens && w.keyGeneration == n.vault.keyGeneration
  }

  /** An answer shows the newest vault or an earlier one, or is about another team. A copy of the newest key
      that the machine can open is the one the control plane keeps for it. */
  predicate MayShow(r: Room, n: Newest, id: MachineId, s: Snapshot) {
    s.team == Some(n.team) ==>
      (s.vault == Some(n.vault) ||
        (GenerationOf(s.vault) < n.vault.generation && KeyGenerationOf(s.vault) < n.vault.keyGeneration)) &&
      (s.wrapped.Some? && OfKey(n, s.wrapped.value) ==> s.wrapped == CopyOf(r, id))
  }

  /** The machine is in the team, or is about to keep the team's body. */
  predicate InTeam(r: Room, n: Newest, id: MachineId) {
    var file := MachineOf(r, id).file;
    (file.Some? ==> file.value.team == n.team) || id in r.saving
  }

  function Do(r: Room, n: Newest, e: Event): Room {
    match e
    case Looks(id, s) =>
      if !MayShow(r, n, id, s) then r else r.(machines := r.machines[id := Tick(MachineOf(r, id), s).machine])
    case Seals(id, to, opens) =>
      var key := MachineOf(r, id).key;
      if key.None? || key.value.team != n.team || !InTeam(r, n, id) then r
      else r.(sealing := r.sealing + {Copy(to, Wrapped(opens, key.value.key, key.value.keyGeneration))})
    case Lands(c) =>
      if c !in r.sealing then r
      else if c.wrapped.keyGeneration != n.vault.keyGeneration then r.(sealing := r.sealing - {c})
      else r.(copies := r.copies[c.to := c.wrapped], sealing := r.sealing - {c})
    case Lost(c) => r.(sealing := r.sealing - {c})
    case Finishes(id) =>
      if id !in r.saving then r
      else
        r.(machines := r.machines[id := Keep(MachineOf(r, id), n.team, n.vault.sealed.body, n.vault.generation)],
           saving := r.saving - {id})
    case Restarts(id) =>
      r.(machines := r.machines[id := MachineOf(r, id).(status := NoTeam, body := None)], saving := r.saving - {id})
  }

  function After(r: Room, n: Newest, events: seq<Event>): Room {
    if events == [] then r else Do(After(r, n, events[..|events| - 1]), n, events[|events| - 1])
  }

  // ---- The way back to the key -----------------------------------------------------

  predicate HasKey(r: Room, n: Newest, id: MachineId) {
    MachineOf(r, id).key == Some(LocalKey(n.team, n.vault.sealed.key, n.vault.keyGeneration)) && InTeam(r, n, id)
  }

  /** Keys and copies of the newest key generation are of the newest key. */
  ghost predicate Right(r: Room, n: Newest) {
    (forall id :: id in r.machines ==> KeyRight(n, r.machines[id].key)) &&
    (forall id :: id in r.copies && r.copies[id].keyGeneration == n.vault.keyGeneration ==> r.copies[id].key == n.vault.sealed.key) &&
    (forall c :: c in r.sealing && c.wrapped.keyGeneration == n.vault.keyGeneration ==> c.wrapped.key == n.vault.sealed.key)
  }

  predicate KeyRight(n: Newest, k: Option<LocalKey>) {
    k.Some? && k.value.team == n.team && k.value.keyGeneration == n.vault.keyGeneration ==> k.value.key == n.vault.sealed.key
  }

  /** A machine has the key, or a copy one can open is kept or on its way. */
  ghost predicate WayIn(r: Room, n: Newest) {
    (exists id :: HasKey(r, n, id)) ||
    (exists id :: id in r.copies && OfKey(n, r.copies[id])) ||
    (exists c :: c in r.sealing && OfKey(n, c.wrapped))
  }

  /** The machine's next look at the vault opens it. */
  predicate Opens(r: Room, n: Newest, id: MachineId) {
    Tick(MachineOf(r, id), Current(r, n, id, false)).body.Some?
  }

  /** What a tick leaves as the newest key was there before, or came with the answer. */
  lemma TickKey(r: Room, n: Newest, id: MachineId, s: Snapshot)
    requires Right(r, n) && MayShow(r, n, id, s)
    ensures KeyRight(n, Tick(MachineOf(r, id), s).machine.key)
    ensures HasKey(Do(r, n, Looks(id, s)), n, id) ==>
      HasKey(r, n, id) || (CopyOf(r, id).Some? && OfKey(n, CopyOf(r, id).value))
  {
    hide OpenEnvelope, Stored;
  }

  lemma KeyStep(r: Room, n: Newest, e: Event, id: MachineId)
    requires Right(r, n) && HasKey(Do(r, n, e), n, id) && !HasKey(r, n, id)
    ensures id in r.copies && OfKey(n, r.copies[id])
  {
    if e.Looks? && MayShow(r, n, e.id, e.snapshot) {
      TickKey(r, n, e.id, e.snapshot);
    }
    hide MayShow, Tick, Stored;
  }

  lemma StaysRight(r: Room, n: Newest, e: Event)
    requires Right(r, n)
    ensures Right(Do(r, n, e), n)
  {
    if e.Looks? && MayShow(r, n, e.id, e.snapshot) {
      TickKey(r, n, e.id, e.snapshot);
    }
    hide MayShow, Tick, Stored;
  }

  lemma NoNewWay(r: Room, n: Newest, e: Event)
    requires Right(r, n) && WayIn(Do(r, n, e), n)
    ensures WayIn(r, n)
  {
    var r' := Do(r, n, e);
    hide MayShow, Tick, Stored;
    if id :| HasKey(r', n, id) {
      if !HasKey(r, n, id) { KeyStep(r, n, e, id); }
    } else if id :| id in r'.copies && OfKey(n, r'.copies[id]) {
      assert (id in r.copies && OfKey(n, r.copies[id])) || (e.Lands? && e.copy in r.sealing && OfKey(n, e.copy.wrapped));
    } else {
      var c :| c in r'.sealing && OfKey(n, c.wrapped);
      assert c in r.sealing || (e.Seals? && HasKey(r, n, e.id));
    }
  }

  lemma {:induction false} RunFromRight(r: Room, n: Newest, events: seq<Event>)
    requires Right(r, n)
    ensures Right(After(r, n, events), n) && (WayIn(After(r, n, events), n) ==> WayIn(r, n))
  {
    hide Right, WayIn, Do;
    if events != [] {
      var before, e := After(r, n, events[..|events| - 1]), events[|events| - 1];
      RunFromRight(r, n, events[..|events| - 1]);
      StaysRight(before, n, e);
      if WayIn(Do(before, n, e), n) { NoNewWay(before, n, e); }
    }
  }

  lemma OpensByKey(r: Room, n: Newest, id: MachineId)
    requires Right(r, n) && Opens(r, n, id)
    ensures HasKey(r, n, id) || (id in r.copies && OfKey(n, r.copies[id]))
  {
    hide Stored, GoodName;
  }

  lemma CopyOpens(r: Room, n: Newest, id: MachineId)
    requires Right(r, n) && id in r.copies && OfKey(n, r.copies[id])
    ensures Opens(r, n, id)
  {
    hide Stored, GoodName;
  }

  lemma KeyOpens(r: Room, n: Newest, id: MachineId)
    requires HasKey(r, n, id)
    ensures Opens(r, n, id) || (id in r.saving && Opens(Do(r, n, Finishes(id)), n, id))
  {
    hide Stored, GoodName;
  }

  lemma OneEvent(r: Room, n: Newest, e: Event)
    ensures After(r, n, [e]) == Do(r, n, e) && After(r, n, []) == r
  {
    assert [e][..0] == [];
    hide Do;
  }

  /** Some run from here on has a machine that opens the newest vault just when a machine has the key, or a
      copy of it that its machine can open is kept by the control plane or on its way there. */
  lemma OpenedAgainJustWhen(r: Room, n: Newest)
    requires Right(r, n)
    ensures (exists more, id :: Opens(After(r, n, more), n, id)) <==> WayIn(r, n)
  {
    hide Opens, Right, Do;
    if more, id :| Opens(After(r, n, more), n, id) {
      RunFromRight(r, n, more);
      OpensByKey(After(r, n, more), n, id);
    }
    if WayIn(r, n) {
      if id :| HasKey(r, n, id) {
        KeyOpens(r, n, id);
        OneEvent(r, n, Finishes(id));
        assert Opens(After(r, n, []), n, id) || Opens(After(r, n, [Finishes(id)]), n, id);
      } else if id :| id in r.copies && OfKey(n, r.copies[id]) {
        CopyOpens(r, n, id);
        OneEvent(r, n, Finishes(id));
        assert Opens(After(r, n, []), n, id);
      } else {
        var c :| c in r.sealing && OfKey(n, c.wrapped);
        StaysRight(r, n, Lands(c));
        assert Do(r, n, Lands(c)).copies[c.to] == c.wrapped by {
          LandsIn(r, n, c);
        }
        CopyOpens(Do(r, n, Lands(c)), n, c.to);
        OneEvent(r, n, Lands(c));
        assert Opens(After(r, n, [Lands(c)]), n, c.to);
      }
    }
  }

  lemma LandsIn(r: Room, n: Newest, c: Copy)
    requires c in r.sealing && OfKey(n, c.wrapped)
    ensures c.to in Do(r, n, Lands(c)).copies && Do(r, n, Lands(c)).copies[c.to] == c.wrapped
  {}

  // ---- The body in memory ------------------------------------------------------------

  /** The machine has the newest body in memory and knows it for the newest. */
  predicate Holds(r: Room, n: Newest, id: MachineId) {
    var m := MachineOf(r, id);
    m.body == Some(n.vault.sealed.body) && m.file.Some? && m.file.value.team == n.team &&
    m.file.value.generation == n.vault.generation
  }

  /** Such a machine can still save, key or not: its write is based on the newest body and is accepted. */
  lemma HolderSaves(r: Room, n: Newest, id: MachineId, patch: Patch, now: int, mint: Key)
    requires Right(r, n) && Clean(n.vault.sealed.body) && Holds(r, n, id)
    requires ApplyPatch(n.vault.sealed.body, patch, now).Ok?
    ensures var s := Current(r, n, id, true); var m := Tick(MachineOf(r, id), s).machine;
      var w := Write(m, s, patch, n.vault.generation, now, mint);
      w.Ok? && w.value.1.sealed.body == ApplyPatch(n.vault.sealed.body, patch, now).value &&
      Accept(Some(n.vault), w.value.1).Some? && (!WayIn(r, n) ==> w.value.1.freshKey)
  {
    var s := Current(r, n, id, true);
    EnvelopeRoundTrip(n.vault.sealed.key, n.vault.sealed.key, n.vault.sealed.body);
    assert HasKey(r, n, id) ==> WayIn(r, n);
    assert id in r.copies && OfKey(n, r.copies[id]) ==> WayIn(r, n);
    hide Stored, ApplyPatch, WayIn, Clean;
  }

  lemma HoldsStep(r: Room, n: Newest, e: Event, id: MachineId)
    requires Right(r, n) && n.vault.generation > 0 && Holds(Do(r, n, e), n, id)
    ensures Holds(r, n, id) || id in r.saving || WayIn(r, n)
  {
    if e.Looks? && e.id == id && MayShow(r, n, id, e.snapshot) && !HasKey(r, n, id) && !(id in r.copies && OfKey(n, r.copies[id])) {
      hide Stored, GoodName, WayIn;
      assert Holds(r, n, id);
    } else {
      assert HasKey(r, n, id) || (id in r.copies && OfKey(n, r.copies[id])) ==> WayIn(r, n);
      hide MayShow, Tick, Stored, WayIn;
    }
  }

  ghost predicate SomeHolds(r: Room, n: Newest) {
    exists id :: Holds(r, n, id) || id in r.saving
  }

  lemma {:induction false} RunFromHolds(r: Room, n: Newest, events: seq<Event>)
    requires Right(r, n) && n.vault.generation > 0 && SomeHolds(After(r, n, events), n)
    ensures SomeHolds(r, n) || WayIn(r, n)
  {
    hide Right, WayIn, Do, Holds;
    if events != [] {
      var init := events[..|events| - 1];
      var before, e := After(r, n, init), events[|events| - 1];
      RunFromRight(r, n, init);
      var id :| Holds(Do(before, n, e), n, id) || id in Do(before, n, e).saving;
      SavingShrinks(before, n, e);
      if Holds(Do(before, n, e), n, id) { HoldsStep(before, n, e, id); }
      if SomeHolds(before, n) { RunFromHolds(r, n, init); }
    }
  }

  lemma SavingShrinks(r: Room, n: Newest, e: Event)
    ensures Do(r, n, e).saving <= r.saving
  {}

  lemma OpeningHolds(r: Room, n: Newest, id: MachineId)
    requires Clean(n.vault.sealed.body) && Opens(r, n, id)
    ensures Holds(Do(r, n, Looks(id, Current(r, n, id, false))), n, id)
  {
    EnvelopeRoundTrip(n.vault.sealed.key, n.vault.sealed.key, n.vault.sealed.body);
    hide Stored, Clean;
  }

  lemma OneMore(r: Room, n: Newest, events: seq<Event>, e: Event)
    ensures After(r, n, events + [e]) == Do(After(r, n, events), n, e)
  {
    assert (events + [e])[..|events|] == events;
    hide Do;
  }

  lemma KeepingHolds(r: Room, n: Newest, id: MachineId)
    requires id in r.saving
    ensures Holds(Do(r, n, Finishes(id)), n, id)
  {
    hide Stored;
  }

  /** Some run from here on has a machine with the newest body in memory just when there is a way to the key, or a
      machine has that body now or is about to keep it: otherwise nobody writes on from it again. */
  lemma HeldAgainJustWhen(r: Room, n: Newest)
    requires Right(r, n) && Clean(n.vault.sealed.body) && n.vault.generation > 0
    ensures (exists more, id :: Holds(After(r, n, more), n, id)) <==> WayIn(r, n) || SomeHolds(r, n)
  {
    hide Opens, Right, Do, WayIn, Holds, Clean;
    if more, id :| Holds(After(r, n, more), n, id) {
      RunFromHolds(r, n, more);
    }
    if WayIn(r, n) {
      OpenedAgainJustWhen(r, n);
      var more, id :| Opens(After(r, n, more), n, id);
      var r' := After(r, n, more);
      var e := Looks(id, Current(r', n, id, false));
      OpeningHolds(r', n, id);
      OneMore(r, n, more, e);
      assert Holds(After(r, n, more + [e]), n, id);
    } else if SomeHolds(r, n) {
      var id :| Holds(r, n, id) || id in r.saving;
      OneEvent(r, n, Finishes(id));
      if id in r.saving { KeepingHolds(r, n, id); }
      assert Holds(After(r, n, []), n, id) || Holds(After(r, n, [Finishes(id)]), n, id);
    }
  }

  // ---- A tick that overlaps a push ---------------------------------------------------

  /** A push under a fresh key was just answered: its machine has written the key and sent the copy sealed for
      itself, and nobody else has anything of the new generation. */
  ghost predicate JustStored(r: Room, n: Newest, id: MachineId, copy: Copy) {
    r.saving == {id} && r.sealing == {copy} && copy == Copy(id, Wrapped(true, n.vault.sealed.key, n.vault.keyGeneration)) &&
    HasKey(r, n, id) && (MachineOf(r, id).file.Some? ==> MachineOf(r, id).file.value.team == n.team) && n.vault.generation > 0 && Clean(n.vault.sealed.body) &&
    (forall i :: i in r.copies ==> r.copies[i].keyGeneration < n.vault.keyGeneration) &&
    (forall i :: i in r.machines && i != id && r.machines[i].key.Some? && r.machines[i].key.value.team == n.team ==>
      r.machines[i].key.value.keyGeneration < n.vault.keyGeneration) &&
    (forall i :: !Holds(r, n, i))
  }

  /** An answer from before: it shows an older vault with a copy of its key that the machine can open. */
  predicate BringsOldKey(s: Snapshot) {
    s.vault.Some? && s.wrapped.Some? && s.wrapped.value.opens && s.wrapped.value.keyGeneration == s.vault.value.keyGeneration
  }

  /** The machines of a run the moment one of them has taken in the answer a and written its key. */
  function Answered(w: TeamVaultSafety.World, id: MachineId, a: TeamVaultSafety.Receipt, copies: map<MachineId, Wrapped>): Room {
    var machines := map i | i in w.peers :: w.peers[i].machine;
    Room(machines[id := TeamVaultSafety.PeerOf(w, id).machine.(key := Some(a.put.local.(keyGeneration := a.keyGeneration)))],
      copies, {Copy(id, Wrapped(true, a.put.local.key, a.keyGeneration))}, {id})
  }

  /** Every honest run in which a write under a fresh key was stored and its answer is awaited leads there. */
  lemma RunsLeadThere(events: seq<TeamVaultSafety.Event>, id: MachineId, a: TeamVaultSafety.Receipt, copies: map<MachineId, Wrapped>)
    requires TeamVaultKeys.HonestRun(events) && a in TeamVaultSafety.Run(events).receipts && a.put.freshKey
    requires TeamVaultSafety.PeerOf(TeamVaultSafety.Run(events), id).phase == TeamVaultSafety.Saving(a.put)
    requires forall i :: i in copies ==>
      LocalKey(a.put.team, copies[i].key, copies[i].keyGeneration) in TeamVaultSafety.Run(events).held
    ensures var w, t := TeamVaultSafety.Run(events), a.put.team;
      TeamVaultSafety.TeamOf(w, t).vault.Some? &&
      JustStored(Answered(w, id, a, copies), Newest(t, TeamVaultSafety.TeamOf(w, t).vault.value), id,
        Copy(id, Wrapped(true, a.put.local.key, a.keyGeneration)))
  {
    var w, t := TeamVaultSafety.Run(events), a.put.team;
    TeamVaultSafety.RunOk(events);
    TeamVaultKeys.RunKeys(events);
    TeamVaultStranded.RunAwaited(events);
    assert TeamVaultStranded.Waiting(w, a.put) by {
      assert TeamVaultKeys.Waits(TeamVaultSafety.PeerOf(w, id).phase, a.put);
    }
    hide *;
    StoredIsNewest(w, id, a);
    NobodyElse(w, id, a, copies);
  }

  lemma NobodyElse(w: TeamVaultSafety.World, id: MachineId, a: TeamVaultSafety.Receipt, copies: map<MachineId, Wrapped>)
    requires TeamVaultSafety.Inv(w) && TeamVaultKeys.KeysOk(w) && TeamVaultStranded.Closed(w, a.put.team, a.put)
    requires a in w.receipts && TeamVaultSafety.PeerOf(w, id).phase == TeamVaultSafety.Saving(a.put)
    requires forall i :: i in copies ==> LocalKey(a.put.team, copies[i].key, copies[i].keyGeneration) in w.held
    ensures JustStored(Answered(w, id, a, copies), Newest(a.put.team, TeamVaultSafety.TeamOf(w, a.put.team).vault.value), id,
      Copy(id, Wrapped(true, a.put.local.key, a.keyGeneration)))
  {
    var v, r := TeamVaultSafety.TeamOf(w, a.put.team).vault.value, Answered(w, id, a, copies);
    StoredIsNewest(w, id, a);
    forall i ensures TeamVaultStranded.Outside(TeamVaultSafety.PeerOf(w, i).machine, a.put.team, v) {}
    forall k | k in w.held && k.team == a.put.team ensures k.keyGeneration < v.keyGeneration {
      assert k.keyGeneration <= KeyGenerationOf(TeamVaultSafety.TeamOf(w, k.team).vault);
    }
    forall i ensures TeamVaultSafety.PeerOf(w, i).machine.key.Some? ==> TeamVaultSafety.PeerOf(w, i).machine.key.value in w.held {
      assert TeamVaultKeys.PeerKeys(w, TeamVaultSafety.PeerOf(w, i));
    }
    hide TeamVaultSafety.Inv, TeamVaultKeys.KeysOk, TeamVaultStranded.Closed, Clean;
    var n := Newest(a.put.team, v);
    forall i ensures MachineOf(r, i).file == TeamVaultSafety.PeerOf(w, i).machine.file {}
    assert forall i :: !Holds(r, n, i);
    assert HasKey(r, n, id);
    forall i | i in r.machines && i != id ensures r.machines[i] == TeamVaultSafety.PeerOf(w, i).machine {}
    forall i | i in r.copies ensures r.copies[i].keyGeneration < v.keyGeneration {
      assert LocalKey(a.put.team, copies[i].key, copies[i].keyGeneration) in w.held;
    }
  }

  lemma StoredIsNewest(w: TeamVaultSafety.World, id: MachineId, a: TeamVaultSafety.Receipt)
    requires TeamVaultSafety.Inv(w) && TeamVaultKeys.KeysOk(w) && TeamVaultStranded.Closed(w, a.put.team, a.put)
    requires a in w.receipts && TeamVaultSafety.PeerOf(w, id).phase == TeamVaultSafety.Saving(a.put)
    ensures var v := TeamVaultSafety.TeamOf(w, a.put.team).vault.value;
      v.sealed == a.put.sealed && v.sealed.key == a.put.local.key && v.generation == a.generation && a.put.local.team == a.put.team &&
      v.keyGeneration == a.keyGeneration && v.generation > 0 && Clean(v.sealed.body) &&
      var file := TeamVaultSafety.PeerOf(w, id).machine.file; file.Some? ==> file.value.team == a.put.team
  {
    var t := a.put.team;
    assert TeamVaultKeys.NewestOk(w, t) && TeamVaultSafety.TeamOk(TeamVaultSafety.TeamOf(w, t));
    assert TeamVaultKeys.PeerKeys(w, TeamVaultSafety.PeerOf(w, id)) && TeamVaultKeys.ReceiptKeys(w, a);
    var b :| TeamVaultKeys.IsNewest(w, t, b);
    assert TeamVaultKeys.InOrder(a, b) && TeamVaultSafety.ReceiptOk(w, a) && TeamVaultSafety.ReceiptOk(w, b);
    var s :| s in w.sent && s.put == a.put;
    assert TeamVaultKeys.SentKeys(w, s);
  }

  /** What the late answer leaves of the key. */
  lemma LateTick(r: Room, n: Newest, id: MachineId, late: Snapshot)
    requires HasKey(r, n, id) && id in r.saving
    requires late.team == Some(n.team) && MayShow(r, n, id, late) && late.vault != Some(n.vault)
    requires MachineOf(r, id).file.Some? ==> MachineOf(r, id).file.value.team == n.team
    ensures var key := Tick(MachineOf(r, id), late).machine.key;
      if BringsOldKey(late) then key.None? || key.value.keyGeneration < n.vault.keyGeneration
      else key == MachineOf(r, id).key
  {
    hide OpenEnvelope, Stored;
  }

  /** What is left when the copy is lost and nothing is on its way: the machine's own key file. */
  function Left(r: Room, id: MachineId, m: Machine): Room {
    Room(r.machines[id := m], r.copies, {}, {})
  }

  lemma OnlyItsKey(r: Room, n: Newest, id: MachineId, copy: Copy, m: Machine)
    requires JustStored(r, n, id, copy) && m.file.Some? && m.file.value.team == n.team
    requires m.key == MachineOf(r, id).key || m.key.None? || m.key.value.keyGeneration < n.vault.keyGeneration
    ensures Right(Left(r, id, m), n) && (WayIn(Left(r, id, m), n) <==> m.key == MachineOf(r, id).key)
    ensures SomeHolds(Left(r, id, m), n) <==> Holds(Left(r, id, m), n, id)
  {
    var r' := Left(r, id, m);
    hide Clean;
    assert forall i :: MachineOf(r', i) == if i == id then m else MachineOf(r, i);
    assert forall i :: i != id ==> !HasKey(r', n, i);
    assert forall i :: i != id ==> Holds(r', n, i) == Holds(r, n, i);
    assert HasKey(r', n, id) <==> m.key == MachineOf(r, id).key;
  }

  /** The machine of the push takes in an answer from before, its sealed copy is lost on the way, and it keeps the
      body. The vault can be opened in some run from there on just when that answer brought no copy of the older
      key; with one, the machine still holds the body, until it restarts. */
  lemma OverlapLosesJustWhen(r: Room, n: Newest, id: MachineId, copy: Copy, late: Snapshot)
    requires JustStored(r, n, id, copy)
    requires late.team == Some(n.team) && MayShow(r, n, id, late) && late.vault != Some(n.vault)
    ensures var kept := After(r, n, [Looks(id, late), Lost(copy), Finishes(id)]);
      Holds(kept, n, id) &&
      ((exists more, i :: Opens(After(kept, n, more), n, i)) <==> !BringsOldKey(late))
    ensures var end := After(r, n, [Looks(id, late), Lost(copy), Finishes(id), Restarts(id)]);
      ((exists more, i :: Holds(After(end, n, more), n, i)) <==> !BringsOldKey(late))
  {
    var m2 := Tick(MachineOf(r, id), late).machine;
    var m3 := Keep(m2, n.team, n.vault.sealed.body, n.vault.generation);
    var m4 := m3.(status := NoTeam, body := None);
    LateTick(r, n, id, late);
    OverlapRun(r, n, id, copy, late);
    OnlyItsKey(r, n, id, copy, m3);
    OnlyItsKey(r, n, id, copy, m4);
    assert Clean(n.vault.sealed.body) && n.vault.generation > 0;
    assert MachineOf(r, id).key.Some? && MachineOf(r, id).key.value.keyGeneration == n.vault.keyGeneration;
    hide Tick, MayShow, BringsOldKey, Stored, Clean, JustStored, Do, After, Opens, WayIn, SomeHolds, Right;
    OpenedAgainJustWhen(Left(r, id, m3), n);
    HeldAgainJustWhen(Left(r, id, m4), n);
  }

  lemma OverlapRun(r: Room, n: Newest, id: MachineId, copy: Copy, late: Snapshot)
    requires r.saving == {id} && r.sealing == {copy} && MayShow(r, n, id, late)
    ensures var m3 := Keep(Tick(MachineOf(r, id), late).machine, n.team, n.vault.sealed.body, n.vault.generation);
      After(r, n, [Looks(id, late), Lost(copy), Finishes(id)]) == Left(r, id, m3) &&
      After(r, n, [Looks(id, late), Lost(copy), Finishes(id), Restarts(id)]) ==
        Left(r, id, m3.(status := NoTeam, body := None))
  {
    hide Tick, MayShow, Keep;
    var e := [Looks(id, late), Lost(copy), Finishes(id), Restarts(id)];
    OneEvent(r, n, e[0]);
    OneMore(r, n, [e[0]], e[1]);
    OneMore(r, n, [e[0], e[1]], e[2]);
    OneMore(r, n, [e[0], e[1], e[2]], e[3]);
    assert [e[0]] + [e[1]] == [e[0], e[1]] && [e[0], e[1]] + [e[2]] == [e[0], e[1], e[2]] && [e[0], e[1], e[2]] + [e[3]] == e;
  }
}
