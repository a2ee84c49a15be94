/** A write whose answer is lost. Under a fresh key only the lost answer carries the key of the stored
    generation: no machine ever opens it or writes to the vault again. Under the key the machine had,
    the machine opens it at its next tick. */
module TeamVaultStranded {
  import opened Wrappers
  import opened TeamVault
  import opened TeamVaultSafety
  import opened TeamVaultKeys

  predicate OfTeam(s: Snapshot, t: TeamId) {
    s.team == Some(t)
  }

  /** A snapshot gives no way into v: it shows an older vault, or v without the key to it. */
  predicate NoWayIn(s: Snapshot, v: Vault) {
    (s.wrapped.Some? ==> s.wrapped.value.keyGeneration != v.keyGeneration) &&
    (s.vault.Some? && s.vault.value.generation < v.generation ==> s.vault.value.keyGeneration < v.keyGeneration) &&
    (s.vault.Some? && s.vault.value.generation >= v.generation ==>
      s.vault.value.generation == v.generation && s.vault.value.keyGeneration == v.keyGeneration)
  }

  /** The machine has neither v's key nor v's body. */
  predicate Outside(m: Machine, t: TeamId, v: Vault) {
    (m.key.Some? && m.key.value.team == t ==> m.key.value.keyGeneration != v.keyGeneration) &&
    (m.file.Some? && m.file.value.team == t ==> m.file.value.generation < v.generation)
  }

  /** It holds no snapshot that lets it in. */
  predicate PhaseOutside(p: Phase, t: TeamId, v: Vault) {
    p.Answered? || p.Rotating? ==> OfTeam(p.snapshot, t) ==> NoWayIn(p.snapshot, v)
  }

  predicate SentOutside(s: Sent, t: TeamId, v: Vault) {
    s.put.local.team == s.put.team && (s.put.team == t ==> s.put.expected < v.generation)
  }

  /** Only the lost answer names v's generation and key generation. */
  predicate ReceiptOutside(a: Receipt, t: TeamId, v: Vault, lost: Put) {
    a.put.local.team == a.put.team &&
    (a.put.team == t && a.put != lost ==> a.generation < v.generation && a.keyGeneration < v.keyGeneration)
  }

  /** The vault is what one request under a fresh key made it, and no machine has the key or a way to it. */
  ghost predicate Closed(w: World, t: TeamId, lost: Put) {
    TeamOf(w, t).vault.Some? &&
    var v := TeamOf(w, t).vault.value;
    v.sealed == lost.sealed && lost.team == t && lost.freshKey && v.generation > 0 &&
    (exists s :: s in w.sent && s.put == lost) &&
    (forall k :: k in w.held && k.team == t ==> k.keyGeneration != v.keyGeneration) &&
    (forall id :: Outside(PeerOf(w, id).machine, t, v) && PhaseOutside(PeerOf(w, id).phase, t, v)) &&
    (forall s :: s in w.sent ==> SentOutside(s, t, v)) &&
    (forall a :: a in w.receipts ==> ReceiptOutside(a, t, v, lost))
  }

  ghost predicate Waiting(w: World, put: Put) {
    exists id :: Waits(PeerOf(w, id).phase, put)
  }

  /** And no machine waits for the answer that carries the key. */
  ghost predicate Stranded(w: World, t: TeamId, lost: Put) {
    Closed(w, t, lost) && !Waiting(w, lost)
  }

  lemma TickOutside(m: Machine, s: Snapshot, t: TeamId, v: Vault)
    requires Outside(m, t, v) && (OfTeam(s, t) ==> NoWayIn(s, v)) && v.generation > 0
    ensures Outside(Tick(m, s).machine, t, v)
    ensures Tick(m, s).rotate ==> s.vault.Some? && (OfTeam(s, t) ==> s.vault.value.generation < v.generation)
  {
    hide TeamVault.Stored, OpenEnvelope;
  }

  /** A request a machine outside can send names an older generation, under another key. */
  lemma WriteOutside(w: World, m: Machine, s: Snapshot, intent: Intent, now: int, mint: Key, t: TeamId, v: Vault, lost: Put)
    requires Outside(m, t, v) && (OfTeam(s, t) ==> NoWayIn(s, v)) && MachineOk(w, m)
    requires s.team.Some? ==> InTeam(m, s)
    requires MayWrite(m, s, Some(intent)) && v.generation > 0
    requires lost.freshKey && (exists k :: k in w.sent && k.put == lost) && Unused(w, mint)
    requires Write(m, s, intent.patch, intent.base, now, mint).Ok?
    ensures var r := Write(m, s, intent.patch, intent.base, now, mint).value;
      Outside(r.0, t, v) && r.1 != lost && SentOutside(Sent(r.1, Edited(intent.patch, now)), t, v)
  {
    hide ApplyPatch;
  }

  lemma PeerStep(w: World, w': World, id: MachineId, p: Peer, sent: set<Sent>, t: TeamId, lost: Put)
    requires Closed(w, t, lost) && w' == SetPeer(w, id, p).(sent := w.sent + sent)
    requires Outside(p.machine, t, TeamOf(w, t).vault.value) && PhaseOutside(p.phase, t, TeamOf(w, t).vault.value)
    requires forall s :: s in sent ==> SentOutside(s, t, TeamOf(w, t).vault.value)
    requires Waits(p.phase, lost) ==> Waits(PeerOf(w, id).phase, lost)
    ensures Closed(w', t, lost) && TeamOf(w', t) == TeamOf(w, t) && (Waiting(w', lost) ==> Waiting(w, lost))
  {
    hide PhaseOutside, SentOutside, ReceiptOutside;
    forall i ensures PeerOf(w', i) == if i == id then p else PeerOf(w, i) {}
    var s :| s in w.sent && s.put == lost;
    assert s in w'.sent;
    hide Outside;
    forall i ensures Waits(PeerOf(w', i).phase, lost) ==> Waits(PeerOf(w, i).phase, lost) {}
  }

  lemma GoOnOutside(w: World, id: MachineId, m: Machine, s: Snapshot, intent: Option<Intent>, now: int, mint: Key, t: TeamId,
      lost: Put)
    requires Closed(w, t, lost) && MachineOk(w, m) && Unused(w, mint)
    requires Outside(m, t, TeamOf(w, t).vault.value) && (OfTeam(s, t) ==> NoWayIn(s, TeamOf(w, t).vault.value))
    requires s.team.Some? ==> InTeam(m, s)
    requires MayWrite(m, s, intent)
    ensures var w' := GoOn(w, id, m, s, intent, now, mint);
      Closed(w', t, lost) && TeamOf(w', t) == TeamOf(w, t) && (Waiting(w', lost) ==> Waiting(w, lost))
    ensures !Waits(PeerOf(GoOn(w, id, m, s, intent, now, mint), id).phase, lost)
  {
    var v := TeamOf(w, t).vault.value;
    hide MachineOk, Write;
    var w' := GoOn(w, id, m, s, intent, now, mint);
    if intent.Some? && Write(m, s, intent.value.patch, intent.value.base, now, mint).Ok? {
      var r := Write(m, s, intent.value.patch, intent.value.base, now, mint).value;
      WriteOutside(w, m, s, intent.value, now, mint, t, v, lost);
      hide Closed;
      PeerStep(w, w', id, Peer(r.0, Saving(r.1)), {Sent(r.1, Edited(intent.value.patch, now))}, t, lost);
    } else {
      hide Closed;
      PeerStep(w, w', id, Peer(m, Idle), {}, t, lost);
    }
  }

  lemma PeerIs(w: World, id: MachineId, t: TeamId, lost: Put)
    requires Closed(w, t, lost) && Inv(w)
    ensures var p := PeerOf(w, id); var v := TeamOf(w, t).vault.value;
      Outside(p.machine, t, v) && PhaseOutside(p.phase, t, v) && MachineOk(w, p.machine) && PhaseOk(w, p)
  {}

  /** A copy of a key that was held is no copy of the vault's. */
  lemma FetchStays(w: World, id: MachineId, s: Snapshot, intent: Option<Intent>, t: TeamId, lost: Put)
    requires Inv(w) && Closed(w, t, lost) && Honest(w, Fetch(id, s, intent))
    ensures Kept(w, Do(w, Fetch(id, s, intent)), t, lost)
  {
    var p := PeerOf(w, id);
    PeerIs(w, id, t, lost);
    var v := TeamOf(w, t).vault.value;
    assert Shows(w, s) && OfTeam(s, t) ==> NoWayIn(s, v);
    hide Inv, Closed, Waiting, MachineOk, PhaseOk, Outside, NoWayIn;
    if p.phase.Idle? && Shows(w, s) && BasedOnKept(p.machine, intent) {
      PeerStep(w, Do(w, Fetch(id, s, intent)), id, Peer(p.machine, Answered(s, intent)), {}, t, lost);
    }
  }

  /** The vault stays closed as it is, and nobody new waits for the answer. */
  ghost predicate Kept(w: World, w': World, t: TeamId, lost: Put) {
    Closed(w', t, lost) && TeamOf(w', t).log == TeamOf(w, t).log && (Waiting(w', lost) ==> Waiting(w, lost))
  }

  lemma ProceedStays(w: World, id: MachineId, now: int, mint: Key, t: TeamId, lost: Put)
    requires Inv(w) && Closed(w, t, lost) && Unused(w, mint)
    ensures Kept(w, Do(w, Proceed(id, now, mint)), t, lost)
  {
    var p, v := PeerOf(w, id), TeamOf(w, t).vault.value;
    PeerIs(w, id, t, lost);
    if p.phase.Answered? {
      var s := p.phase.snapshot;
      var k := Tick(p.machine, s);
      TeamsOf(w);
      TickOk(w, p.machine, s);
      TickOutside(p.machine, s, t, v);
      TickBased(p.machine, s, p.phase.intent);
      if k.rotate {
        var put := PutFor(s, k.body.value, None, mint);
        assert put != lost;
        hide Inv, Closed, Waiting, MachineOk, TeamOk, Tick, Outside, SnapshotOk, NoWayIn;
        PeerStep(w, Do(w, Proceed(id, now, mint)), id, Peer(k.machine, Rotating(s, p.phase.intent, put)),
                 {Sent(put, Rotated)}, t, lost);
      } else {
        hide Inv, Closed, Waiting, MachineOk, TeamOk, Tick, Outside, SnapshotOk, NoWayIn, GoOn;
        GoOnOutside(w, id, k.machine, s, p.phase.intent, now, mint, t, lost);
      }
    }
  }

  /** An older answer brings an older generation and key generation. */
  lemma PushedOutside(w: World, m: Machine, a: Receipt, t: TeamId, v: Vault, lost: Put)
    requires Outside(m, t, v) && ReceiptOutside(a, t, v, lost) && a.put != lost
    requires ReceiptOk(w, a)
    ensures Outside(Pushed(m, a.put, a.generation, a.keyGeneration), t, v)
    ensures MachineOk(w, Pushed(m, a.put, a.generation, a.keyGeneration))
  {
    hide TeamVault.Stored;
  }

  lemma ReplyStays(w: World, id: MachineId, a: Receipt, now: int, mint: Key, t: TeamId, lost: Put)
    requires Inv(w) && Closed(w, t, lost) && Unused(w, mint) && a.put != lost
    ensures Kept(w, Do(w, Reply(id, a, now, mint)), t, lost)
  {
    var p, v := PeerOf(w, id), TeamOf(w, t).vault.value;
    PeerIs(w, id, t, lost);
    if a in w.receipts && (p.phase.Rotating? || p.phase.Saving?) && p.phase.put == a.put {
      assert ReceiptOk(w, a) && ReceiptOutside(a, t, v, lost);
      var m := Pushed(p.machine, a.put, a.generation, a.keyGeneration);
      PushedOutside(w, p.machine, a, t, v, lost);
      if p.phase.Rotating? {
        assert InTeam(m, p.phase.snapshot) && MayWrite(m, p.phase.snapshot, p.phase.intent);
      }
      hide Inv, Closed, Waiting, MachineOk, TeamOk, Outside, NoWayIn, Pushed, GoOn;
      if p.phase.Saving? {
        PeerStep(w, Do(w, Reply(id, a, now, mint)), id, Peer(m, Idle), {}, t, lost);
      } else {
        GoOnOutside(w, id, m, p.phase.snapshot, p.phase.intent, now, mint, t, lost);
      }
    }
  }

  /** A machine that gives up on an answer does not wait for it any more. */
  lemma NoReplyStays(w: World, id: MachineId, now: int, mint: Key, t: TeamId, lost: Put)
    requires Inv(w) && Closed(w, t, lost) && Unused(w, mint)
    ensures Kept(w, Do(w, NoReply(id, now, mint)), t, lost)
    ensures !Waits(PeerOf(Do(w, NoReply(id, now, mint)), id).phase, lost)
  {
    var p := PeerOf(w, id);
    PeerIs(w, id, t, lost);
    hide Inv, Closed, Waiting, MachineOk, TeamOk, Outside, NoWayIn, GoOn;
    if p.phase.Saving? {
      PeerStep(w, Do(w, NoReply(id, now, mint)), id, Peer(p.machine, Idle), {}, t, lost);
    } else if p.phase.Rotating? {
      GoOnOutside(w, id, p.machine, p.phase.snapshot, p.phase.intent, now, mint, t, lost);
    }
  }

  lemma RestartStays(w: World, id: MachineId, t: TeamId, lost: Put)
    requires Inv(w) && Closed(w, t, lost)
    ensures Kept(w, Do(w, Restart(id)), t, lost)
    ensures !Waits(PeerOf(Do(w, Restart(id)), id).phase, lost)
  {
    var p := PeerOf(w, id);
    PeerIs(w, id, t, lost);
    hide Inv, Closed, Waiting;
    PeerStep(w, Do(w, Restart(id)), id, Peer(p.machine.(status := NoTeam, body := None), Idle), {}, t, lost);
  }

  lemma SamePeers(w: World, w': World, put: Put)
    requires w'.peers == w.peers
    ensures Waiting(w', put) <==> Waiting(w, put)
  {
    assert forall id :: PeerOf(w', id) == PeerOf(w, id);
  }

  /** What still arrives for the team is refused; other teams go on. */
  lemma ArriveStays(w: World, sent: Sent, t: TeamId, lost: Put)
    requires Inv(w) && Closed(w, t, lost)
    ensures Kept(w, Do(w, Arrive(sent)), t, lost)
  {
    var v := TeamOf(w, t).vault.value;
    SamePeers(w, Do(w, Arrive(sent)), lost);
    if sent in w.sent {
      assert SentOutside(sent, t, v);
      var w' := Do(w, Arrive(sent));
      assert TeamOf(w', t) == TeamOf(w, t);
      hide Inv, Outside, PhaseOutside, SentOutside, Waiting;
      assert forall id :: PeerOf(w', id) == PeerOf(w, id);
    }
  }

  lemma MemberLeftStays(w: World, team: TeamId, t: TeamId, lost: Put)
    requires Closed(w, t, lost)
    ensures Kept(w, Do(w, MemberLeft(team)), t, lost)
  {
    var w' := Do(w, MemberLeft(team));
    SamePeers(w, w', lost);
    var v, v' := TeamOf(w, t).vault.value, TeamOf(w', t).vault.value;
    assert v' == v.(needsRotation := v'.needsRotation);
    forall id ensures Outside(PeerOf(w', id).machine, t, v') && PhaseOutside(PeerOf(w', id).phase, t, v') {
      assert PeerOf(w', id) == PeerOf(w, id);
      assert Outside(PeerOf(w, id).machine, t, v) && PhaseOutside(PeerOf(w, id).phase, t, v);
    }
    forall s | s in w'.sent ensures SentOutside(s, t, v') {
      assert SentOutside(s, t, v);
    }
    forall a | a in w'.receipts ensures ReceiptOutside(a, t, v', lost) {
      assert ReceiptOutside(a, t, v, lost);
    }
  }

  /** The machine gets the answer. */
  predicate Learns(w: World, e: Event, lost: Put) {
    e.Reply? && e.receipt.put == lost && e.receipt in w.receipts && Waits(PeerOf(w, e.id).phase, lost)
  }

  lemma StaysClosed(w: World, e: Event, t: TeamId, lost: Put)
    requires Inv(w) && Closed(w, t, lost) && Honest(w, e) && !Learns(w, e, lost)
    ensures Kept(w, Do(w, e), t, lost)
  {
    match e
    case Fetch(id, s, intent) => FetchStays(w, id, s, intent, t, lost);
    case Proceed(id, now, mint) => ProceedStays(w, id, now, mint, t, lost);
    case Reply(id, a, now, mint) => if a.put != lost { ReplyStays(w, id, a, now, mint, t, lost); }
    case NoReply(id, now, mint) => NoReplyStays(w, id, now, mint, t, lost);
    case Restart(id) => RestartStays(w, id, t, lost);
    case Arrive(sent) => ArriveStays(w, sent, t, lost);
    case MemberLeft(team) => MemberLeftStays(w, team, t, lost);
  }

  ghost predicate HonestOn(events: seq<Event>, more: seq<Event>) {
    forall k :: 0 <= k < |more| ==> Honest(Run(events + more[..k]), more[k])
  }

  /** Some machine holds the newest body. */
  ghost predicate SomeoneHasIt(w: World, t: TeamId) {
    exists id :: HasIt(w, PeerOf(w, id).machine, t)
  }

  predicate HasIt(w: World, m: Machine, t: TeamId) {
    m.file.Some? && m.file.value.team == t && m.file.value.generation == GenerationOf(TeamOf(w, t).vault)
  }

  /** Once stranded, always stranded: whatever the machines do, the vault gets no further change and no
      machine ever holds its newest body. */
  lemma {:induction false} StrandedForGood(events: seq<Event>, more: seq<Event>, t: TeamId, lost: Put)
    requires Stranded(Run(events), t, lost) && HonestOn(events, more)
    ensures Stranded(Run(events + more), t, lost) && TeamOf(Run(events + more), t).log == TeamOf(Run(events), t).log
    ensures !SomeoneHasIt(Run(events + more), t)
  {
    hide Do, Run, Honest, Closed, SomeoneHasIt;
    if more == [] {
      assert events + more == events;
    } else {
      var init, last := more[..|more| - 1], more[|more| - 1];
      assert forall k :: 0 <= k < |init| ==> init[..k] == more[..k];
      StrandedForGood(events, init, t, lost);
      RunOneMore(events, more);
      RunOk(events + init);
      StaysClosed(Run(events + init), last, t, lost);
    }
    OutsideMeans(Run(events + more), t, lost);
  }

  lemma OutsideMeans(w: World, t: TeamId, lost: Put)
    requires Closed(w, t, lost)
    ensures !SomeoneHasIt(w, t)
  {
    forall id ensures !HasIt(w, PeerOf(w, id).machine, t) {
      assert Outside(PeerOf(w, id).machine, t, TeamOf(w, t).vault.value);
    }
  }

  // ---- Every fresh key -------------------------------------------------------------

  lemma OldKeysOut(w: World, t: TeamId, put: Put, v: Vault, id: MachineId)
    requires KeysOk(w) && Inv(w) && put.team == t && put.freshKey && Accept(TeamOf(w, t).vault, put) == Some(v)
    ensures Outside(PeerOf(w, id).machine, t, v) && PhaseOutside(PeerOf(w, id).phase, t, v)
  {
    var p := PeerOf(w, id);
    assert PeerKeys(w, p) && MachineOk(w, p.machine) && TeamOk(TeamOf(w, t));
    if (p.phase.Answered? || p.phase.Rotating?) && OfTeam(p.phase.snapshot, t) {
      var s := p.phase.snapshot;
      StoredBefore(w, s);
      if s.vault.Some? {
        var a :| a in w.receipts && a.put.team == t && a.generation == s.vault.value.generation &&
          a.keyGeneration == s.vault.value.keyGeneration;
        AnswerFits(w, a);
      }
    }
  }

  /** From the moment a request under a fresh key is stored, only its answer carries the vault's key. */
  lemma AcceptCloses(w: World, sent: Sent)
    requires KeysOk(w) && Inv(w) && sent in w.sent && sent.put.freshKey
    requires Accept(TeamOf(w, sent.put.team).vault, sent.put).Some?
    ensures Closed(Do(w, Arrive(sent)), sent.put.team, sent.put)
  {
    var t, w' := sent.put.team, Do(w, Arrive(sent));
    var v := Accept(TeamOf(w, t).vault, sent.put).value;
    assert TeamOf(w', t).vault == Some(v);
    forall id ensures Outside(PeerOf(w', id).machine, t, v) && PhaseOutside(PeerOf(w', id).phase, t, v) {
      assert PeerOf(w', id) == PeerOf(w, id);
      OldKeysOut(w, t, sent.put, v, id);
    }
    forall s | s in w'.sent ensures SentOutside(s, t, v) {
      assert SentKeys(w, s);
    }
    forall a | a in w'.receipts ensures ReceiptOutside(a, t, v, sent.put) {
      if a in w.receipts {
        assert ReceiptKeys(w, a);
        AnswerFits(w, a);
      } else {
        assert SentKeys(w, sent);
      }
    }
    forall k | k in w'.held && k.team == t ensures k.keyGeneration != v.keyGeneration {
      assert k.keyGeneration <= KeyGenerationOf(TeamOf(w, k.team).vault);
    }
  }

  /** Every stored request under a fresh key whose answer is still awaited has closed its vault. */
  ghost predicate AwaitedClosed(w: World) {
    forall a :: a in w.receipts && a.put.freshKey && Waiting(w, a.put) ==> Closed(w, a.put.team, a.put)
  }

  /** Who waits for the answer to a request sent before has waited for it before. */
  lemma WaitedBefore(w: World, e: Event, put: Put)
    requires KeysOk(w) && Honest(w, e) && put.freshKey && (exists s :: s in w.sent && s.put == put)
    requires Waiting(Do(w, e), put)
    ensures Waiting(w, put)
  {
    var w' := Do(w, e);
    var id :| Waits(PeerOf(w', id).phase, put);
    NewPhase(w, e, id, put);
  }

  lemma NewPhase(w: World, e: Event, id: MachineId, put: Put)
    requires Honest(w, e) && put.freshKey && (exists s :: s in w.sent && s.put == put)
    requires Waits(PeerOf(Do(w, e), id).phase, put)
    ensures Waits(PeerOf(w, id).phase, put)
  {
    hide Tick, Pushed, UsableKey, ApplyPatch, Accept, Shows, BasedOnKept;
  }

  /** The machine that gets the answer waits for it no more, and no other did. */
  lemma LearnedNotAwaited(w: World, e: Event, put: Put)
    requires KeysOk(w) && Honest(w, e) && put.freshKey && Learns(w, e, put)
    ensures !Waiting(Do(w, e), put)
  {
    var w' := Do(w, e);
    assert PeerKeys(w, PeerOf(w, e.id));
    forall id ensures !Waits(PeerOf(w', id).phase, put) {
      if Waits(PeerOf(w', id).phase, put) {
        NewPhase(w, e, id, put);
        assert id == e.id;
        LearnerMovesOn(w, e, put);
      }
    }
  }

  lemma LearnerMovesOn(w: World, e: Event, put: Put)
    requires Honest(w, e) && put.freshKey && Learns(w, e, put) && (exists s :: s in w.sent && s.put == put)
    ensures !Waits(PeerOf(Do(w, e), e.id).phase, put)
  {
    hide Pushed, UsableKey, ApplyPatch;
  }

  lemma AwaitedKept(w: World, e: Event)
    requires KeysOk(w) && Inv(w) && AwaitedClosed(w) && Honest(w, e)
    ensures AwaitedClosed(Do(w, e))
  {
    var w' := Do(w, e);
    forall a | a in w'.receipts && a.put.freshKey && Waiting(w', a.put) ensures Closed(w', a.put.team, a.put) {
      if a in w.receipts {
        assert ReceiptKeys(w, a);
        hide KeysOk, Inv, Do, Closed, Waiting, Honest, Learns;
        WaitedBefore(w, e, a.put);
        if Learns(w, e, a.put) {
          LearnedNotAwaited(w, e, a.put);
        } else {
          StaysClosed(w, e, a.put.team, a.put);
        }
      } else {
        NewAnswer(w, e, a);
      }
    }
  }

  lemma NewAnswer(w: World, e: Event, a: Receipt)
    requires KeysOk(w) && Inv(w) && a in Do(w, e).receipts && a !in w.receipts && a.put.freshKey
    ensures Closed(Do(w, e), a.put.team, a.put)
  {
    OnlyArrivals(w, e, a);
    hide KeysOk, Inv, Closed;
    AcceptCloses(w, e.sent);
  }

  lemma OnlyArrivals(w: World, e: Event, a: Receipt)
    requires a in Do(w, e).receipts && a !in w.receipts
    ensures e.Arrive? && e.sent in w.sent && e.sent.put == a.put && Accept(TeamOf(w, e.sent.put.team).vault, e.sent.put).Some?
  {
    hide Write, Tick, Pushed, Shows, BasedOnKept;
  }

  lemma {:induction false} RunAwaited(events: seq<Event>)
    requires HonestRun(events)
    ensures AwaitedClosed(Run(events))
  {
    hide Do, Honest, AwaitedClosed, Inv, KeysOk;
    if events != [] {
      var init := events[..|events| - 1];
      RunAwaited(init);
      RunOk(init);
      RunKeys(init);
      AwaitedKept(Run(init), events[|events| - 1]);
    } else {
      StartAwaited();
    }
  }

  lemma StartAwaited()
    ensures AwaitedClosed(START)
  {}

  /** The machine stops waiting for the answer to its request. */
  predicate GivesUp(e: Event, id: MachineId) {
    (e.NoReply? || e.Restart?) && e.id == id
  }

  /** In every honest run: when a request under a fresh key was stored and the machine that sent it,
      for a write or a rotation, gives up on the answer, the vault is stranded. */
  lemma LostFreshKeyStrands(events: seq<Event>, id: MachineId, a: Receipt, e: Event)
    requires HonestRun(events) && Honest(Run(events), e) && GivesUp(e, id)
    requires a in Run(events).receipts && Waits(PeerOf(Run(events), id).phase, a.put) && a.put.freshKey
    ensures Stranded(Do(Run(events), e), a.put.team, a.put)
  {
    var w := Run(events);
    RunOk(events);
    RunKeys(events);
    RunAwaited(events);
    assert Waiting(w, a.put);
    var w' := Do(w, e);
    assert OneWaits(w);
    assert ReceiptKeys(w, a);
    hide Do, Inv, KeysOk, Closed, Honest;
    StaysClosed(w, e, a.put.team, a.put);
    forall j ensures !Waits(PeerOf(w', j).phase, a.put) {
      if Waits(PeerOf(w', j).phase, a.put) {
        NewPhase(w, e, j, a.put);
        assert j == id;
        if e.NoReply? {
          NoReplyStays(w, id, e.now, e.mint, a.put.team, a.put);
        } else {
          RestartStays(w, id, a.put.team, a.put);
        }
      }
    }
  }

  // ---- A key the machine has -------------------------------------------------------

  lemma UnusedKey(w: World) returns (mint: Key)
    ensures Unused(w, mint)
  {
    mint := Above(w.sent);
  }

  lemma {:induction false} Above(sent: set<Sent>) returns (k: Key)
    ensures forall s :: s in sent ==> s.put.local.key < k
  {
    if sent == {} {
      k := 0;
    } else {
      var s :| s in sent;
      k := Above(sent - {s});
      k := if s.put.local.key < k then k else s.put.local.key + 1;
    }
  }

  /** What the machine that sent it has when the newest generation is its request under its own key. */
  lemma SenderHasKey(w: World, id: MachineId, a: Receipt)
    requires KeysOk(w) && a in w.receipts && Waits(PeerOf(w, id).phase, a.put) && !a.put.freshKey
    requires a.generation == GenerationOf(TeamOf(w, a.put.team).vault)
    ensures var m, v := PeerOf(w, id).machine, TeamOf(w, a.put.team).vault;
      PeerOf(w, id).phase.Saving? && m.key == Some(a.put.local) && a.put.local.team == a.put.team &&
      (m.file.Some? ==> m.file.value.team == a.put.team) &&
      (v.Some? ==> v.value.sealed.key == a.put.local.key && v.value.keyGeneration == a.put.local.keyGeneration)
    ensures TeamOf(w, a.put.team).vault.Some?
  {
    assert PeerKeys(w, PeerOf(w, id)) && ReceiptKeys(w, a) && NewestOk(w, a.put.team);
    var n :| IsNewest(w, a.put.team, n);
    assert InOrder(a, n);
    var s :| s in w.sent && s.put == a.put;
    assert SentKeys(w, s);
  }

  predicate CanOpen(m: Machine, t: TeamId, v: Vault) {
    m.key == Some(LocalKey(t, v.sealed.key, v.keyGeneration)) && (m.file.Some? ==> m.file.value.team == t)
  }

  /** A machine with the key opens the vault at its next tick. */
  lemma TickOpens(w: World, id: MachineId, t: TeamId, mint: Key)
    requires TeamOf(w, t).vault.Some? && CanOpen(PeerOf(w, id).machine, t, TeamOf(w, t).vault.value)
    requires PeerOf(w, id).phase.Idle?
    ensures var look := Fetch(id, Snapshot(Some(t), false, TeamOf(w, t).vault, None), None);
      var w' := Do(Do(w, look), Proceed(id, 0, mint)); HasIt(w', PeerOf(w', id).machine, t)
  {
    hide TeamVault.Stored;
    var s := Snapshot(Some(t), false, TeamOf(w, t).vault, None);
    var w1 := Do(w, Fetch(id, s, None));
    assert PeerOf(w1, id) == Peer(PeerOf(w, id).machine, Answered(s, None)) && TeamOf(w1, t) == TeamOf(w, t);
    var k := Tick(PeerOf(w, id).machine, s);
    assert k.machine.file.value.generation == GenerationOf(s.vault) && !k.rotate;
    hide Tick;
    var w2 := Do(w1, Proceed(id, 0, mint));
    assert PeerOf(w2, id).machine == k.machine && TeamOf(w2, t) == TeamOf(w, t);
  }

  lemma GaveUpReady(w: World, e: Event, id: MachineId, a: Receipt)
    requires KeysOk(w) && a in w.receipts && Waits(PeerOf(w, id).phase, a.put) && !a.put.freshKey && GivesUp(e, id)
    requires a.generation == GenerationOf(TeamOf(w, a.put.team).vault)
    ensures var w' := Do(w, e); var t := a.put.team;
      PeerOf(w', id).phase.Idle? && TeamOf(w', t) == TeamOf(w, t) && TeamOf(w, t).vault.Some? &&
      CanOpen(PeerOf(w', id).machine, t, TeamOf(w', t).vault.value) && w'.sent == w.sent
  {
    SenderHasKey(w, id, a);
    hide KeysOk;
  }

  /** The machine opens what it stored at its next tick, whether it restarted or only got no answer. */
  lemma KeptKeyOpens(events: seq<Event>, id: MachineId, a: Receipt, e: Event) returns (more: seq<Event>)
    requires HonestRun(events) && GivesUp(e, id)
    requires a in Run(events).receipts && Waits(PeerOf(Run(events), id).phase, a.put) && !a.put.freshKey
    requires a.generation == GenerationOf(TeamOf(Run(events), a.put.team).vault)
    ensures HonestOn(events + [e], more) && SomeoneHasIt(Run(events + [e] + more), a.put.team)
  {
    var w, t := Run(events), a.put.team;
    RunKeys(events);
    GaveUpReady(w, e, id, a);
    var start := events + [e];
    assert start[..|events|] == events;
    var w1 := Run(start);
    var mint := UnusedKey(w1);
    var look := Fetch(id, Snapshot(Some(t), false, TeamOf(w1, t).vault, None), None);
    more := [look, Proceed(id, 0, mint)];
    assert start + more[..0] == start;
    assert (start + [look])[..|start|] == start && start + more[..1] == start + [look];
    assert (start + more)[..|start| + 1] == start + [look];
    TickOpens(w1, id, t, mint);
    assert Run(start + [look]) == Do(w1, look) && Run(start + more) == Do(Do(w1, look), Proceed(id, 0, mint));
    assert Do(w1, look).sent == w1.sent;
    hide Do, HasIt;
    assert HasIt(Run(start + more), PeerOf(Run(start + more), id).machine, t);
  }

  // ---- The exact condition -----------------------------------------------------------

  /** The machine that sent the newest stored request gives up on the answer. Some run from there on in
      which a machine opens the newest generation exists just when the request did not bring a fresh
      key; otherwise the vault is stranded for good. */
  lemma OpenedAgainJustWhen(events: seq<Event>, id: MachineId, a: Receipt, e: Event)
    requires HonestRun(events) && Honest(Run(events), e) && GivesUp(e, id)
    requires a in Run(events).receipts && Waits(PeerOf(Run(events), id).phase, a.put)
    requires a.put.freshKey || a.generation == GenerationOf(TeamOf(Run(events), a.put.team).vault)
    ensures (exists more :: HonestOn(events + [e], more) && SomeoneHasIt(Run(events + [e] + more), a.put.team)) <==>
      !a.put.freshKey
    ensures a.put.freshKey ==> Stranded(Run(events + [e]), a.put.team, a.put)
  {
    assert (events + [e])[..|events|] == events;
    assert Run(events + [e]) == Do(Run(events), e);
    hide Do, Stranded, SomeoneHasIt, Honest, HonestRun;
    if a.put.freshKey {
      LostFreshKeyStrands(events, id, a, e);
      forall more | HonestOn(events + [e], more) ensures !SomeoneHasIt(Run(events + [e] + more), a.put.team) {
        StrandedForGood(events + [e], more, a.put.team, a.put);
      }
    } else {
      var more := KeptKeyOpens(events, id, a, e);
    }
  }

  // ---- It happens --------------------------------------------------------------------

  const TEAM: TeamId := 7
  const FIRST_EDIT := Patch(Some("a"), None, None)
  const FIRST_PUT := Put(TEAM, Envelope(9, Body("a", 5, map[])), 0, true, LocalKey(TEAM, 9, 1))
  const FIRST_LOOK := Snapshot(Some(TEAM), true, None, None)
  const EMPTY_KEPT := Keep(NEW_MACHINE, TEAM, EMPTY, 0).(status := Ready(TEAM, true))

  lemma FirstWriteSent()
    ensures Do(Do(START, Fetch(1, FIRST_LOOK, Some(Intent(FIRST_EDIT, 0)))), Proceed(1, 5, 9)) ==
      World(map[], map[1 := Peer(EMPTY_KEPT, Saving(FIRST_PUT))], {Sent(FIRST_PUT, Edited(FIRST_EDIT, 5))}, {}, {})
  {
    var w := Do(START, Fetch(1, FIRST_LOOK, Some(Intent(FIRST_EDIT, 0))));
    assert w.peers == map[1 := Peer(NEW_MACHINE, Answered(FIRST_LOOK, Some(Intent(FIRST_EDIT, 0))))];
    assert Utf8Length("a") == 1;
    assert Tick(NEW_MACHINE, FIRST_LOOK) == Ticked(EMPTY_KEPT, None, false);
    hide Tick;
    assert Write(EMPTY_KEPT, FIRST_LOOK, FIRST_EDIT, 0, 5, 9) == Ok((EMPTY_KEPT, FIRST_PUT));
    hide Write;
  }

  lemma HonestPush(events: seq<Event>, e: Event)
    requires HonestRun(events) && Honest(Run(events), e)
    ensures HonestRun(events + [e]) && Run(events + [e]) == Do(Run(events), e)
  {
    hide Do, Honest;
    assert (events + [e])[..|events|] == events;
  }

  lemma FirstWriteStored(w: World)
    requires w.teams == map[] && Sent(FIRST_PUT, Edited(FIRST_EDIT, 5)) in w.sent
    ensures var w' := Do(w, Arrive(Sent(FIRST_PUT, Edited(FIRST_EDIT, 5))));
      Receipt(FIRST_PUT, 1, 1) in w'.receipts && w'.peers == w.peers
  {}

  /** An admin's first write is under a fresh key: an honest run stores it and leaves its answer awaited. */
  lemma FirstWriteAwaited() returns (events: seq<Event>)
    ensures HonestRun(events) && Receipt(FIRST_PUT, 1, 1) in Run(events).receipts
    ensures Waits(PeerOf(Run(events), 1).phase, FIRST_PUT) && FIRST_PUT.freshKey
  {
    var e1, e2 := Fetch(1, FIRST_LOOK, Some(Intent(FIRST_EDIT, 0))), Proceed(1, 5, 9);
    var e3 := Arrive(Sent(FIRST_PUT, Edited(FIRST_EDIT, 5)));
    FirstWriteSent();
    var w1 := Do(START, e1);
    var w2 := Do(w1, e2);
    assert Honest(START, e1) && Honest(w1, e2) && Honest(w2, e3);
    FirstWriteStored(w2);
    hide Do, Honest, Tick, Write;
    HonestPush([], e1);
    assert [] + [e1] == [e1];
    HonestPush([e1], e2);
    HonestPush([e1] + [e2], e3);
    events := [e1] + [e2] + [e3];
  }
}
