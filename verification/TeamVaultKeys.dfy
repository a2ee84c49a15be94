/** Where the vault's keys are: generations and key generations of everything stored, sent and held,
    when new keys do not repeat and a sealed copy is of a key some machine has held. */
module TeamVaultKeys {
  import opened Wrappers
  import opened TeamVault
  import opened TeamVaultSafety

  // ---- What the environment keeps to ---------------------------------------------

  /** No request under a fresh key used this one. */
  predicate Unused(w: World, mint: Key) {
    forall s :: s in w.sent && s.put.freshKey ==> s.put.local.key != mint
  }

  /** A copy of the key in a snapshot is of one a machine has held, and new keys do not repeat. */
  predicate Honest(w: World, e: Event) {
    match e
    case Fetch(_, s, _) =>
      s.team.Some? && s.wrapped.Some? ==> LocalKey(s.team.value, s.wrapped.value.key, s.wrapped.value.keyGeneration) in w.held
    case Proceed(_, _, mint) => Unused(w, mint)
    case Reply(_, _, _, mint) => Unused(w, mint)
    case NoReply(_, _, mint) => Unused(w, mint)
    case _ => true
  }

  ghost predicate HonestRun(events: seq<Event>) {
    events != [] ==> HonestRun(events[..|events| - 1]) && Honest(Run(events[..|events| - 1]), events[|events| - 1])
  }

  // ---- The invariant ---------------------------------------------------------------

  /** The control plane stored this generation of the team under this key generation. */
  predicate WasStored(w: World, t: TeamId, generation: nat, keyGeneration: nat) {
    exists a :: a in w.receipts && a.put.team == t && a.generation == generation && a.keyGeneration == keyGeneration
  }

  predicate IsNewest(w: World, t: TeamId, a: Receipt) {
    var v := TeamOf(w, t).vault;
    a in w.receipts && a.put.team == t && v.Some? && a.generation == v.value.generation &&
    a.keyGeneration == v.value.keyGeneration && a.put.sealed == v.value.sealed
  }

  ghost predicate NewestOk(w: World, t: TeamId) {
    var v := TeamOf(w, t).vault;
    if v.None? then forall a :: a in w.receipts ==> a.put.team != t else exists a :: IsNewest(w, t, a)
  }

  /** Key generations follow the generations of a team, and a fresh key starts a new one. */
  predicate InOrder(a: Receipt, b: Receipt) {
    a.put.team == b.put.team ==>
      (a.generation == b.generation ==> a == b) &&
      (a.generation < b.generation ==>
        if b.put.freshKey then a.keyGeneration < b.keyGeneration else a.keyGeneration <= b.keyGeneration)
  }

  predicate ReceiptKeys(w: World, a: Receipt) {
    a.generation <= GenerationOf(TeamOf(w, a.put.team).vault) && a.put.local.team == a.put.team &&
    (!a.put.freshKey ==> a.keyGeneration == a.put.local.keyGeneration) &&
    exists s :: s in w.sent && s.put == a.put
  }

  predicate SentKeys(w: World, s: Sent) {
    s.put.local.team == s.put.team && s.put.expected <= GenerationOf(TeamOf(w, s.put.team).vault) &&
    s.put.sealed.key == s.put.local.key &&
    (!s.put.freshKey ==> WasStored(w, s.put.team, s.put.expected, s.put.local.keyGeneration))
  }

  predicate SnapshotKeys(w: World, s: Snapshot) {
    s.team.Some? ==>
      (s.vault.Some? ==> WasStored(w, s.team.value, s.vault.value.generation, s.vault.value.keyGeneration)) &&
      (s.wrapped.Some? ==> LocalKey(s.team.value, s.wrapped.value.key, s.wrapped.value.keyGeneration) in w.held)
  }

  predicate Waits(p: Phase, put: Put) {
    (p.Rotating? || p.Saving?) && p.put == put
  }

  predicate PeerKeys(w: World, p: Peer) {
    (p.machine.key.Some? ==> p.machine.key.value in w.held) &&
    (p.phase.Answered? || p.phase.Rotating? ==> SnapshotKeys(w, p.phase.snapshot)) &&
    (p.phase.Rotating? || p.phase.Saving? ==> exists s :: s in w.sent && s.put == p.phase.put) &&
    (p.phase.Saving? && !p.phase.put.freshKey ==> p.machine.key == Some(p.phase.put.local)) &&
    (p.phase.Saving? && p.machine.file.Some? ==> p.machine.file.value.team == p.phase.put.team) &&
    (p.phase.Rotating? ==> p.phase.put.freshKey)
  }

  /** A request under a fresh key is one machine's. */
  ghost predicate OneWaits(w: World) {
    forall i, j, put :: Waits(PeerOf(w, i).phase, put) && Waits(PeerOf(w, j).phase, put) && put.freshKey ==> i == j
  }

  ghost predicate KeysOk(w: World) {
    (forall t :: NewestOk(w, t)) &&
    (forall k :: k in w.held ==> k.keyGeneration <= KeyGenerationOf(TeamOf(w, k.team).vault)) &&
    (forall a, b :: a in w.receipts && b in w.receipts ==> InOrder(a, b)) &&
    (forall a :: a in w.receipts ==> ReceiptKeys(w, a)) &&
    (forall s :: s in w.sent ==> SentKeys(w, s)) &&
    (forall id :: PeerKeys(w, PeerOf(w, id))) &&
    OneWaits(w)
  }

  // ---- Frames ------------------------------------------------------------------------

  /** Everything known only grows, and the teams' key generations do not fall. */
  ghost predicate More(w: World, w': World) {
    w.sent <= w'.sent && w.receipts <= w'.receipts && w.held <= w'.held &&
    (forall t :: GenerationOf(TeamOf(w, t).vault) <= GenerationOf(TeamOf(w', t).vault)) &&
    (forall t :: KeyGenerationOf(TeamOf(w, t).vault) <= KeyGenerationOf(TeamOf(w', t).vault))
  }

  lemma StoredMore(w: World, w': World, t: TeamId, g: nat, k: nat)
    requires More(w, w') && WasStored(w, t, g, k)
    ensures WasStored(w', t, g, k)
  {}

  lemma PeerMore(w: World, w': World, p: Peer)
    requires More(w, w') && PeerKeys(w, p)
    ensures PeerKeys(w', p)
  {
    hide WasStored;
    if (p.phase.Answered? || p.phase.Rotating?) && p.phase.snapshot.team.Some? && p.phase.snapshot.vault.Some? {
      var v := p.phase.snapshot.vault.value;
      StoredMore(w, w', p.phase.snapshot.team.value, v.generation, v.keyGeneration);
    }
    if p.phase.Rotating? || p.phase.Saving? {
      var s :| s in w.sent && s.put == p.phase.put;
      assert s in w'.sent;
    }
  }

  lemma SentMore(w: World, w': World, s: Sent)
    requires More(w, w') && SentKeys(w, s)
    ensures SentKeys(w', s)
  {
    hide WasStored;
    assert GenerationOf(TeamOf(w, s.put.team).vault) <= GenerationOf(TeamOf(w', s.put.team).vault);
    if !s.put.freshKey {
      StoredMore(w, w', s.put.team, s.put.expected, s.put.local.keyGeneration);
    }
  }

  lemma ReceiptMore(w: World, w': World, a: Receipt)
    requires More(w, w') && ReceiptKeys(w, a)
    ensures ReceiptKeys(w', a)
  {
    assert GenerationOf(TeamOf(w, a.put.team).vault) <= GenerationOf(TeamOf(w', a.put.team).vault);
    var s :| s in w.sent && s.put == a.put;
    assert s in w'.sent;
  }

  /** One machine moved on, perhaps with a new request under a key nobody used. */
  lemma PeerMoves(w: World, w': World, id: MachineId, p: Peer, sent: set<Sent>)
    requires KeysOk(w) && w' == SetPeer(w, id, p).(sent := w.sent + sent)
    requires p.machine.key.Some? ==> p.machine.key.value.keyGeneration <= KeyGenerationOf(TeamOf(w, p.machine.key.value.team).vault)
    requires PeerKeys(w', p)
    requires forall s :: s in sent ==> SentKeys(w, s)
    requires forall j, put :: j != id && Waits(p.phase, put) && put.freshKey ==> !Waits(PeerOf(w, j).phase, put)
    ensures KeysOk(w')
  {
    hide PeerKeys, SentKeys, ReceiptKeys, InOrder;
    assert forall t :: TeamOf(w', t) == TeamOf(w, t);
    assert More(w, w');
    forall i ensures PeerOf(w', i) == if i == id then p else PeerOf(w, i) {}
    forall i ensures PeerKeys(w', PeerOf(w', i)) {
      if i != id { PeerMore(w, w', PeerOf(w, i)); }
    }
    forall s | s in w'.sent ensures SentKeys(w', s) {
      SentMore(w, w', s);
    }
    forall a | a in w'.receipts ensures ReceiptKeys(w', a) {
      ReceiptMore(w, w', a);
    }
    forall t ensures NewestOk(w', t) {
      assert NewestOk(w, t);
      if TeamOf(w, t).vault.Some? {
        var a :| IsNewest(w, t, a);
        assert IsNewest(w', t, a);
      }
    }
  }

  // ---- Steps -------------------------------------------------------------------------

  predicate KeyFits(w: World, k: Option<LocalKey>) {
    k.Some? ==> k.value.keyGeneration <= KeyGenerationOf(TeamOf(w, k.value.team).vault)
  }

  /** A key to use is the cached one, which is this team's and, where there is a vault, its generation's. */
  lemma UsableFits(w: World, m: Machine, s: Snapshot)
    requires KeysOk(w) && SnapshotKeys(w, s) && s.team.Some? && KeyFits(w, m.key)
    ensures var (m', key) := UsableKey(m, s);
      KeyFits(w, m'.key) && (m'.key == m.key || (m'.key.Some? && m'.key.value in w.held)) &&
      (key.Some? ==> m'.key == key && key.value.team == s.team.value) &&
      (key.Some? && s.vault.Some? ==> key.value.keyGeneration == s.vault.value.keyGeneration)
  {}

  lemma StoredBefore(w: World, s: Snapshot)
    requires KeysOk(w) && SnapshotKeys(w, s) && s.team.Some?
    ensures GenerationOf(s.vault) <= GenerationOf(TeamOf(w, s.team.value).vault)
  {
    if s.vault.Some? {
      var a :| a in w.receipts && a.put.team == s.team.value && a.generation == s.vault.value.generation;
      assert ReceiptKeys(w, a);
    }
  }

  lemma PutKeys(w: World, s: Snapshot, body: Body, key: Option<LocalKey>, mint: Key, change: Change)
    requires KeysOk(w) && SnapshotKeys(w, s) && s.team.Some?
    requires key.Some? ==>
      s.vault.Some? && key.value.team == s.team.value && key.value.keyGeneration == s.vault.value.keyGeneration
    ensures SentKeys(w, Sent(PutFor(s, body, key, mint), change))
  {
    StoredBefore(w, s);
  }

  lemma NewKeyAlone(w: World, put: Put)
    requires KeysOk(w) && (put.freshKey ==> Unused(w, put.local.key))
    ensures forall j :: put.freshKey ==> !Waits(PeerOf(w, j).phase, put)
  {
    if put.freshKey {
      forall j ensures !Waits(PeerOf(w, j).phase, put) {
        assert PeerKeys(w, PeerOf(w, j));
      }
    }
  }

  lemma GoOnKeys(w: World, id: MachineId, m: Machine, s: Snapshot, intent: Option<Intent>, now: int, mint: Key)
    requires KeysOk(w) && SnapshotKeys(w, s) && KeyFits(w, m.key) && Unused(w, mint)
    requires s.team.Some? ==> InTeam(m, s)
    ensures KeysOk(GoOn(w, id, m, s, intent, now, mint))
  {
    var w' := GoOn(w, id, m, s, intent, now, mint);
    if intent.Some? && Write(m, s, intent.value.patch, intent.value.base, now, mint).Ok? {
      var change := Edited(intent.value.patch, now);
      var (m', put) := Write(m, s, intent.value.patch, intent.value.base, now, mint).value;
      WriteKeys(w, m, s, intent.value, now, mint);
      NewKeyAlone(w, put);
      hide Write, KeysOk, SentKeys, KeyFits;
      assert Sent(put, change) in w'.sent;
      PeerMoves(w, w', id, Peer(m', Saving(put)), {Sent(put, change)});
    } else {
      hide KeysOk;
      PeerMoves(w, w', id, Peer(m, Idle), {});
    }
  }

  lemma WriteKeys(w: World, m: Machine, s: Snapshot, intent: Intent, now: int, mint: Key)
    requires KeysOk(w) && SnapshotKeys(w, s) && KeyFits(w, m.key)
    requires Write(m, s, intent.patch, intent.base, now, mint).Ok?
    ensures var (m', put) := Write(m, s, intent.patch, intent.base, now, mint).value;
      KeyFits(w, m'.key) && SentKeys(w, Sent(put, Edited(intent.patch, now))) &&
      s.team == Some(put.team) && m'.file == m.file &&
      (if put.freshKey then put.local.key == mint else m'.key == Some(put.local))
  {
    UsableFits(w, m, s);
    var (m', key) := UsableKey(m, s);
    var reuse := if key.None? || s.vault.None? || s.vault.value.needsRotation then None else key;
    hide KeysOk, SnapshotKeys, UsableKey, SentKeys, ApplyPatch;
    var body := ApplyPatch(if s.vault.Some? then m.body.value else EMPTY, intent.patch, now).value;
    PutKeys(w, s, body, reuse, mint, Edited(intent.patch, now));
  }

  lemma TickKeys(w: World, m: Machine, s: Snapshot)
    requires KeysOk(w) && SnapshotKeys(w, s) && KeyFits(w, m.key)
    ensures KeyFits(w, Tick(m, s).machine.key)
  {
    if s.team.Some? {
      UsableFits(w, m, s);
      UsableFits(w, Forget(m), s);
      hide KeysOk, SnapshotKeys, KeyFits, OpenEnvelope;
    }
  }

  lemma PeerFacts(w: World, id: MachineId)
    requires KeysOk(w)
    ensures PeerKeys(w, PeerOf(w, id)) && KeyFits(w, PeerOf(w, id).machine.key)
  {
    assert PeerKeys(w, PeerOf(w, id));
  }

  lemma PhaseIs(w: World, id: MachineId)
    requires Inv(w)
    ensures MachineOk(w, PeerOf(w, id).machine) && PhaseOk(w, PeerOf(w, id))
  {}

  lemma FetchKeys(w: World, id: MachineId, s: Snapshot, intent: Option<Intent>)
    requires KeysOk(w) && Inv(w) && Honest(w, Fetch(id, s, intent))
    ensures KeysOk(Do(w, Fetch(id, s, intent)))
  {
    var p, w' := PeerOf(w, id), Do(w, Fetch(id, s, intent));
    if p.phase.Idle? && Shows(w, s) && BasedOnKept(p.machine, intent) {
      PeerFacts(w, id);
      if s.team.Some? && s.vault.Some? {
        assert NewestOk(w, s.team.value);
      }
      assert SnapshotKeys(w', s);
      hide KeysOk, Inv;
      PeerMoves(w, w', id, Peer(p.machine, Answered(s, intent)), {});
    }
  }

  lemma ProceedKeys(w: World, id: MachineId, now: int, mint: Key)
    requires KeysOk(w) && Inv(w) && Unused(w, mint)
    ensures KeysOk(Do(w, Proceed(id, now, mint)))
  {
    var p, w' := PeerOf(w, id), Do(w, Proceed(id, now, mint));
    if p.phase.Answered? {
      var s := p.phase.snapshot;
      PeerFacts(w, id);
      TickKeys(w, p.machine, s);
      TeamsOf(w);
      PhaseIs(w, id);
      TickOk(w, p.machine, s);
      var t := Tick(p.machine, s);
      if t.rotate {
        assert s.team.Some?;
        var put := PutFor(s, t.body.value, None, mint);
        PutKeys(w, s, t.body.value, None, mint, Rotated);
        NewKeyAlone(w, put);
        assert Sent(put, Rotated) in w'.sent;
        hide KeysOk, Inv, Tick, SentKeys;
        PeerMoves(w, w', id, Peer(t.machine, Rotating(s, p.phase.intent, put)), {Sent(put, Rotated)});
      } else {
        hide KeysOk, Inv, Tick, GoOn;
        GoOnKeys(w, id, t.machine, s, p.phase.intent, now, mint);
      }
    }
  }

  /** The key of an answer is of a key generation the team has reached. */
  lemma AnswerFits(w: World, a: Receipt)
    requires KeysOk(w) && a in w.receipts
    ensures a.keyGeneration <= KeyGenerationOf(TeamOf(w, a.put.team).vault) && a.put.local.team == a.put.team
  {
    assert ReceiptKeys(w, a) && NewestOk(w, a.put.team);
    var b :| IsNewest(w, a.put.team, b);
    assert InOrder(a, b);
  }

  lemma ReplyKeys(w: World, id: MachineId, a: Receipt, now: int, mint: Key)
    requires KeysOk(w) && Inv(w) && Unused(w, mint)
    ensures KeysOk(Do(w, Reply(id, a, now, mint)))
  {
    var p, w' := PeerOf(w, id), Do(w, Reply(id, a, now, mint));
    PhaseIs(w, id);
    if a in w.receipts && (p.phase.Rotating? || p.phase.Saving?) && p.phase.put == a.put {
      PeerFacts(w, id);
      AnswerFits(w, a);
      var m := Pushed(p.machine, a.put, a.generation, a.keyGeneration);
      assert KeyFits(w, m.key);
      assert p.phase.Rotating? ==> InTeam(m, p.phase.snapshot);
      hide KeysOk, Inv, Pushed, GoOn;
      if p.phase.Saving? {
        PeerMoves(w, w', id, Peer(m, Idle), {});
      } else {
        GoOnKeys(w, id, m, p.phase.snapshot, p.phase.intent, now, mint);
      }
    }
  }

  lemma NoReplyKeys(w: World, id: MachineId, now: int, mint: Key)
    requires KeysOk(w) && Inv(w) && Unused(w, mint)
    ensures KeysOk(Do(w, NoReply(id, now, mint)))
  {
    var p, w' := PeerOf(w, id), Do(w, NoReply(id, now, mint));
    PhaseIs(w, id);
    PeerFacts(w, id);
    hide KeysOk, Inv, GoOn;
    if p.phase.Saving? {
      PeerMoves(w, w', id, Peer(p.machine, Idle), {});
    } else if p.phase.Rotating? {
      GoOnKeys(w, id, p.machine, p.phase.snapshot, p.phase.intent, now, mint);
    }
  }

  lemma RestartKeys(w: World, id: MachineId)
    requires KeysOk(w)
    ensures KeysOk(Do(w, Restart(id)))
  {
    var p := PeerOf(w, id);
    PeerFacts(w, id);
    hide KeysOk;
    PeerMoves(w, Do(w, Restart(id)), id, Peer(p.machine.(status := NoTeam, body := None), Idle), {});
  }

  /** Only a team changed, and perhaps one more answer was given for it. */
  lemma TeamMoves(w: World, w': World, given: set<Receipt>)
    requires KeysOk(w) && More(w, w') && w'.peers == w.peers && w'.sent == w.sent && w'.held == w.held
    requires w'.receipts == w.receipts + given
    requires forall t :: NewestOk(w', t)
    requires forall a :: a in given ==> ReceiptKeys(w', a)
    requires forall a, b :: a in given && b in w'.receipts ==> InOrder(a, b) && InOrder(b, a)
    ensures KeysOk(w')
  {
    hide PeerKeys, SentKeys, ReceiptKeys, InOrder, NewestOk;
    assert forall i :: PeerOf(w', i) == PeerOf(w, i);
    forall i ensures PeerKeys(w', PeerOf(w', i)) {
      PeerMore(w, w', PeerOf(w, i));
    }
    forall s | s in w'.sent ensures SentKeys(w', s) {
      SentMore(w, w', s);
    }
    forall a | a in w'.receipts ensures ReceiptKeys(w', a) {
      if a in w.receipts { ReceiptMore(w, w', a); }
    }
    forall k | k in w'.held ensures k.keyGeneration <= KeyGenerationOf(TeamOf(w', k.team).vault) {
      assert KeyGenerationOf(TeamOf(w, k.team).vault) <= KeyGenerationOf(TeamOf(w', k.team).vault);
    }
  }

  lemma NewestElsewhere(w: World, w': World, t: TeamId)
    requires NewestOk(w, t) && w.receipts <= w'.receipts && TeamOf(w', t).vault == TeamOf(w, t).vault
    requires forall a :: a in w'.receipts && a !in w.receipts ==> a.put.team != t
    ensures NewestOk(w', t)
  {
    if TeamOf(w, t).vault.Some? {
      var a :| IsNewest(w, t, a);
      assert IsNewest(w', t, a);
    }
  }

  /** The answer to a request that was just stored is the latest of its team in both countings. */
  lemma LatestAnswer(w: World, sent: Sent, b: Receipt)
    requires KeysOk(w) && sent in w.sent && b in w.receipts
    requires Accept(TeamOf(w, sent.put.team).vault, sent.put).Some?
    ensures var v := Accept(TeamOf(w, sent.put.team).vault, sent.put).value;
      var a := Receipt(sent.put, v.generation, v.keyGeneration);
      InOrder(b, a) && InOrder(a, b) && InOrder(a, a)
  {
    assert ReceiptKeys(w, b) && NewestOk(w, b.put.team);
    AnswerFits(w, b);
  }

  /** A request under the key the machine had names the generation that has this key. */
  lemma SameKeyGeneration(w: World, sent: Sent)
    requires KeysOk(w) && sent in w.sent && !sent.put.freshKey
    requires Accept(TeamOf(w, sent.put.team).vault, sent.put).Some?
    ensures Accept(TeamOf(w, sent.put.team).vault, sent.put).value.keyGeneration == sent.put.local.keyGeneration
  {
    var t, put := sent.put.team, sent.put;
    assert SentKeys(w, sent) && NewestOk(w, t);
    var b :| b in w.receipts && b.put.team == t && b.generation == put.expected && b.keyGeneration == put.local.keyGeneration;
    var n :| IsNewest(w, t, n);
    assert InOrder(b, n);
  }

  lemma ArriveKeys(w: World, sent: Sent)
    requires KeysOk(w)
    ensures KeysOk(Do(w, Arrive(sent)))
  {
    var t, w' := TeamOf(w, sent.put.team), Do(w, Arrive(sent));
    if sent in w.sent && Accept(t.vault, sent.put).Some? {
      var v := Accept(t.vault, sent.put).value;
      var a := Receipt(sent.put, v.generation, v.keyGeneration);
      assert SentKeys(w, sent);
      forall i ensures NewestOk(w', i) {
        assert NewestOk(w, i);
        if i == sent.put.team {
          assert IsNewest(w', i, a);
        } else {
          NewestElsewhere(w, w', i);
        }
      }
      forall b | b in w'.receipts ensures InOrder(a, b) && InOrder(b, a) {
        if b in w.receipts {
          LatestAnswer(w, sent, b);
        }
      }
      if !sent.put.freshKey { SameKeyGeneration(w, sent); }
      assert ReceiptKeys(w', a);
      hide KeysOk, NewestOk, InOrder, ReceiptKeys, SentKeys;
      assert forall i :: TeamOf(w', i).vault == if i == sent.put.team then Some(v) else TeamOf(w, i).vault;
      TeamMoves(w, w', {a});
    }
  }

  lemma MemberLeftKeys(w: World, team: TeamId)
    requires KeysOk(w)
    ensures KeysOk(Do(w, MemberLeft(team)))
  {
    var w' := Do(w, MemberLeft(team));
    if TeamOf(w, team).vault.Some? {
      forall i ensures NewestOk(w', i) {
        assert NewestOk(w, i);
        if i == team {
          var a :| IsNewest(w, i, a);
          assert IsNewest(w', i, a);
        } else {
          NewestElsewhere(w, w', i);
        }
      }
      hide KeysOk, NewestOk, InOrder, ReceiptKeys;
      assert forall i :: i != team ==> TeamOf(w', i) == TeamOf(w, i);
      TeamMoves(w, w', {});
    }
  }

  lemma DoKeys(w: World, e: Event)
    requires KeysOk(w) && Inv(w) && Honest(w, e)
    ensures KeysOk(Do(w, e))
  {
    hide KeysOk, Inv, Do, Unused;
    match e
    case Fetch(id, s, intent) => FetchKeys(w, id, s, intent);
    case Proceed(id, now, mint) => ProceedKeys(w, id, now, mint);
    case Reply(id, a, now, mint) => ReplyKeys(w, id, a, now, mint);
    case NoReply(id, now, mint) => NoReplyKeys(w, id, now, mint);
    case Restart(id) => RestartKeys(w, id);
    case Arrive(sent) => ArriveKeys(w, sent);
    case MemberLeft(team) => MemberLeftKeys(w, team);
  }

  /** In every honest run, the control plane's countings and the machines' keys stay in step. */
  lemma {:induction false} RunKeys(events: seq<Event>)
    requires HonestRun(events)
    ensures KeysOk(Run(events))
  {
    hide Do, Honest;
    if events != [] {
      RunKeys(events[..|events| - 1]);
      RunOk(events[..|events| - 1]);
      hide KeysOk, Inv;
      DoKeys(Run(events[..|events| - 1]), events[|events| - 1]);
    }
  }
}
