/** Any number of machines, teams and a control plane: every vault's body is the accepted patches
    applied in generation order, and no machine replaces a body it has not read. Requests and
    answers may be late, lost or repeated, and machines may restart at any await. */
module TeamVaultSafety {
  import opened Wrappers
  import opened TeamVault

  type MachineId = nat

  datatype Change = Rotated | Edited(patch: Patch, now: int)

  /** bodies and log are history: the body of every generation, and the change that made each next one. */
  datatype Team = Team(vault: Option<Vault>, bodies: seq<Body>, log: seq<Change>)

  /** A write some user asked for, with the generation their editor loaded. */
  datatype Intent = Intent(patch: Patch, base: nat)

  /** Where a machine waits: for nothing, for its turn with a snapshot the control plane answered, for
      a rotation's answer, or for a write's answer. */
  datatype Phase =
    | Idle
    | Answered(snapshot: Snapshot, intent: Option<Intent>)
    | Rotating(snapshot: Snapshot, intent: Option<Intent>, put: Put)
    | Saving(put: Put)

  datatype Peer = Peer(machine: Machine, phase: Phase)
  datatype Sent = Sent(put: Put, change: Change)
  datatype Receipt = Receipt(put: Put, generation: nat, keyGeneration: nat)

  /** sent: every request ever made. receipts: every answer the control plane ever gave. held: every
      key a machine ever had in its key file. */
  datatype World = World(teams: map<TeamId, Team>, peers: map<MachineId, Peer>, sent: set<Sent>, receipts: set<Receipt>,
    held: set<LocalKey>)

  datatype Event =
    | Fetch(id: MachineId, snapshot: Snapshot, intent: Option<Intent>)
    | Proceed(id: MachineId, now: int, mint: Key)
    | Reply(id: MachineId, receipt: Receipt, now: int, mint: Key)
    | NoReply(id: MachineId, now: int, mint: Key)
    | Restart(id: MachineId)
    | Arrive(sent: Sent)
    | MemberLeft(team: TeamId)

  const START := World(map[], map[], {}, {}, {})

  function TeamOf(w: World, t: TeamId): Team {
    if t in w.teams then w.teams[t] else Team(None, [EMPTY], [])
  }

  function PeerOf(w: World, id: MachineId): Peer {
    if id in w.peers then w.peers[id] else Peer(NEW_MACHINE, Idle)
  }

  function SetPeer(w: World, id: MachineId, p: Peer): World {
    w.(peers := w.peers[id := p], held := w.held + if p.machine.key.Some? then {p.machine.key.value} else {})
  }

  /** A snapshot shows the team's vault as it is; the machine's role and sealed copy may be anything. */
  predicate Shows(w: World, s: Snapshot) {
    s.team.Some? ==> s.vault == TeamOf(w, s.team.value).vault
  }

  /** The editor loaded a generation this machine kept: the last one or an earlier one. */
  predicate BasedOnKept(m: Machine, intent: Option<Intent>) {
    intent.Some? && m.file.Some? ==> intent.value.base <= m.file.value.generation
  }

  /** The part of a write after its sync. */
  function GoOn(w: World, id: MachineId, m: Machine, s: Snapshot, intent: Option<Intent>, now: int, mint: Key): World {
    if intent.None? then SetPeer(w, id, Peer(m, Idle))
    else
      var r := Write(m, s, intent.value.patch, intent.value.base, now, mint);
      if r.Refused? then SetPeer(w, id, Peer(m, Idle))
      else
        SetPeer(w, id, Peer(r.value.0, Saving(r.value.1))).(
          sent := w.sent + {Sent(r.value.1, Edited(intent.value.patch, now))})
  }

  function Do(w: World, e: Event): World {
    match e
    case Fetch(id, s, intent) =>
      var p := PeerOf(w, id);
      if !p.phase.Idle? || !Shows(w, s) || !BasedOnKept(p.machine, intent) then w
      else SetPeer(w, id, Peer(p.machine, Answered(s, intent)))
    case Proceed(id, now, mint) =>
      var p := PeerOf(w, id);
      if !p.phase.Answered? then w
      else
        var s := p.phase.snapshot;
        var t := Tick(p.machine, s);
        if t.rotate then
          var put := PutFor(s, t.body.value, None, mint);
          SetPeer(w, id, Peer(t.machine, Rotating(s, p.phase.intent, put))).(sent := w.sent + {Sent(put, Rotated)})
        else GoOn(w, id, t.machine, s, p.phase.intent, now, mint)
    case Reply(id, receipt, now, mint) =>
      var p := PeerOf(w, id);
      if receipt !in w.receipts || !(p.phase.Rotating? || p.phase.Saving?) || p.phase.put != receipt.put then w
      else
        var m := Pushed(p.machine, receipt.put, receipt.generation, receipt.keyGeneration);
        if p.phase.Saving? then SetPeer(w, id, Peer(m, Idle))
        else GoOn(w, id, m, p.phase.snapshot, p.phase.intent, now, mint)
    case NoReply(id, now, mint) =>
      var p := PeerOf(w, id);
      if p.phase.Saving? then SetPeer(w, id, Peer(p.machine, Idle))
      else if p.phase.Rotating? then GoOn(w, id, p.machine, p.phase.snapshot, p.phase.intent, now, mint)
      else w
    case Restart(id) =>
      SetPeer(w, id, Peer(PeerOf(w, id).machine.(status := NoTeam, body := None), Idle))
    case Arrive(sent) =>
      var t := TeamOf(w, sent.put.team);
      var v := Accept(t.vault, sent.put);
      if sent !in w.sent || v.None? then w
      else
        w.(teams := w.teams[sent.put.team := Team(v, t.bodies + [sent.put.sealed.body], t.log + [sent.change])],
           receipts := w.receipts + {Receipt(sent.put, v.value.generation, v.value.keyGeneration)})
    case MemberLeft(team) =>
      var t := TeamOf(w, team);
      if t.vault.None? then w else w.(teams := w.teams[team := t.(vault := Some(t.vault.value.(needsRotation := true)))])
  }

  function Run(events: seq<Event>): World {
    if events == [] then START else Do(Run(events[..|events| - 1]), events[|events| - 1])
  }

  // ---- What every run keeps --------------------------------------------------

  /** after is before with the change made: the patch applied, or nothing for a rotation. */
  predicate Follows(before: Body, change: Change, after: Body) {
    match change
    case Rotated => after == before
    case Edited(patch, now) => ApplyPatch(before, patch, now) == Ok(after)
  }

  ghost predicate TeamOk(t: Team) {
    |t.bodies| == |t.log| + 1 && t.bodies[0] == EMPTY && GenerationOf(t.vault) == |t.log| &&
    (t.vault.Some? <==> t.log != []) &&
    (t.vault.Some? ==> t.vault.value.sealed.body == t.bodies[|t.log|]) &&
    (forall g :: 0 <= g < |t.log| ==> Follows(t.bodies[g], t.log[g], t.bodies[g + 1])) &&
    (forall g :: 0 <= g < |t.bodies| ==> Clean(t.bodies[g]))
  }

  predicate Holds(t: Team, generation: nat, body: Body) {
    generation < |t.bodies| && t.bodies[generation] == body
  }

  /** What a machine holds in memory is the body of the generation its file names. */
  predicate MachineOk(w: World, m: Machine) {
    (m.file.Some? ==> m.file.value.generation < |TeamOf(w, m.file.value.team).bodies|) &&
    (m.body.Some? ==> m.file.Some? && Holds(TeamOf(w, m.file.value.team), m.file.value.generation, m.body.value))
  }

  predicate SnapshotOk(w: World, s: Snapshot) {
    s.team.Some? && s.vault.Some? ==>
      s.vault.value.generation > 0 && Holds(TeamOf(w, s.team.value), s.vault.value.generation, s.vault.value.sealed.body)
  }

  predicate InTeam(m: Machine, s: Snapshot) {
    m.file.Some? ==> s.team == Some(m.file.value.team)
  }

  predicate PhaseOk(w: World, p: Peer) {
    match p.phase
    case Answered(s, intent) => SnapshotOk(w, s) && BasedOnKept(p.machine, intent)
    case Rotating(s, intent, put) => SnapshotOk(w, s) && s.team.Some? && s.vault.Some? && InTeam(p.machine, s) &&
      put.team == s.team.value && put.expected == s.vault.value.generation &&
      p.machine.file.Some? && p.machine.file.value.generation == put.expected
    case _ => true
  }

  /** A request that names the current generation carries the current body changed as it says. */
  predicate PutOk(w: World, sent: Sent) {
    var t := TeamOf(w, sent.put.team);
    sent.put.expected < |t.bodies| &&
    (sent.put.expected == |t.bodies| - 1 ==>
      Clean(sent.put.sealed.body) && Follows(t.bodies[sent.put.expected], sent.change, sent.put.sealed.body))
  }

  predicate ReceiptOk(w: World, a: Receipt) {
    a.generation == a.put.expected + 1 && Holds(TeamOf(w, a.put.team), a.generation, a.put.sealed.body)
  }

  ghost predicate Inv(w: World) {
    (forall t :: TeamOk(TeamOf(w, t))) &&
    (forall id :: MachineOk(w, PeerOf(w, id).machine) && PhaseOk(w, PeerOf(w, id))) &&
    (forall s :: s in w.sent ==> PutOk(w, s)) &&
    (forall a :: a in w.receipts ==> ReceiptOk(w, a))
  }

  lemma CleanOpens(key: Key, e: Envelope)
    requires Clean(e.body) && OpenEnvelope(key, e).Some?
    ensures OpenEnvelope(key, e).value == e.body
  {
    EnvelopeRoundTrip(e.key, key, e.body);
    assert SealEnvelope(e.key, e.body) == e;
  }

  /** A tick leaves the machine with the body of the generation it kept, and in the snapshot's team. */
  lemma TickOk(w: World, m: Machine, s: Snapshot)
    requires (forall t :: TeamOk(TeamOf(w, t))) && MachineOk(w, m) && SnapshotOk(w, s)
    ensures var t := Tick(m, s);
      MachineOk(w, t.machine) && (s.team.Some? ==> InTeam(t.machine, s)) &&
      (t.rotate ==> (
        s.team.Some? && s.vault.Some? && t.body == Some(s.vault.value.sealed.body) &&
        t.machine.file == Some(FileFor(s.team.value, t.body.value, s.vault.value.generation))))
  {
    hide Clean, Follows, Stored;
    if s.team.Some? && s.vault.Some? {
      var team := TeamOf(w, s.team.value);
      assert TeamOk(team);
      assert Clean(team.bodies[s.vault.value.generation]);
      var m1 := if m.file.Some? && m.file.value.team != s.team.value then Forget(m) else m;
      var (m2, key) := UsableKey(m1, s);
      if key.Some? && OpenEnvelope(key.value.key, s.vault.value.sealed).Some? {
        CleanOpens(key.value.key, s.vault.value.sealed);
      }
    } else if s.team.Some? {
      assert TeamOk(TeamOf(w, s.team.value));
    }
  }

  /** The write's condition: the generation it names is one this machine has kept. */
  predicate MayWrite(m: Machine, s: Snapshot, intent: Option<Intent>) {
    intent.Some? && m.file.Some? && GenerationOf(s.vault) == intent.value.base ==>
      intent.value.base <= m.file.value.generation
  }

  lemma TickBased(m: Machine, s: Snapshot, intent: Option<Intent>)
    requires BasedOnKept(m, intent)
    ensures MayWrite(Tick(m, s).machine, s, intent)
  {}

  /** The request a write sends carries the current body changed, or can no longer be accepted. */
  lemma WriteOk(w: World, m: Machine, s: Snapshot, intent: Intent, now: int, mint: Key)
    requires (forall t :: TeamOk(TeamOf(w, t))) && MachineOk(w, m) && SnapshotOk(w, s)
    requires s.team.Some? ==> InTeam(m, s)
    requires MayWrite(m, s, Some(intent))
    requires Write(m, s, intent.patch, intent.base, now, mint).Ok?
    ensures var r := Write(m, s, intent.patch, intent.base, now, mint).value;
      MachineOk(w, r.0) && PutOk(w, Sent(r.1, Edited(intent.patch, now)))
  {
    hide Clean, ApplyPatch;
    var team := TeamOf(w, s.team.value);
    assert TeamOk(team);
    var base := if s.vault.Some? then m.body.value else EMPTY;
    var next := ApplyPatch(base, intent.patch, now).value;
    assert |team.bodies| - 1 == intent.base ==> team.bodies[intent.base] == base;
    assert Clean(team.bodies[|team.bodies| - 1]);
    if |team.bodies| - 1 == intent.base {
      PatchesKeepClean(base, intent.patch, now);
    }
  }

  /** Bodies are only ever added. */
  ghost predicate Grown(w: World, w': World) {
    forall t :: TeamOf(w, t).bodies <= TeamOf(w', t).bodies
  }

  lemma PeerFrame(w: World, w': World, p: Peer)
    requires Grown(w, w') && MachineOk(w, p.machine) && PhaseOk(w, p)
    ensures MachineOk(w', p.machine) && PhaseOk(w', p)
  {
    if p.machine.file.Some? {
      assert TeamOf(w, p.machine.file.value.team).bodies <= TeamOf(w', p.machine.file.value.team).bodies;
    }
    if (p.phase.Answered? || p.phase.Rotating?) && p.phase.snapshot.team.Some? {
      var t := p.phase.snapshot.team.value;
      assert TeamOf(w, t).bodies <= TeamOf(w', t).bodies;
    }
  }

  lemma SentFrame(w: World, w': World, s: Sent)
    requires Grown(w, w') && PutOk(w, s)
    ensures PutOk(w', s)
  {
    hide Clean, Follows;
    var before, after := TeamOf(w, s.put.team).bodies, TeamOf(w', s.put.team).bodies;
    assert before <= after;
    assert |before| == |after| ==> before == after;
  }

  lemma ReceiptFrame(w: World, w': World, a: Receipt)
    requires Grown(w, w') && ReceiptOk(w, a)
    ensures ReceiptOk(w', a)
  {
    assert TeamOf(w, a.put.team).bodies <= TeamOf(w', a.put.team).bodies;
  }

  /** Only one peer changed, and perhaps one request was sent. */
  lemma PeerChanged(w: World, w': World, id: MachineId, p: Peer, sent: set<Sent>)
    requires Inv(w) && w' == SetPeer(w, id, p).(sent := w.sent + sent)
    requires MachineOk(w, p.machine) && PhaseOk(w, p)
    requires forall s :: s in sent ==> PutOk(w, s)
    ensures Inv(w')
  {
    hide MachineOk, PhaseOk, PutOk, ReceiptOk, TeamOk;
    assert forall t :: TeamOf(w', t) == TeamOf(w, t);
    forall i ensures MachineOk(w', PeerOf(w', i).machine) && PhaseOk(w', PeerOf(w', i)) {
      assert PeerOf(w', i) == if i == id then p else PeerOf(w, i);
      PeerFrame(w, w', PeerOf(w', i));
    }
    forall s | s in w'.sent ensures PutOk(w', s) {
      SentFrame(w, w', s);
    }
    forall a | a in w'.receipts ensures ReceiptOk(w', a) {
      ReceiptFrame(w, w', a);
    }
  }

  lemma GoOnOk(w: World, id: MachineId, m: Machine, s: Snapshot, intent: Option<Intent>, now: int, mint: Key)
    requires Inv(w) && MachineOk(w, m) && SnapshotOk(w, s)
    requires s.team.Some? ==> InTeam(m, s)
    requires MayWrite(m, s, intent)
    ensures Inv(GoOn(w, id, m, s, intent, now, mint))
  {
    hide MachineOk, SnapshotOk, PutOk, Inv;
    var w' := GoOn(w, id, m, s, intent, now, mint);
    if intent.Some? && Write(m, s, intent.value.patch, intent.value.base, now, mint).Ok? {
      var r := Write(m, s, intent.value.patch, intent.value.base, now, mint).value;
      TeamsOf(w);
      WriteOk(w, m, s, intent.value, now, mint);
      PeerChanged(w, w', id, Peer(r.0, Saving(r.1)), {Sent(r.1, Edited(intent.value.patch, now))});
    } else {
      PeerChanged(w, w', id, Peer(m, Idle), {});
    }
  }

  lemma TeamsOf(w: World)
    requires Inv(w)
    ensures forall t :: TeamOk(TeamOf(w, t))
  {}

  lemma FetchOk(w: World, id: MachineId, s: Snapshot, intent: Option<Intent>)
    requires Inv(w)
    ensures Inv(Do(w, Fetch(id, s, intent)))
  {
    var p := PeerOf(w, id);
    if p.phase.Idle? && Shows(w, s) && BasedOnKept(p.machine, intent) {
      if s.team.Some? {
        assert TeamOk(TeamOf(w, s.team.value));
      }
      hide Inv, TeamOk;
      PeerChanged(w, Do(w, Fetch(id, s, intent)), id, Peer(p.machine, Answered(s, intent)), {});
    }
  }

  lemma ProceedOk(w: World, id: MachineId, now: int, mint: Key)
    requires Inv(w)
    ensures Inv(Do(w, Proceed(id, now, mint)))
  {
    var p := PeerOf(w, id);
    if p.phase.Answered? {
      var s := p.phase.snapshot;
      var t := Tick(p.machine, s);
      TickOk(w, p.machine, s);
      if t.rotate {
        var put := PutFor(s, t.body.value, None, mint);
        RotationOk(w, s, put);
        hide Inv, Tick;
        PeerChanged(w, Do(w, Proceed(id, now, mint)), id, Peer(t.machine, Rotating(s, p.phase.intent, put)),
                    {Sent(put, Rotated)});
      } else {
        TickBased(p.machine, s, p.phase.intent);
        hide Inv, Tick;
        GoOnOk(w, id, t.machine, s, p.phase.intent, now, mint);
      }
    }
  }

  lemma RotationOk(w: World, s: Snapshot, put: Put)
    requires Inv(w) && SnapshotOk(w, s) && s.team.Some? && s.vault.Some?
    requires put.team == s.team.value && put.expected == s.vault.value.generation
    requires put.sealed.body == s.vault.value.sealed.body
    ensures PutOk(w, Sent(put, Rotated))
  {
    var t := TeamOf(w, s.team.value);
    assert TeamOk(t);
    assert Clean(t.bodies[s.vault.value.generation]);
  }

  lemma ReplyOk(w: World, id: MachineId, receipt: Receipt, now: int, mint: Key)
    requires Inv(w)
    ensures Inv(Do(w, Reply(id, receipt, now, mint)))
  {
    hide Stored, Write;
    var p := PeerOf(w, id);
    if receipt in w.receipts && (p.phase.Rotating? || p.phase.Saving?) && p.phase.put == receipt.put {
      assert ReceiptOk(w, receipt);
      var m := Pushed(p.machine, receipt.put, receipt.generation, receipt.keyGeneration);
      assert MachineOk(w, m);
      if p.phase.Saving? {
        hide Inv;
        PeerChanged(w, Do(w, Reply(id, receipt, now, mint)), id, Peer(m, Idle), {});
      } else {
        assert PhaseOk(w, p);
        hide Inv;
        GoOnOk(w, id, m, p.phase.snapshot, p.phase.intent, now, mint);
      }
    }
  }

  lemma NoReplyOk(w: World, id: MachineId, now: int, mint: Key)
    requires Inv(w)
    ensures Inv(Do(w, NoReply(id, now, mint)))
  {
    hide Write;
    var p := PeerOf(w, id);
    assert MachineOk(w, p.machine) && PhaseOk(w, p);
    hide Inv;
    if p.phase.Saving? {
      PeerChanged(w, Do(w, NoReply(id, now, mint)), id, Peer(p.machine, Idle), {});
    } else if p.phase.Rotating? {
      GoOnOk(w, id, p.machine, p.phase.snapshot, p.phase.intent, now, mint);
    }
  }

  lemma RestartOk(w: World, id: MachineId)
    requires Inv(w)
    ensures Inv(Do(w, Restart(id)))
  {
    var p := PeerOf(w, id);
    assert MachineOk(w, p.machine);
    hide Inv;
    PeerChanged(w, Do(w, Restart(id)), id, Peer(p.machine.(status := NoTeam, body := None), Idle), {});
  }

  lemma TeamChanged(w: World, w': World, team: TeamId, t: Team)
    requires Inv(w) && w'.teams == w.teams[team := t] && w'.peers == w.peers && w'.sent == w.sent
    requires TeamOk(t) && TeamOf(w, team).bodies <= t.bodies
    requires forall a :: a in w'.receipts ==> a in w.receipts || ReceiptOk(w', a)
    ensures Inv(w')
  {
    hide MachineOk, PhaseOk, PutOk, ReceiptOk, TeamOk;
    forall i ensures TeamOk(TeamOf(w', i)) && TeamOf(w, i).bodies <= TeamOf(w', i).bodies {
      assert TeamOf(w', i) == if i == team then t else TeamOf(w, i);
    }
    forall i ensures MachineOk(w', PeerOf(w', i).machine) && PhaseOk(w', PeerOf(w', i)) {
      PeerFrame(w, w', PeerOf(w, i));
    }
    forall s | s in w'.sent ensures PutOk(w', s) {
      SentFrame(w, w', s);
    }
    forall a | a in w'.receipts ensures ReceiptOk(w', a) {
      if a in w.receipts {
        ReceiptFrame(w, w', a);
      }
    }
  }

  /** An accepted request is one more body that follows from the last one. */
  lemma AcceptedOk(w: World, sent: Sent)
    requires TeamOk(TeamOf(w, sent.put.team)) && PutOk(w, sent)
    requires Accept(TeamOf(w, sent.put.team).vault, sent.put).Some?
    ensures var t := TeamOf(w, sent.put.team);
      TeamOk(Team(Accept(t.vault, sent.put), t.bodies + [sent.put.sealed.body], t.log + [sent.change]))
  {
    hide Clean, Follows;
  }

  lemma ArriveOk(w: World, sent: Sent)
    requires Inv(w)
    ensures Inv(Do(w, Arrive(sent)))
  {
    var t := TeamOf(w, sent.put.team);
    var v := Accept(t.vault, sent.put);
    if sent in w.sent && v.Some? {
      AcceptedOk(w, sent);
      assert TeamOk(t);
      hide Inv, TeamOk, PutOk;
      TeamChanged(w, Do(w, Arrive(sent)), sent.put.team,
                  Team(v, t.bodies + [sent.put.sealed.body], t.log + [sent.change]));
    }
  }

  lemma MemberLeftOk(w: World, team: TeamId)
    requires Inv(w)
    ensures Inv(Do(w, MemberLeft(team)))
  {
    var t := TeamOf(w, team);
    if t.vault.Some? {
      assert TeamOk(t);
      var t' := t.(vault := Some(t.vault.value.(needsRotation := true)));
      assert TeamOk(t');
      hide Inv, TeamOk;
      TeamChanged(w, Do(w, MemberLeft(team)), team, t');
    }
  }

  lemma DoOk(w: World, e: Event)
    requires Inv(w)
    ensures Inv(Do(w, e))
  {
    hide Inv, Do;
    match e
    case Fetch(id, s, intent) => FetchOk(w, id, s, intent);
    case Proceed(id, now, mint) => ProceedOk(w, id, now, mint);
    case Reply(id, receipt, now, mint) => ReplyOk(w, id, receipt, now, mint);
    case NoReply(id, now, mint) => NoReplyOk(w, id, now, mint);
    case Restart(id) => RestartOk(w, id);
    case Arrive(sent) => ArriveOk(w, sent);
    case MemberLeft(team) => MemberLeftOk(w, team);
  }

  lemma {:induction false} RunOk(events: seq<Event>)
    ensures Inv(Run(events))
  {
    hide Do;
    if events != [] {
      RunOk(events[..|events| - 1]);
      hide Inv;
      DoOk(Run(events[..|events| - 1]), events[|events| - 1]);
    }
  }

  // ---- Theorems --------------------------------------------------------------

  /** The accepted changes applied one after another to the empty vault. */
  function Replay(log: seq<Change>): Result<Body> {
    if log == [] then Ok(EMPTY)
    else
      var before := Replay(log[..|log| - 1]);
      match log[|log| - 1]
      case Rotated => before
      case Edited(patch, now) => if before.Refused? then before else ApplyPatch(before.value, patch, now)
  }

  lemma {:induction false} ReplaysBodies(t: Team, g: nat)
    requires TeamOk(t) && g <= |t.log|
    ensures Replay(t.log[..g]) == Ok(t.bodies[g])
  {
    if g > 0 {
      ReplaysBodies(t, g - 1);
      assert t.log[..g][..g - 1] == t.log[..g - 1];
      assert Follows(t.bodies[g - 1], t.log[g - 1], t.bodies[g]);
      hide ApplyPatch;
    }
  }

  /** After any interleaving of machines, with requests and answers late, lost or repeated and machines
      restarting: the vault holds the accepted changes applied in generation order, none of which was
      refused, and its generation counts them. */
  lemma VaultIsItsChangesInOrder(events: seq<Event>, team: TeamId)
    ensures var t := TeamOf(Run(events), team);
      GenerationOf(t.vault) == |t.log| && (t.vault.None? <==> t.log == []) &&
      (t.vault.Some? ==> Replay(t.log) == Ok(t.vault.value.sealed.body))
  {
    RunOk(events);
    var t := TeamOf(Run(events), team);
    assert TeamOk(t);
    ReplaysBodies(t, |t.log|);
    assert t.log[..|t.log|] == t.log;
  }

  /** A push onto a fresh key that the control plane stores leaves the vault's body as it was, and is
      one more generation under a new key. */
  lemma RotationKeepsBody(events: seq<Event>, sent: Sent)
    requires sent in Run(events).sent && sent.change.Rotated?
    requires Accept(TeamOf(Run(events), sent.put.team).vault, sent.put).Some?
    ensures var t, t' := TeamOf(Run(events), sent.put.team), TeamOf(Do(Run(events), Arrive(sent)), sent.put.team);
      t'.vault.Some? && t'.vault.value.generation == GenerationOf(t.vault) + 1 &&
      t'.vault.value.sealed.body == if t.vault.Some? then t.vault.value.sealed.body else EMPTY
  {
    RunOk(events);
    assert PutOk(Run(events), sent) && TeamOk(TeamOf(Run(events), sent.put.team));
  }

  lemma OneStepKeepsChanges(w: World, e: Event, team: TeamId)
    ensures TeamOf(w, team).log <= TeamOf(Do(w, e), team).log
    ensures TeamOf(Do(w, e), team).log != TeamOf(w, team).log ==>
      e.Arrive? && e.sent in w.sent && e.sent.put.team == team && e.sent.put.expected == GenerationOf(TeamOf(w, team).vault) &&
      TeamOf(Do(w, e), team).log == TeamOf(w, team).log + [e.sent.change]
  {
    hide Write, Tick, Pushed, BasedOnKept, Shows;
    if e.Proceed? || e.Reply? || e.NoReply? {
      assert Do(w, e).teams == w.teams;
    }
  }

  lemma RunOneMore(events: seq<Event>, more: seq<Event>)
    requires more != []
    ensures Run(events + more) == Do(Run(events + more[..|more| - 1]), more[|more| - 1])
  {
    hide Do;
    assert (events + more)[..|events + more| - 1] == events + more[..|more| - 1];
  }

  /** Later events only add to the changes. */
  lemma {:induction false} ChangesGrow(events: seq<Event>, more: seq<Event>, team: TeamId)
    ensures TeamOf(Run(events), team).log <= TeamOf(Run(events + more), team).log
  {
    hide Do, Run, TeamOf;
    if more == [] {
      assert events + more == events;
    } else {
      var init := more[..|more| - 1];
      ChangesGrow(events, init, team);
      RunOneMore(events, more);
      OneStepKeepsChanges(Run(events + init), more[|more| - 1], team);
    }
  }

  lemma {:induction false} AnswersGrow(events: seq<Event>, more: seq<Event>)
    ensures Run(events).receipts <= Run(events + more).receipts
  {
    hide Do, Run;
    if more == [] {
      assert events + more == events;
    } else {
      AnswersGrow(events, more[..|more| - 1]);
      RunOneMore(events, more);
      AnswersKept(Run(events + more[..|more| - 1]), more[|more| - 1]);
    }
  }

  lemma AnswersKept(w: World, e: Event)
    ensures w.receipts <= Do(w, e).receipts
  {
    hide Write, Tick, Pushed, BasedOnKept, Shows;
  }

  /** No update is lost: what the control plane answered to have stored is, from then on in every run,
      what the vault's first changes up to that generation make, and later changes only follow it. */
  lemma StoredStays(events: seq<Event>, more: seq<Event>, a: Receipt)
    requires a in Run(events).receipts
    ensures var log, later := TeamOf(Run(events), a.put.team).log, TeamOf(Run(events + more), a.put.team).log;
      log <= later && a.generation <= |log| && Replay(later[..a.generation]) == Ok(a.put.sealed.body)
  {
    RunOk(events);
    RunOk(events + more);
    AnswersGrow(events, more);
    ChangesGrow(events, more, a.put.team);
    assert ReceiptOk(Run(events), a) && ReceiptOk(Run(events + more), a);
    var t := TeamOf(Run(events + more), a.put.team);
    assert TeamOk(TeamOf(Run(events), a.put.team)) && TeamOk(t);
    ReplaysBodies(t, a.generation);
  }

  /** The body a machine holds is what the changes made of the vault at the generation its file names. */
  lemma OpenedIsAGeneration(events: seq<Event>, id: MachineId)
    requires PeerOf(Run(events), id).machine.body.Some?
    ensures var m := PeerOf(Run(events), id).machine;
      m.file.Some? && m.file.value.generation <= |TeamOf(Run(events), m.file.value.team).log| &&
      Replay(TeamOf(Run(events), m.file.value.team).log[..m.file.value.generation]) == Ok(m.body.value)
  {
    RunOk(events);
    var m := PeerOf(Run(events), id).machine;
    assert MachineOk(Run(events), m);
    var t := TeamOf(Run(events), m.file.value.team);
    assert TeamOk(t);
    ReplaysBodies(t, m.file.value.generation);
  }

  /** The log of a vault that reached generation base, holding body at generation kept. */
  ghost predicate Past(log: seq<Change>, kept: nat, base: nat, body: Body) {
    kept <= base == |log| && Replay(log).Ok? && Replay(log[..kept]) == Ok(body)
  }

  /** A machine writes while its tick cannot open the vault. The request it sends carries the newest
      body changed, whatever changes made the vault what it is, just when the generation it names is the
      one this machine kept. The guard compares with the vault's generation only, so a base loaded
      elsewhere passes it, and the write then undoes the changes in between. */
  lemma UnreadBaseIsNewestJustWhen(events: seq<Event>, id: MachineId, s: Snapshot, patch: Patch, now: int, mint: Key)
    requires s.team.Some? && s.vault.Some? && Shows(Run(events), s)
    requires var t := Tick(PeerOf(Run(events), id).machine, s);
      t.body.None? && Write(t.machine, s, patch, s.vault.value.generation, now, mint).Ok?
    ensures var m := PeerOf(Run(events), id).machine;
      var base := s.vault.value.generation;
      var put := Write(Tick(m, s).machine, s, patch, base, now, mint).value.1;
      m.file.Some? && m.file.value.team == s.team.value && m.body.Some? &&
      ((forall log :: Past(log, m.file.value.generation, base, m.body.value) ==>
          Follows(Replay(log).value, Edited(patch, now), put.sealed.body)) <==>
        base == m.file.value.generation)
  {
    var w, base := Run(events), s.vault.value.generation;
    var m := PeerOf(w, id).machine;
    RunOk(events);
    assert MachineOk(w, m) && TeamOk(TeamOf(w, s.team.value));
    UnreadTick(m, s);
    var kept, body, t := m.file.value.generation, m.body.value, TeamOf(w, s.team.value);
    ReplaysBodies(t, kept);
    ReplaysBodies(t, base);
    assert t.log[..base] == t.log;
    var put := Write(Tick(m, s).machine, s, patch, base, now, mint).value.1;
    hide Tick, Write, UsableKey, TeamOk, MachineOk, Inv, Run, ApplyPatch, Replay;
    assert ApplyPatch(body, patch, now) == Ok(put.sealed.body);
    if base == kept {
      forall log | Past(log, kept, base, body) ensures Follows(Replay(log).value, Edited(patch, now), put.sealed.body) {
        assert log[..kept] == log;
      }
    } else {
      var log := AnotherPast(kept, base, body, t.log, patch, now);
    }
  }

  lemma UnreadTick(m: Machine, s: Snapshot)
    requires s.team.Some? && s.vault.Some? && Tick(m, s).body.None? && Tick(m, s).machine.body.Some?
    requires m.body.Some? ==> m.file.Some?
    ensures Tick(m, s).machine.body == m.body && m.file.Some? && m.file.value.team == s.team.value
  {}

  /** The vault stayed as it was and then something the patch leaves alone was changed. */
  lemma AnotherPast(kept: nat, base: nat, body: Body, past: seq<Change>, patch: Patch, now: int) returns (log: seq<Change>)
    requires Past(past, kept, base, body) && kept < base && ApplyPatch(body, patch, now).Ok?
    ensures Past(log, kept, base, body) && ApplyPatch(Replay(log).value, patch, now) != ApplyPatch(body, patch, now)
  {
    var edit := DifferentEdit(body, patch, now);
    var before := past[..kept];
    var still := before + seq(base - kept - 1, _ => Rotated);
    log := still + [edit];
    RotationsAfter(before, base - kept - 1);
    assert (still + [edit])[..|still|] == still;
    assert Replay(log) == ApplyPatch(body, edit.patch, edit.now);
    hide Replay, ApplyPatch;
    assert |before| == kept && log == before + (seq(base - kept - 1, _ => Rotated) + [edit]);
    assert log[..kept] == before;
  }

  /** An edit whose effect the patch neither overwrites nor removes: of the text, or of a key. */
  lemma DifferentEdit(body: Body, patch: Patch, now: int) returns (edit: Change)
    requires ApplyPatch(body, patch, now).Ok?
    ensures edit.Edited? && ApplyPatch(body, edit.patch, edit.now).Ok?
    ensures ApplyPatch(ApplyPatch(body, edit.patch, edit.now).value, patch, now) != ApplyPatch(body, patch, now)
  {
    hide ApplyPatch, GoodName, Inherited, Utf8Length;
    if patch.text.None? {
      var text := if body.text == "" then "x" else "";
      edit := Edited(Patch(Some(text), None, None), 0);
      TextReplaced(body, text);
      var other := ApplyPatch(body, edit.patch, edit.now).value;
      TextUntouched(body, patch, now);
      if ApplyPatch(other, patch, now).Ok? {
        TextUntouched(other, patch, now);
      }
    } else {
      var name := UntouchedName(patch);
      edit := Edited(if name in body.keys then Patch(None, None, Some(name)) else Patch(None, Some((name, "x")), None), 0);
      KeySwitched(body, name);
      var other := ApplyPatch(body, edit.patch, edit.now).value;
      KeyUntouched(body, patch, now, name);
      if ApplyPatch(other, patch, now).Ok? {
        KeyUntouched(other, patch, now, name);
      }
    }
  }

  lemma TextReplaced(body: Body, text: string)
    requires text == "" || text == "x"
    ensures var r := ApplyPatch(body, Patch(Some(text), None, None), 0); r.Ok? && r.value.text == text
  {
    hide GoodName, Inherited;
    assert Utf8Length(text) <= 1;
  }

  lemma TextUntouched(body: Body, patch: Patch, now: int)
    requires patch.text.None? && ApplyPatch(body, patch, now).Ok?
    ensures ApplyPatch(body, patch, now).value.text == body.text
  {
    hide GoodName, Inherited, Utf8Length;
  }

  lemma KeySwitched(body: Body, name: string)
    requires GoodName(name) && Inherited(name)
    ensures var r := ApplyPatch(body, if name in body.keys then Patch(None, None, Some(name)) else Patch(None, Some((name, "x")), None), 0);
      r.Ok? && (name in r.value.keys <==> name !in body.keys)
  {
    hide GoodName, Inherited;
    assert Utf8Length("x") == 1;
  }

  predicate Touches(patch: Patch, name: string) {
    (patch.setKey.Some? && patch.setKey.value.0 == name) || patch.removeKey == Some(name)
  }

  lemma KeyUntouched(body: Body, patch: Patch, now: int, name: string)
    requires ApplyPatch(body, patch, now).Ok? && !Touches(patch, name)
    ensures name in ApplyPatch(body, patch, now).value.keys <==> name in body.keys
  {
    hide GoodName, Inherited, Utf8Length;
  }

  lemma UntouchedName(patch: Patch) returns (name: string)
    ensures !Touches(patch, name) && GoodName(name) && Inherited(name)
  {
    var a, b, c := "valueOf", "toString", "constructor";
    assert |a| == 7 && |b| == 8 && |c| == 11;
    assert a in INHERITED_NAMES by { assert INHERITED_NAMES[6] == a; }
    assert b in INHERITED_NAMES by { assert INHERITED_NAMES[5] == b; }
    assert c in INHERITED_NAMES by { assert INHERITED_NAMES[0] == c; }
    name := if !Touches(patch, a) then a else if !Touches(patch, b) then b else c;
  }

  lemma {:induction false} RotationsAfter(log: seq<Change>, n: nat)
    ensures Replay(log + seq(n, _ => Rotated)) == Replay(log)
  {
    var long := log + seq(n, _ => Rotated);
    if n == 0 {
      assert long == log;
    } else {
      RotationsAfter(log, n - 1);
      assert long[..|long| - 1] == log + seq(n - 1, _ => Rotated);
    }
  }

  /** The same on one machine: it kept generation 1, was cut off from generation 2's key, and writes
      with base 2. The request is accepted and the team key that generation 2 added is gone. */
  lemma StaleBaseLosesAKey()
    ensures
      var one, two := Body("a", 1, map[]), Body("a", 1, map["K" := Entry("v", 2)]);
      var m := Keep(NEW_MACHINE, 7, one, 1);
      var vault := Vault(SealEnvelope(5, two), 2, 2, false);
      var s := Snapshot(Some(7), true, Some(vault), None);
      var t := Tick(m, s);
      t.machine.status == WaitingForKey(7, true) &&
      var r := Write(t.machine, s, Patch(Some("b"), None, None), 2, 3, 6);
      r.Ok? && Accept(Some(vault), r.value.1) == Some(Vault(SealEnvelope(6, Body("b", 3, map[])), 3, 3, false))
  {
    assert Utf8Length("b") == 1;
  }
}
