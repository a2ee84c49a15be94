/** Who writes to a team vault, what a refusal says, and whose keys go on opening it. */
module TeamVaultWrites {
  import opened Wrappers
  import opened TeamVault
  import opened TeamVaultSafety

  /** The machine took in an answer that calls it an admin's in the request's team. */
  predicate SentByAdmin(w: World, id: MachineId, put: Put) {
    var p := PeerOf(w, id).phase;
    (p.Answered? || p.Rotating?) && p.snapshot.admin && p.snapshot.team == Some(put.team)
  }

  lemma GoOnSends(w: World, id: MachineId, m: Machine, s: Snapshot, intent: Option<Intent>, now: int, mint: Key, sent: Sent)
    requires sent in GoOn(w, id, m, s, intent, now, mint).sent && sent !in w.sent
    ensures s.admin && s.team == Some(sent.put.team) && intent.Some? && sent.change == Edited(intent.value.patch, now)
  {
    hide UsableKey, ApplyPatch;
  }

  /** A request is sent for an admin only: a rotation, or the change a user asked for with the generation they saw. */
  lemma OnlyAdminsWrite(w: World, e: Event, sent: Sent)
    requires sent in Do(w, e).sent && sent !in w.sent
    ensures (e.Proceed? || e.Reply? || e.NoReply?) && SentByAdmin(w, e.id, sent.put)
    ensures var p := PeerOf(w, e.id).phase;
      sent.change.Edited? ==>
        (p.intent.Some? && sent.change == Edited(p.intent.value.patch, e.now) && sent.put.expected == p.intent.value.base)
  {
    if e.Proceed? && PeerOf(w, e.id).phase.Answered? {
      var p := PeerOf(w, e.id);
      var t := Tick(p.machine, p.phase.snapshot);
      assert t.rotate ==> p.phase.snapshot.admin && p.phase.snapshot.team.Some?;
      hide Tick;
      if !t.rotate {
        GoOnSends(w, e.id, t.machine, p.phase.snapshot, p.phase.intent, e.now, e.mint, sent);
        GoOnNames(w, e.id, t.machine, p.phase.snapshot, p.phase.intent, e.now, e.mint, sent);
      }
      hide GoOn;
    } else if e.Reply? {
      var p := PeerOf(w, e.id);
      if p.phase.Rotating? {
        var m := Pushed(p.machine, e.receipt.put, e.receipt.generation, e.receipt.keyGeneration);
        hide Pushed;
        if sent in GoOn(w, e.id, m, p.phase.snapshot, p.phase.intent, e.now, e.mint).sent {
          GoOnSends(w, e.id, m, p.phase.snapshot, p.phase.intent, e.now, e.mint, sent);
          GoOnNames(w, e.id, m, p.phase.snapshot, p.phase.intent, e.now, e.mint, sent);
        }
      }
      hide GoOn, Tick, Pushed;
    } else if e.NoReply? {
      var p := PeerOf(w, e.id);
      if p.phase.Rotating? {
        GoOnSends(w, e.id, p.machine, p.phase.snapshot, p.phase.intent, e.now, e.mint, sent);
        GoOnNames(w, e.id, p.machine, p.phase.snapshot, p.phase.intent, e.now, e.mint, sent);
      }
      hide GoOn, Tick;
    } else {
      hide GoOn, Tick;
    }
  }

  lemma GoOnNames(w: World, id: MachineId, m: Machine, s: Snapshot, intent: Option<Intent>, now: int, mint: Key, sent: Sent)
    requires sent in GoOn(w, id, m, s, intent, now, mint).sent && sent !in w.sent
    ensures intent.Some? && sent.put.expected == intent.value.base
  {
    hide UsableKey, ApplyPatch;
  }

  /** Every refusal says what is the case. */
  lemma RefusalsAreTrue(m: Machine, s: Snapshot, patch: Patch, base: nat, now: int, mint: Key)
    requires Write(m, s, patch, base, now, mint).Refused?
    ensures match Write(m, s, patch, base, now, mint).why
      case NotInTeam => s.team.None?
      case NotAdmin => s.team.Some? && !s.admin
      case ChangedElsewhere => GenerationOf(s.vault) != base
      case CannotOpen => s.vault.Some? && m.body.None?
      case TextTooLong => patch.text.Some? && Utf8Length(patch.text.value) > 16384
      case BadName => patch.setKey.Some? && !GoodName(patch.setKey.value.0)
      case BadValue => patch.setKey.Some? && (patch.setKey.value.1 == "" || Utf8Length(patch.setKey.value.1) > 8192)
      case TooManyKeys => patch.setKey.Some? && m.body.Some? && |m.body.value.keys| >= 100 && patch.setKey.value.0 !in m.body.value.keys
  {
    hide UsableKey, Utf8Length, GoodName, Inherited;
  }

  /** The machine holds the vault's key. */
  predicate HoldsKey(m: Machine, team: TeamId, v: Vault) {
    m.key == Some(LocalKey(team, v.sealed.key, v.keyGeneration)) && (m.file.Some? ==> m.file.value.team == team)
  }

  /** An ordinary write by a machine that holds the key leaves everybody's key good: when it is stored, each machine with
      the key reads the new body at its next tick. */
  lemma OthersGoOnReading(m: Machine, s: Snapshot, patch: Patch, base: nat, now: int, mint: Key, other: Machine, admin: bool)
    requires s.team.Some? && s.vault.Some? && !s.vault.value.needsRotation
    requires HoldsKey(m, s.team.value, s.vault.value) && HoldsKey(other, s.team.value, s.vault.value)
    requires Write(m, s, patch, base, now, mint).Ok?
    ensures var put := Write(m, s, patch, base, now, mint).value.1;
      !put.freshKey && Accept(s.vault, put).Some? &&
      var v := Accept(s.vault, put).value;
      v.sealed == put.sealed && v.generation == base + 1 && HoldsKey(other, s.team.value, v) &&
      (Clean(put.sealed.body) ==>
        Tick(other, Snapshot(s.team, admin, Some(v), None)).body == Some(put.sealed.body))
  {
    var put := Write(m, s, patch, base, now, mint).value.1;
    assert put.sealed.key == s.vault.value.sealed.key && put.expected == base by { hide ApplyPatch; }
    EnvelopeRoundTrip(put.sealed.key, put.sealed.key, put.sealed.body);
    hide ApplyPatch, Write, TeamVault.Stored, Clean, OpenEnvelope;
    assert SealEnvelope(put.sealed.key, put.sealed.body) == put.sealed;
  }

  /** A tick that finds the machine outside every team leaves nothing of one on it, and one that finds it in another team
      nothing of the team before. */
  lemma LeaverKeepsNothing(m: Machine, s: Snapshot)
    ensures s.team.None? ==>
      var m' := Tick(m, s).machine;
      m'.file.None? && m'.key.None? && m'.body.None? && m'.store == map[] && m'.status == NoTeam
    ensures s.team.Some? && m.file.Some? && m.file.value.team != s.team.value ==>
      var m' := Tick(m, s).machine;
      (m'.file.Some? ==> m'.file.value.team == s.team.value) && (m'.key.Some? ==> m'.key.value.team == s.team.value) &&
      (m'.body.None? ==> m'.store == map[])
  {
    hide OpenEnvelope, GoodName;
  }

  /** What the machine reports: no team, waiting for a key just when there is a vault it could not open, otherwise ready;
      with the team and role of the answer. */
  lemma StatusSays(m: Machine, s: Snapshot)
    ensures Tick(m, s).machine.status ==
      if s.team.None? then NoTeam
      else if s.vault.Some? && Tick(m, s).body.None? then WaitingForKey(s.team.value, s.admin)
      else Ready(s.team.value, s.admin)
  {
    hide OpenEnvelope, TeamVault.Stored;
  }

  /** A cached key that does not open the vault is dropped: with a good sealed copy the machine opens it at that tick or
      the next, whatever key it had. */
  lemma SecondTickOpens(m: Machine, s: Snapshot)
    requires s.team.Some? && s.vault.Some? && s.wrapped.Some? && s.wrapped.value.opens
    requires s.wrapped.value.key == s.vault.value.sealed.key && s.wrapped.value.keyGeneration == s.vault.value.keyGeneration
    ensures Tick(m, s).body.Some? || Tick(Tick(m, s).machine, s).body.Some?
  {
    hide TeamVault.Stored, GoodName;
  }
}
