/** The sync object of one machine, updated in place; each method is one stretch between two requests
    and is proved to take the step of the same name. */
module TeamVaultObjects {
  import opened Wrappers
  import opened TeamVault

  /** Where opened team keys are kept. */
  class TeamKeyStore {
    var values: map<string, string>

    constructor ()
      ensures values == map[]
    {
      values := map[];
    }

    method Set(name: string, value: string)
      modifies this
      ensures values == old(values)[name := value]
    {
      values := values[name := value];
    }

    method Remove(name: string)
      modifies this
      ensures values == old(values) - {name}
    {
      values := values - {name};
    }
  }

  class TeamVaultSync {
    var status: Status
    var body: Option<Body>
    var file: Option<File>
    var keyFile: Option<LocalKey>
    const store: TeamKeyStore

    ghost function State(): Machine
      reads this, store
    {
      Machine(status, body, file, keyFile, store.values)
    }

    /** A started program: what the files and the secret vault hold, nothing in memory. */
    constructor (file: Option<File>, keyFile: Option<LocalKey>, store: TeamKeyStore)
      ensures this.store == store && State() == Machine(NoTeam, None, file, keyFile, store.values)
    {
      this.status := NoTeam;
      this.body := None;
      this.file := file;
      this.keyFile := keyFile;
      this.store := store;
    }

    method DoForget()
      modifies this, store
      ensures State() == Forget(old(State()))
    {
      file := None;
      keyFile := None;
      var names := store.values.Keys;
      while names != {}
        invariant names == store.values.Keys
        invariant State() == old(State()).(file := None, key := None, store := store.values)
        decreases |names|
      {
        var name :| name in names;
        store.Remove(name);
        names := names - {name};
      }
      assert store.values == map[];
      body := None;
    }

    method TakeUsableKey(s: Snapshot) returns (key: Option<LocalKey>)
      requires s.team.Some?
      modifies `keyFile
      ensures (State(), key) == UsableKey(old(State()), s)
    {
      var cached := if keyFile.Some? && keyFile.value.team == s.team.value then keyFile else None;
      if cached.Some? && (s.vault.None? || cached.value.keyGeneration == s.vault.value.keyGeneration) {
        return cached;
      }
      if s.wrapped.None? || (s.vault.Some? && s.wrapped.value.keyGeneration != s.vault.value.keyGeneration) {
        return None;
      }
      if !s.wrapped.value.opens {
        return None;
      }
      keyFile := Some(LocalKey(s.team.value, s.wrapped.value.key, s.wrapped.value.keyGeneration));
      return keyFile;
    }

    method SetKeys(keys: map<string, Entry>)
      modifies store
      ensures store.values == old(store.values) + Values(keys)
    {
      hide Inherited, GoodName;
      var todo := keys.Keys;
      while todo != {}
        invariant todo <= keys.Keys
        invariant store.values.Keys == old(store.values).Keys + (keys.Keys - todo)
        invariant forall name :: name in store.values ==>
          store.values[name] == if name in keys && name !in todo then keys[name].value else old(store.values)[name]
        decreases |todo|
      {
        var name :| name in todo;
        if name !in store.values || store.values[name] != keys[name].value {
          store.Set(name, keys[name].value);
        }
        todo := todo - {name};
      }
      assert store.values == old(store.values) + Values(keys);
    }

    /** The cleanup asks whether a name is `in` the keys, which an inherited name always is. */
    method DropOthers(keys: map<string, Entry>)
      modifies store
      ensures store.values == map name | name in old(store.values) && (name in keys || Inherited(name)) ::
                old(store.values)[name]
    {
      hide Inherited, GoodName;
      var names := store.values.Keys;
      while names != {}
        invariant names <= old(store.values).Keys
        invariant forall name :: name in store.values <==>
          name in old(store.values) && (name in names || name in keys || Inherited(name))
        invariant forall name :: name in store.values ==> store.values[name] == old(store.values)[name]
        decreases |names|
      {
        var name :| name in names;
        if name !in keys && !Inherited(name) {
          store.Remove(name);
        }
        names := names - {name};
      }
    }

    /** The store takes the body's keys, then loses the names that are not `in` them. */
    method StoreKeys(keys: map<string, Entry>)
      modifies store
      ensures store.values == Stored(old(store.values), keys)
    {
      hide Inherited, GoodName;
      SetKeys(keys);
      DropOthers(keys);
      assert store.values == Stored(old(store.values), keys);
    }

    method DoKeep(team: TeamId, opened_: Body, generation: nat)
      modifies this, store
      ensures State() == Keep(old(State()), team, opened_, generation)
    {
      body := Some(opened_);
      var instructions := FileFor(team, opened_, generation);
      if file != Some(instructions) {
        file := Some(instructions);
      }
      StoreKeys(opened_.keys);
    }

    /** One tick after the control plane answered: what it opened, and whether it goes on to rotate. */
    method DoTick(s: Snapshot) returns (found: Option<Body>, rotate: bool)
      modifies this, store
      ensures Ticked(State(), found, rotate) == Tick(old(State()), s)
    {
      if s.team.None? {
        DoForget();
        status := NoTeam;
        return None, false;
      }
      var team := s.team.value;
      if file.Some? && file.value.team != team {
        DoForget();
      }
      if s.vault.None? {
        DoKeep(team, EMPTY, 0);
        status := Ready(team, s.admin);
        return None, false;
      }
      var key := TakeUsableKey(s);
      if key.Some? {
        found := OpenEnvelope(key.value.key, s.vault.value.sealed);
        if found.None? {
          keyFile := None;
        }
      } else {
        found := None;
      }
      if found.None? {
        status := WaitingForKey(team, s.admin);
        return None, false;
      }
      DoKeep(team, found.value, s.vault.value.generation);
      status := Ready(team, s.admin);
      rotate := s.vault.value.needsRotation && s.admin;
    }

    /** A write after its sync, up to the request it sends. */
    method DoWrite(s: Snapshot, patch: Patch, base: nat, now: int, mint: Key) returns (r: Result<Put>)
      modifies `keyFile
      ensures var spec := Write(old(State()), s, patch, base, now, mint);
        if spec.Ok? then spec.value.0 == State() && r == Ok(spec.value.1)
        else State() == old(State()) && r == Refused(spec.why)
    {
      if s.team.None? { return Refused(NotInTeam); }
      if !s.admin { return Refused(NotAdmin); }
      if GenerationOf(s.vault) != base { return Refused(ChangedElsewhere); }
      if s.vault.Some? && body.None? { return Refused(CannotOpen); }
      var next := ApplyPatch(if s.vault.Some? then body.value else EMPTY, patch, now);
      if next.Refused? { return Refused(next.why); }
      var key := TakeUsableKey(s);
      if key.None? || s.vault.None? || s.vault.value.needsRotation {
        key := None;
      }
      return Ok(PutFor(s, next.value, key, mint));
    }

    /** A push whose answer arrived. */
    method DoPushed(put: Put, generation: nat, keyGeneration: nat)
      modifies this, store
      ensures State() == Pushed(old(State()), put, generation, keyGeneration)
    {
      keyFile := Some(put.local.(keyGeneration := keyGeneration));
      DoKeep(put.team, put.sealed.body, generation);
    }
  }
}
