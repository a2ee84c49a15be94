/** The team vault on one machine: patches, the sealed envelope, and one sync tick or write between
    two requests. Keys are symbolic: an envelope opens under the key it was sealed with and no other. */
module TeamVault {
  import opened Wrappers
  import opened Sets

  const MAX_TEXT_BYTES: nat := 16 * 1024
  const MAX_KEY_BYTES: nat := 8 * 1024
  const MAX_KEYS: nat := 100

  type TeamId = nat
  type Key = nat

  datatype Entry = Entry(value: string, updatedAt: int)
  datatype Body = Body(text: string, updatedAt: int, keys: map<string, Entry>)
  datatype Patch = Patch(text: Option<string>, setKey: Option<(string, string)>, removeKey: Option<string>)

  datatype Refusal =
    | TextTooLong | BadName | BadValue | TooManyKeys
    | NotInTeam | NotAdmin | ChangedElsewhere | CannotOpen

  datatype Result<+T> = Ok(value: T) | Refused(why: Refusal)

  const EMPTY := Body("", 0, map[])

  // ---- Patches -------------------------------------------------------------

  /** What a plain object answers to `in` without having the key, among the names a key may have. */
  const INHERITED_NAMES: seq<string> := [
    "constructor", "hasOwnProperty", "isPrototypeOf", "propertyIsEnumerable", "toLocaleString", "toString", "valueOf"
  ]

  predicate Inherited(name: string) {
    name in INHERITED_NAMES
  }

  function Utf8Length(s: string): nat {
    if s == "" then 0
    else
      var c := s[0] as int;
      (if c < 0x80 then 1 else if c < 0x800 then 2 else if c < 0x1_0000 then 3 else 4) + Utf8Length(s[1..])
  }

  predicate Letter(c: char) {
    'a' <= c <= 'z' || 'A' <= c <= 'Z'
  }

  predicate GoodName(name: string) {
    1 <= |name| <= 64 && Letter(name[0]) &&
    forall i :: 1 <= i < |name| ==> Letter(name[i]) || '0' <= name[i] <= '9' || name[i] == '_'
  }

  function SetText(body: Body, text: Option<string>, now: int): Result<Body> {
    if text.None? then Ok(body)
    else if Utf8Length(text.value) > MAX_TEXT_BYTES then Refused(TextTooLong)
    else Ok(body.(text := text.value, updatedAt := now))
  }

  function SetKey(body: Body, set_: Option<(string, string)>, now: int): Result<Body> {
    if set_.None? then Ok(body)
    else
      var (name, value) := set_.value;
      if !GoodName(name) then Refused(BadName)
      else if value == "" || Utf8Length(value) > MAX_KEY_BYTES then Refused(BadValue)
      else if name !in body.keys && !Inherited(name) && |body.keys| >= MAX_KEYS then Refused(TooManyKeys)
      else Ok(body.(keys := body.keys[name := Entry(value, now)]))
  }

  function RemoveKey(body: Body, name: Option<string>): Body {
    if name.None? then body else body.(keys := body.keys - {name.value})
  }

  function ApplyPatch(body: Body, patch: Patch, now: int): Result<Body> {
    var texted := SetText(body, patch.text, now);
    if texted.Refused? then texted
    else
      var keyed := SetKey(texted.value, patch.setKey, now);
      if keyed.Refused? then keyed else Ok(RemoveKey(keyed.value, patch.removeKey))
  }

  predicate Clean(body: Body) {
    forall name :: name in body.keys ==> GoodName(name)
  }

  lemma PatchesKeepClean(body: Body, patch: Patch, now: int)
    requires Clean(body) && ApplyPatch(body, patch, now).Ok?
    ensures Clean(ApplyPatch(body, patch, now).value)
  {}

  function NamesAfter(names: set<string>, patch: Patch): set<string> {
    names + (if patch.setKey.Some? then {patch.setKey.value.0} else {}) -
      (if patch.removeKey.Some? then {patch.removeKey.value} else {})
  }

  lemma PatchedNames(body: Body, patch: Patch, now: int)
    requires ApplyPatch(body, patch, now).Ok?
    ensures ApplyPatch(body, patch, now).value.keys.Keys == NamesAfter(body.keys.Keys, patch)
    ensures |ApplyPatch(body, patch, now).value.keys| == |NamesAfter(body.keys.Keys, patch)|
    ensures patch.setKey.Some? ==>
      patch.setKey.value.0 in body.keys || Inherited(patch.setKey.value.0) || |body.keys.Keys| < MAX_KEYS
  {
    hide Inherited, GoodName, Utf8Length;
    var texted := SetText(body, patch.text, now).value;
    var keyed := SetKey(texted, patch.setKey, now).value;
    assert texted.keys == body.keys;
    assert patch.setKey.Some? ==> keyed.keys.Keys == body.keys.Keys + {patch.setKey.value.0};
    var result := ApplyPatch(body, patch, now).value;
    assert result.keys.Keys == NamesAfter(body.keys.Keys, patch);
    assert |result.keys| == |result.keys.Keys|;
  }

  /** The limit of 100 keys holds except through the guard's `in`: a patch takes a body within the
      limit past it just when it adds an inherited name to a full body and removes nothing. */
  lemma LimitExceededJustWhen(body: Body, patch: Patch, now: int)
    requires |body.keys| <= MAX_KEYS && ApplyPatch(body, patch, now).Ok?
    ensures |ApplyPatch(body, patch, now).value.keys| > MAX_KEYS <==>
      (|body.keys| == MAX_KEYS && patch.setKey.Some? && patch.setKey.value.0 !in body.keys &&
       Inherited(patch.setKey.value.0) &&
       (patch.removeKey.None? ||
        (patch.removeKey.value !in body.keys && patch.removeKey.value != patch.setKey.value.0)))
  {
    hide Inherited, ApplyPatch;
    PatchedNames(body, patch, now);
    var names := body.keys.Keys;
    assert |names| == |body.keys|;
    if patch.setKey.Some? {
      GrowsJustWhen(names, patch.setKey.value.0, patch.removeKey);
    } else {
      SubsetSize(NamesAfter(names, patch), names);
    }
  }

  lemma GrowsJustWhen(names: set<string>, add: string, remove: Option<string>)
    ensures var after := names + {add} - (if remove.Some? then {remove.value} else {});
      |after| <= |names| + 1 &&
      (|after| > |names| <==> add !in names && (remove.None? || (remove.value !in names && remove.value != add)))
  {
    var all := names + {add};
    if add in names {
      assert all == names;
    }
    if remove.Some? && remove.value in all {
      assert all == (all - {remove.value}) + {remove.value};
    } else if remove.Some? {
      assert all - {remove.value} == all;
    }
  }

  function Ordinary(names: set<string>): set<string> {
    set name | name in names && !Inherited(name)
  }

  /** Whatever the patches, a body never holds more than 100 ordinary keys. */
  lemma OrdinaryKeysBounded(body: Body, patch: Patch, now: int)
    requires |Ordinary(body.keys.Keys)| <= MAX_KEYS && ApplyPatch(body, patch, now).Ok?
    ensures |Ordinary(ApplyPatch(body, patch, now).value.keys.Keys)| <= MAX_KEYS
  {
    hide Inherited, ApplyPatch;
    PatchedNames(body, patch, now);
    var names := body.keys.Keys;
    var before, after := Ordinary(names), Ordinary(NamesAfter(names, patch));
    if patch.setKey.Some? && patch.setKey.value.0 !in names && !Inherited(patch.setKey.value.0) {
      SubsetSize(before, names);
      SubsetSize(after, before + {patch.setKey.value.0});
    } else {
      SubsetSize(after, before);
    }
  }

  /** So it never holds more than 107 in all. */
  lemma AllKeysBounded(names: set<string>)
    requires |Ordinary(names)| <= MAX_KEYS
    ensures |names| <= MAX_KEYS + |INHERITED_NAMES|
  {
    var inherited := set name | name in names && Inherited(name);
    assert names == Ordinary(names) + inherited;
    SomeOf(inherited, INHERITED_NAMES);
  }

  lemma {:induction false} SomeOf(names: set<string>, list: seq<string>)
    requires forall name :: name in names ==> name in list
    ensures |names| <= |list|
  {
    if list == [] {
      assert names == {};
    } else {
      var last := list[|list| - 1];
      SomeOf(names - {last}, list[..|list| - 1]);
      SubsetSize(names, (names - {last}) + {last});
    }
  }

  // ---- The envelope --------------------------------------------------------

  datatype Envelope = Envelope(key: Key, body: Body)

  function SealEnvelope(key: Key, body: Body): Envelope {
    Envelope(key, body)
  }

  /** Entries whose name is not a key name are dropped. */
  function OpenEnvelope(key: Key, e: Envelope): Option<Body> {
    if e.key != key then None
    else Some(e.body.(keys := map name | name in e.body.keys && GoodName(name) :: e.body.keys[name]))
  }

  /** Sealing and opening give the body back just when the key is the same and every name is a key name. */
  lemma EnvelopeRoundTrip(sealed: Key, key: Key, body: Body)
    ensures OpenEnvelope(key, SealEnvelope(sealed, body)) == Some(body) <==> key == sealed && Clean(body)
  {
    if key == sealed {
      var found := OpenEnvelope(key, SealEnvelope(sealed, body)).value;
      if Clean(body) {
        assert found.keys == body.keys;
      } else {
        var name :| name in body.keys && !GoodName(name);
        assert name !in found.keys;
      }
    }
  }

  // ---- One machine ---------------------------------------------------------

  datatype Vault = Vault(sealed: Envelope, generation: nat, keyGeneration: nat, needsRotation: bool)
  datatype LocalKey = LocalKey(team: TeamId, key: Key, keyGeneration: nat)

  /** The copy of the key sealed for this machine; opens: it really was sealed for this machine. */
  datatype Wrapped = Wrapped(opens: bool, key: Key, keyGeneration: nat)
  datatype Snapshot = Snapshot(team: Option<TeamId>, admin: bool, vault: Option<Vault>, wrapped: Option<Wrapped>)

  /** team-instructions.json; updated: the keys' names and times. */
  datatype File = File(team: TeamId, text: string, updatedAt: int, generation: nat, updated: map<string, int>)
  datatype Status = NoTeam | Ready(team: TeamId, admin: bool) | WaitingForKey(team: TeamId, admin: bool)

  /** store: the team keys in the machine's secret vault. status and body are lost by a restart. */
  datatype Machine = Machine(status: Status, body: Option<Body>, file: Option<File>, key: Option<LocalKey>,
    store: map<string, string>)

  const NEW_MACHINE := Machine(NoTeam, None, None, None, map[])

  /** A write on its way to the control plane. */
  datatype Put = Put(team: TeamId, sealed: Envelope, expected: nat, freshKey: bool, local: LocalKey)

  function GenerationOf(vault: Option<Vault>): nat {
    if vault.Some? then vault.value.generation else 0
  }

  function KeyGenerationOf(vault: Option<Vault>): nat {
    if vault.Some? then vault.value.keyGeneration else 0
  }

  function Forget(m: Machine): Machine {
    m.(file := None, key := None, store := map[], body := None)
  }

  function UsableKey(m: Machine, s: Snapshot): (r: (Machine, Option<LocalKey>))
    requires s.team.Some?
    ensures r.0 == m.(key := r.0.key)
  {
    var cached := if m.key.Some? && m.key.value.team == s.team.value then m.key else None;
    if cached.Some? && (s.vault.None? || cached.value.keyGeneration == s.vault.value.keyGeneration) then (m, cached)
    else if s.wrapped.None? || (s.vault.Some? && s.wrapped.value.keyGeneration != s.vault.value.keyGeneration) then
      (m, None)
    else if !s.wrapped.value.opens then (m, None)
    else
      var key := LocalKey(s.team.value, s.wrapped.value.key, s.wrapped.value.keyGeneration);
      (m.(key := Some(key)), Some(key))
  }

  /** The store's new keys: the body's, and any old name the cleanup's `in` takes for one of them. */
  function Stored(store: map<string, string>, keys: map<string, Entry>): map<string, string> {
    map name | name in keys.Keys + store.Keys && (name in keys || Inherited(name)) ::
      if name in keys then keys[name].value else store[name]
  }

  function FileFor(team: TeamId, body: Body, generation: nat): File {
    File(team, body.text, body.updatedAt, generation, map name | name in body.keys :: body.keys[name].updatedAt)
  }

  function Keep(m: Machine, team: TeamId, body: Body, generation: nat): Machine {
    m.(body := Some(body), file := Some(FileFor(team, body, generation)), store := Stored(m.store, body.keys))
  }

  function Values(keys: map<string, Entry>): map<string, string> {
    map name | name in keys :: keys[name].value
  }

  /** The machine's stored keys are the vault's keys just when it held no inherited name the vault has
      dropped: removing a key named like an inherited property leaves its value behind. */
  lemma KeepsJustTheVaultsKeys(m: Machine, team: TeamId, body: Body, generation: nat)
    ensures Keep(m, team, body, generation).store == Values(body.keys) <==>
      forall name :: name in m.store && Inherited(name) ==> name in body.keys
  {
    var store := Keep(m, team, body, generation).store;
    if forall name :: name in m.store && Inherited(name) ==> name in body.keys {
      assert store.Keys == body.keys.Keys;
      assert store == Values(body.keys);
    } else {
      var name :| name in m.store && Inherited(name) && name !in body.keys;
      assert name in store && name !in Values(body.keys);
    }
  }

  datatype Ticked = Ticked(machine: Machine, body: Option<Body>, rotate: bool)

  /** What a tick does with the control plane's answer, up to the requests it then sends. */
  function Tick(m: Machine, s: Snapshot): Ticked {
    if s.team.None? then Ticked(Forget(m).(status := NoTeam), None, false)
    else
      var team := s.team.value;
      var m1 := if m.file.Some? && m.file.value.team != team then Forget(m) else m;
      if s.vault.None? then Ticked(Keep(m1, team, EMPTY, 0).(status := Ready(team, s.admin)), None, false)
      else
        var (m2, key) := UsableKey(m1, s);
        var found := if key.Some? then OpenEnvelope(key.value.key, s.vault.value.sealed) else None;
        if found.None? then
          var m3 := if key.Some? then m2.(key := None) else m2;
          Ticked(m3.(status := WaitingForKey(team, s.admin)), None, false)
        else
          Ticked(Keep(m2, team, found.value, s.vault.value.generation).(status := Ready(team, s.admin)),
                 found, s.vault.value.needsRotation && s.admin)
  }

  /** The request a push sends; without a key it mints one. */
  function PutFor(s: Snapshot, body: Body, key: Option<LocalKey>, mint: Key): Put
    requires s.team.Some?
  {
    var local := if key.Some? then key.value else LocalKey(s.team.value, mint, KeyGenerationOf(s.vault) + 1);
    Put(s.team.value, SealEnvelope(local.key, body), GenerationOf(s.vault), key.None?, local)
  }

  /** A push whose answer arrived: the generation and key generation it was stored as. */
  function Pushed(m: Machine, put: Put, generation: nat, keyGeneration: nat): Machine {
    Keep(m.(key := Some(put.local.(keyGeneration := keyGeneration))), put.team, put.sealed.body, generation)
  }

  /** A tick's answer comes while a push waits between writing its key and keeping its body, and shows the
      vault under an older key. The new key survives just when the answer brings no copy of the older key
      that this machine can open. */
  lemma TickDuringPushKeepsKeyJustWhen(m: Machine, put: Put, generation: nat, keyGeneration: nat, s: Snapshot)
    requires put.local.team == put.team && (m.file.Some? ==> m.file.value.team == put.team)
    requires s.team == Some(put.team) && s.vault.Some? && s.vault.value.keyGeneration != keyGeneration
    ensures var stored := put.local.(keyGeneration := keyGeneration);
      var ticked := Tick(m.(key := Some(stored)), s).machine;
      Keep(ticked, put.team, put.sealed.body, generation).key == Some(stored) <==>
        !(s.wrapped.Some? && s.wrapped.value.opens && s.wrapped.value.keyGeneration == s.vault.value.keyGeneration)
  {
    hide OpenEnvelope, Stored;
  }

  /** A write after its sync: refused, or the request it sends and the machine then. */
  function Write(m: Machine, s: Snapshot, patch: Patch, base: nat, now: int, mint: Key): Result<(Machine, Put)> {
    if s.team.None? then Refused(NotInTeam)
    else if !s.admin then Refused(NotAdmin)
    else if GenerationOf(s.vault) != base then Refused(ChangedElsewhere)
    else if s.vault.Some? && m.body.None? then Refused(CannotOpen)
    else
      var next := ApplyPatch(if s.vault.Some? then m.body.value else EMPTY, patch, now);
      if next.Refused? then Refused(next.why)
      else
        var (m', key) := UsableKey(m, s);
        var reuse := if key.None? || s.vault.None? || s.vault.value.needsRotation then None else key;
        Ok((m', PutFor(s, next.value, reuse, mint)))
  }

  /** The control plane's write: refused unless the writer names the current generation, and unless
      it brings a fresh key when one is required. */
  function Accept(vault: Option<Vault>, put: Put): Option<Vault> {
    if GenerationOf(vault) != put.expected then None
    else if vault.Some? && vault.value.needsRotation && !put.freshKey then None
    else
      var keyGeneration := if vault.None? then 1 else vault.value.keyGeneration + if put.freshKey then 1 else 0;
      Some(Vault(put.sealed, put.expected + 1, keyGeneration, false))
  }
}
