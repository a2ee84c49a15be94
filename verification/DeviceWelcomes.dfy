/** What a welcome says, which devices a registry lists, and which room keys it keeps, read off the history. */
module DeviceWelcomes {
  import opened Wrappers
  import opened DeviceRegistry

  /** The name as it is listed: cut to sixty characters, "Device" when there is none. */
  predicate Named(shown: string, name: Option<string>) {
    (name.None? || name.value == "" ==> shown == "Device") &&
    (name.Some? && name.value != "" ==>
      shown <= name.value && (shown == name.value || |shown| == 60) && |shown| <= 60)
  }

  /** After any history a greeting or a trusted device that is welcomed is told the current room key, for pairing,
      wrapped for its own public key and under the id it is listed with: the one it had, or a new entry at the end. */
  lemma WelcomeSays(key: Key, events: seq<Event>, publicKey: PublicKey, name: Option<string>, id: DeviceId)
    ensures var w := Run(key, events); var (r', welcome) := Welcome(w.r, publicKey, name, id);
      (welcome.Some? <==> publicKey != "") && r'.room == w.r.room && r'.retired == w.r.retired && r'.pending == w.r.pending &&
      (welcome.Some? ==>
        (welcome.value.key == w.r.room && welcome.value.purpose == ForPairing && welcome.value.to == publicKey &&
         (exists d :: d in r'.devices && d.id == welcome.value.device && d.publicKey == publicKey) &&
         (if Linked(w.r, publicKey) then r'.devices == w.r.devices
          else
            r'.devices == w.r.devices + [r'.devices[|w.r.devices|]] &&
            r'.devices[|w.r.devices|].id == id && r'.devices[|w.r.devices|].publicKey == publicKey &&
            Named(r'.devices[|w.r.devices|].name, name)))) &&
      (welcome.None? ==> r'.devices == w.r.devices)
  {
    var r := Run(key, events).r;
    var k := Find(r.devices, publicKey);
    hide Run;
    if publicKey != "" {
      var r' := Welcome(r, publicKey, name, id).0;
      if k < |r.devices| {
        assert r.devices[k] in r'.devices;
      } else {
        assert r'.devices[|r.devices|] in r'.devices;
        assert !Linked(r, publicKey);
      }
    }
  }

  // ---- Retired keys ------------------------------------------------------------

  /** The room keys before the current one, latest first, since the retired ones were last forgotten. */
  function Earlier(key: Key, events: seq<Event>): seq<Key> {
    if events == [] then []
    else
      var init, last := events[..|events| - 1], events[|events| - 1];
      var before, after := Run(key, init).r, Run(key, events).r;
      if last.ForgetKeys? then []
      else if after.room != before.room then [before.room] + Earlier(key, init)
      else Earlier(key, init)
  }

  lemma RoomMoves(w: World, e: Event)
    requires Inv(w)
    ensures var r, r' := w.r, Do(w, e).r;
      if e.ForgetKeys? then r'.retired == [] && r'.room == r.room
      else if r'.room == r.room then r'.retired == r.retired
      else r'.retired == (if |r.retired| < 8 then [r.room] + r.retired else [r.room] + r.retired[..7])
  {
    hide Find, LabelOf, Deliveries, HoldersOk, DevicesOk, SecretsOk;
    assert e.RotateKey? || e.RevokeDevice? ==> (e.key !in w.keys ==> e.key != w.r.room);
    assert |w.r.retired| <= 8;
    var all := [w.r.room] + w.r.retired;
    assert |w.r.retired| >= 8 ==> all[..8] == [w.r.room] + w.r.retired[..7];
  }

  /** A registry keeps the last eight room keys before the current one, or all there were since they were forgotten. */
  lemma {:induction false} RetiredAreTheLastEight(key: Key, events: seq<Event>)
    ensures var all, kept := Earlier(key, events), Run(key, events).r.retired;
      |kept| == (if |all| < 8 then |all| else 8) && kept == all[..|kept|]
  {
    hide Do;
    if events != [] {
      var init, last := events[..|events| - 1], events[|events| - 1];
      RetiredAreTheLastEight(key, init);
      RunOk(key, init);
      hide Inv;
      RoomMoves(Run(key, init), last);
    }
  }
}
