/** Linked devices, pairing secrets and room keys of one node. Keys are symbolic: a wrapped key opens
    only for the device it was wrapped for, and a proof matches only the secret and public key it was
    made from. New keys, secrets and device ids come from outside and do not repeat. */
module DeviceRegistry {
  import opened Wrappers

  const MAX_RETIRED_ROOM_KEYS: nat := 8

  type Key = nat
  type Secret = nat
  type DeviceId = nat
  type PublicKey = string

  datatype Device = Device(id: DeviceId, publicKey: PublicKey, name: string)
  datatype Proof = NoProof | Forged | ProofOf(secret: Secret, publicKey: PublicKey)
  datatype Use = ForPairing | ForRotation

  /** A room key wrapped under the key shared by this node and one public key. */
  datatype Delivery = Delivery(device: DeviceId, to: PublicKey, purpose: Use, key: Key)

  datatype Registry = Registry(devices: seq<Device>, room: Key, retired: seq<Key>, pending: map<Secret, int>)

  // ---- The steps -------------------------------------------------------------

  function Sweep(r: Registry, now: int): Registry {
    r.(pending := map secret | secret in r.pending && r.pending[secret] >= now :: r.pending[secret])
  }

  function Issue(r: Registry, secret: Secret, now: int, ttl: int): Registry {
    var swept := Sweep(r, now);
    swept.(pending := swept.pending[secret := now + ttl])
  }

  /** The position of the first device with the public key; |devices| when there is none. */
  function Find(devices: seq<Device>, publicKey: PublicKey): (k: nat)
    ensures k <= |devices|
    ensures k < |devices| ==> devices[k].publicKey == publicKey
    ensures forall i :: 0 <= i < k ==> devices[i].publicKey != publicKey
  {
    if devices == [] || devices[0].publicKey == publicKey then 0 else 1 + Find(devices[1..], publicKey)
  }

  function LabelOf(name: Option<string>): string {
    var given := if name.Some? then name.value else "Device";
    var short := if |given| > 60 then given[..60] else given;
    if short == "" then "Device" else short
  }

  function Welcome(r: Registry, publicKey: PublicKey, name: Option<string>, id: DeviceId): (Registry, Option<Delivery>) {
    if publicKey == "" then (r, None)
    else
      var k := Find(r.devices, publicKey);
      var device := if k < |r.devices| then r.devices[k] else Device(id, publicKey, LabelOf(name));
      (if k < |r.devices| then r else r.(devices := r.devices + [device]),
       Some(Delivery(device.id, publicKey, ForPairing, r.room)))
  }

  function Hello(r: Registry, publicKey: PublicKey, proof: Proof, name: Option<string>, id: DeviceId, now: int):
      (Registry, Option<Delivery>) {
    var swept := Sweep(r, now);
    if publicKey == "" || !proof.ProofOf? || proof.publicKey != publicKey || proof.secret !in swept.pending then
      (swept, None)
    else Welcome(swept.(pending := swept.pending - {proof.secret}), publicKey, name, id)
  }

  function Deliveries(devices: seq<Device>, key: Key): seq<Delivery> {
    seq(|devices|, i requires 0 <= i < |devices| =>
      Delivery(devices[i].id, devices[i].publicKey, ForRotation, key))
  }

  function Newest(keys: seq<Key>): seq<Key> {
    if |keys| > MAX_RETIRED_ROOM_KEYS then keys[..MAX_RETIRED_ROOM_KEYS] else keys
  }

  function Rotate(r: Registry, key: Key): (Registry, seq<Delivery>) {
    (r.(retired := Newest([r.room] + r.retired), room := key), Deliveries(r.devices, key))
  }

  function Without(devices: seq<Device>, id: DeviceId): (kept: seq<Device>)
    ensures |kept| <= |devices|
    ensures forall d :: d in kept <==> d in devices && d.id != id
    ensures |kept| == |devices| <==> forall d :: d in devices ==> d.id != id
    ensures |kept| == |devices| ==> kept == devices
  {
    if devices == [] then []
    else
      var rest := Without(devices[1..], id);
      assert forall d :: d in devices <==> d == devices[0] || d in devices[1..];
      if devices[0].id == id then rest else [devices[0]] + rest
  }

  function Revoke(r: Registry, id: DeviceId, key: Key): (Registry, Option<seq<Delivery>>) {
    var kept := Without(r.devices, id);
    if |kept| == |r.devices| then (r, None)
    else
      var (r', deliveries) := Rotate(r.(devices := kept), key);
      (r', Some(deliveries))
  }

  function ForgetRetired(r: Registry): Registry {
    r.(retired := [])
  }

  // ---- Runs ------------------------------------------------------------------

  datatype Event =
    | IssueSecret(secret: Secret, now: int, ttl: int)
    | SayHello(publicKey: PublicKey, proof: Proof, name: Option<string>, id: DeviceId, now: int)
    | Trust(publicKey: PublicKey, name: Option<string>, id: DeviceId)
    | RevokeDevice(id: DeviceId, key: Key)
    | RotateKey(key: Key)
    | ForgetKeys

  /** given, keys, ids, issued and admitted are history: who was handed which room key, every key and
      device id used, every secret issued, and every secret that let a device in. */
  datatype World = World(r: Registry, given: set<(PublicKey, Key)>, keys: set<Key>, ids: set<DeviceId>,
    issued: set<Secret>, admitted: set<Secret>)

  function Start(key: Key): World {
    World(Registry([], key, [], map[]), {}, {key}, {}, {}, {})
  }

  function Given(deliveries: seq<Delivery>): set<(PublicKey, Key)> {
    set d | d in deliveries :: (d.to, d.key)
  }

  function Handed(delivery: Option<Delivery>): set<(PublicKey, Key)> {
    if delivery.Some? then {(delivery.value.to, delivery.value.key)} else {}
  }

  function Do(w: World, e: Event): World {
    match e
    case IssueSecret(secret, now, ttl) =>
      if secret in w.issued then w
      else w.(r := Issue(w.r, secret, now, ttl), issued := w.issued + {secret})
    case SayHello(publicKey, proof, name, id, now) =>
      if id in w.ids then w
      else
        var (r, welcome) := Hello(w.r, publicKey, proof, name, id, now);
        w.(r := r, given := w.given + Handed(welcome), ids := w.ids + {id},
           admitted := w.admitted + if welcome.Some? then {proof.secret} else {})
    case Trust(publicKey, name, id) =>
      if id in w.ids then w
      else
        var (r, welcome) := Welcome(w.r, publicKey, name, id);
        w.(r := r, given := w.given + Handed(welcome), ids := w.ids + {id})
    case RevokeDevice(id, key) =>
      if key in w.keys then w
      else
        var (r, deliveries) := Revoke(w.r, id, key);
        w.(r := r, given := w.given + (if deliveries.Some? then Given(deliveries.value) else {}), keys := w.keys + {key})
    case RotateKey(key) =>
      if key in w.keys then w
      else
        var (r, deliveries) := Rotate(w.r, key);
        w.(r := r, given := w.given + Given(deliveries), keys := w.keys + {key})
    case ForgetKeys => w.(r := ForgetRetired(w.r))
  }

  function Run(key: Key, events: seq<Event>): World {
    if events == [] then Start(key) else Do(Run(key, events[..|events| - 1]), events[|events| - 1])
  }

  predicate Linked(r: Registry, publicKey: PublicKey) {
    exists i :: 0 <= i < |r.devices| && r.devices[i].publicKey == publicKey
  }

  ghost predicate DevicesDiffer(devices: seq<Device>) {
    forall i, j :: 0 <= i < j < |devices| ==>
      devices[i].id != devices[j].id && devices[i].publicKey != devices[j].publicKey
  }

  ghost predicate KeysOk(w: World) {
    w.r.room in w.keys && w.r.room !in w.r.retired && |w.r.retired| <= MAX_RETIRED_ROOM_KEYS &&
    (forall k :: k in w.r.retired ==> k in w.keys) &&
    (forall g :: g in w.given ==> g.1 in w.keys) &&
    (forall i, j :: 0 <= i < j < |w.r.retired| ==> w.r.retired[i] != w.r.retired[j])
  }

  ghost predicate HoldersOk(w: World) {
    forall p :: (p, w.r.room) in w.given <==> Linked(w.r, p)
  }

  ghost predicate DevicesOk(w: World) {
    DevicesDiffer(w.r.devices) && forall d :: d in w.r.devices ==> d.id in w.ids && d.publicKey != ""
  }

  ghost predicate SecretsOk(w: World) {
    w.r.pending.Keys + w.admitted <= w.issued && w.r.pending.Keys !! w.admitted
  }

  ghost predicate Inv(w: World) {
    KeysOk(w) && HoldersOk(w) && DevicesOk(w) && SecretsOk(w)
  }

  /** A welcomed device is linked and holds the current key; nobody else changes. */
  lemma WelcomeOk(w: World, publicKey: PublicKey, name: Option<string>, id: DeviceId, w': World)
    requires KeysOk(w) && HoldersOk(w) && DevicesOk(w) && id !in w.ids
    requires var (r, welcome) := Welcome(w.r, publicKey, name, id);
      w'.r.devices == r.devices && w'.r.room == r.room && w'.r.retired == r.retired && w'.given == w.given + Handed(welcome)
    requires w'.keys == w.keys && w'.ids == w.ids + {id}
    ensures KeysOk(w') && HoldersOk(w') && DevicesOk(w')
  {
    if publicKey != "" {
      var k := Find(w.r.devices, publicKey);
      forall p ensures (p, w'.r.room) in w'.given <==> Linked(w'.r, p) {
        assert (p, w'.r.room) in w'.given <==> (p, w.r.room) in w.given || p == publicKey;
        if k < |w.r.devices| {
          assert w'.r.devices == w.r.devices;
        } else {
          var d := w'.r.devices[|w.r.devices|];
          assert d.publicKey == publicKey;
          assert forall i :: 0 <= i < |w.r.devices| ==> w'.r.devices[i] == w.r.devices[i];
        }
      }
    }
  }

  lemma {:induction false} WithoutDiffer(devices: seq<Device>, id: DeviceId)
    requires DevicesDiffer(devices)
    ensures DevicesDiffer(Without(devices, id))
  {
    if devices != [] {
      WithoutDiffer(devices[1..], id);
      var rest := Without(devices[1..], id);
      forall d | d in rest ensures d.id != devices[0].id && d.publicKey != devices[0].publicKey {
        assert d in devices[1..];
      }
    }
  }

  /** Rotating hands the new key, which nobody had, to every linked device. */
  lemma RotateOk(w: World, devices: seq<Device>, key: Key, w': World)
    requires KeysOk(w) && key !in w.keys && DevicesDiffer(devices)
    requires forall d :: d in devices ==> d.id in w.ids && d.publicKey != ""
    requires w'.r.devices == devices && w'.r.room == key && w'.r.retired == Newest([w.r.room] + w.r.retired)
    requires w'.given == w.given + Given(Deliveries(devices, key)) && w'.keys == w.keys + {key} && w'.ids == w.ids
    ensures KeysOk(w') && HoldersOk(w') && DevicesOk(w')
  {
    var handed := Deliveries(devices, key);
    forall p ensures (p, key) in w'.given <==> Linked(w'.r, p) {
      assert (p, key) !in w.given;
      if Linked(w'.r, p) {
        var i :| 0 <= i < |devices| && devices[i].publicKey == p;
        assert handed[i] in handed && (handed[i].to, handed[i].key) == (p, key);
      }
      if (p, key) in Given(handed) {
        var d :| d in handed && (d.to, d.key) == (p, key);
        var i :| 0 <= i < |handed| && handed[i] == d;
        assert devices[i].publicKey == p;
      }
    }
    forall g | g in w'.given ensures g.1 in w'.keys {
      if g !in w.given {
        var d :| d in handed && (d.to, d.key) == g;
      }
    }
  }

  lemma DoOk(w: World, e: Event)
    requires Inv(w)
    ensures Inv(Do(w, e))
  {
    match e
    case IssueSecret(secret, now, ttl) =>
    case SayHello(publicKey, proof, name, id, now) =>
      HelloOk(w, publicKey, proof, name, id, now);
    case Trust(publicKey, name, id) =>
      if id !in w.ids {
        WelcomeOk(w, publicKey, name, id, Do(w, e));
      }
    case RevokeDevice(id, key) =>
      var kept := Without(w.r.devices, id);
      if key !in w.keys && |kept| < |w.r.devices| {
        WithoutDiffer(w.r.devices, id);
        RotateOk(w, kept, key, Do(w, e));
      }
    case RotateKey(key) =>
      if key !in w.keys {
        RotateOk(w, w.r.devices, key, Do(w, e));
      }
    case ForgetKeys =>
  }

  lemma HelloOk(w: World, publicKey: PublicKey, proof: Proof, name: Option<string>, id: DeviceId, now: int)
    requires Inv(w)
    ensures Inv(Do(w, SayHello(publicKey, proof, name, id, now)))
  {
    var w' := Do(w, SayHello(publicKey, proof, name, id, now));
    if id !in w.ids {
      var swept := Sweep(w.r, now);
      if Hello(w.r, publicKey, proof, name, id, now).1.Some? {
        var spent := swept.(pending := swept.pending - {proof.secret});
        WelcomeOk(w.(r := spent), publicKey, name, id, w');
        hide KeysOk, HoldersOk, DevicesOk;
        assert w'.r.pending == spent.pending;
      } else {
        assert w'.r == swept;
      }
    }
  }

  lemma {:induction false} RunOk(key: Key, events: seq<Event>)
    ensures Inv(Run(key, events))
  {
    hide Do;
    if events != [] {
      RunOk(key, events[..|events| - 1]);
      hide Inv;
      DoOk(Run(key, events[..|events| - 1]), events[|events| - 1]);
    }
  }

  // ---- Theorems --------------------------------------------------------------

  /** After any sequence of pairings, revocations and rotations, exactly the linked devices have been
      handed the current room key. */
  lemma CurrentKeyHolders(key: Key, events: seq<Event>, publicKey: PublicKey)
    ensures var w := Run(key, events); (publicKey, w.r.room) in w.given <==> Linked(w.r, publicKey)
  {
    RunOk(key, events);
  }

  /** Every key is handed over wrapped for the device it is meant for: a revocation that finds the
      device drops it alone and delivers the new key, under its own public key, to each that stays. */
  lemma RevokeReaches(key: Key, events: seq<Event>, id: DeviceId, next: Key)
    ensures var r := Run(key, events).r; var (r', deliveries) := Revoke(r, id, next);
      if forall d :: d in r.devices ==> d.id != id then r' == r && deliveries.None?
      else
        deliveries.Some? && r'.room == next && |deliveries.value| == |r'.devices| == |r.devices| - 1 &&
        (forall d :: d in r'.devices <==> d in r.devices && d.id != id) &&
        (forall d :: d in r'.devices ==> Delivery(d.id, d.publicKey, ForRotation, next) in deliveries.value)
  {
    RunOk(key, events);
    var r := Run(key, events).r;
    WithoutOne(r.devices, id);
    var kept := Without(r.devices, id);
    forall d | d in kept ensures Delivery(d.id, d.publicKey, ForRotation, next) in Deliveries(kept, next) {
      var i :| 0 <= i < |kept| && kept[i] == d;
      assert Deliveries(kept, next)[i] == Delivery(d.id, d.publicKey, ForRotation, next);
    }
  }

  lemma {:induction false} WithoutOne(devices: seq<Device>, id: DeviceId)
    requires DevicesDiffer(devices)
    ensures |Without(devices, id)| >= |devices| - 1
  {
    if devices != [] {
      if devices[0].id == id {
        assert forall d :: d in devices[1..] ==> d.id != id;
      } else {
        WithoutOne(devices[1..], id);
      }
    }
  }

  /** The event lets the device in, or asks for it again. */
  predicate Admits(e: Event, publicKey: PublicKey) {
    (e.SayHello? && e.publicKey == publicKey) || (e.Trust? && e.publicKey == publicKey)
  }

  lemma StaysOutOneStep(w: World, e: Event, publicKey: PublicKey)
    requires Inv(w) && !Linked(w.r, publicKey) && !Admits(e, publicKey)
    ensures !Linked(Do(w, e).r, publicKey)
    ensures forall k :: (publicKey, k) in Do(w, e).given ==> (publicKey, k) in w.given
  {
    var w' := Do(w, e);
    forall i | 0 <= i < |w'.r.devices| ensures w'.r.devices[i].publicKey != publicKey {
      var d := w'.r.devices[i];
      assert d in w.r.devices || d.publicKey != publicKey;
    }
    if e.RotateKey? || e.RevokeDevice? {
      var handed := Deliveries(w'.r.devices, e.key);
      assert forall d :: d in handed ==> d.to != publicKey;
    }
  }

  /** A device that is not linked, such as one just revoked, gets no key at all, and stays unlinked,
      until it is let in again. */
  lemma {:induction false} RevokedGetsNothing(key: Key, events: seq<Event>, more: seq<Event>, publicKey: PublicKey)
    requires !Linked(Run(key, events).r, publicKey)
    requires forall e :: e in more ==> !Admits(e, publicKey)
    ensures var w := Run(key, events + more);
      !Linked(w.r, publicKey) && (publicKey, w.r.room) !in w.given &&
      forall k :: (publicKey, k) in w.given ==> (publicKey, k) in Run(key, events).given
  {
    hide Do, Linked;
    CurrentKeyHolders(key, events + more, publicKey);
    if more == [] {
      assert events + more == events;
    } else {
      var init, last := more[..|more| - 1], more[|more| - 1];
      assert last in more && forall e :: e in init ==> e in more;
      RevokedGetsNothing(key, events, init, publicKey);
      assert (events + more)[..|events + more| - 1] == events + init;
      RunOk(key, events + init);
      StaysOutOneStep(Run(key, events + init), last, publicKey);
    }
  }

  /** Until when a secret was issued, the first time it was. */
  function Expiry(events: seq<Event>, secret: Secret): Option<int> {
    if events == [] then None
    else
      var last, before := events[|events| - 1], Expiry(events[..|events| - 1], secret);
      if before.Some? then before
      else if last.IssueSecret? && last.secret == secret then Some(last.now + last.ttl) else None
  }

  /** Nothing happened after now. */
  predicate UpTo(events: seq<Event>, now: int) {
    forall e :: e in events ==> (e.IssueSecret? ==> e.now <= now) && (e.SayHello? ==> e.now <= now)
  }

  /** What is pending was issued until then; what was issued beyond now and never used is pending. */
  ghost predicate PendingOk(w: World, expiry: Option<int>, secret: Secret, now: int) {
    (secret in w.issued <==> expiry.Some?) && (secret in w.r.pending ==> expiry == Some(w.r.pending[secret])) &&
    (expiry.Some? && expiry.value >= now && secret !in w.admitted ==> secret in w.r.pending)
  }

  function Later(expiry: Option<int>, e: Event, secret: Secret): Option<int> {
    if expiry.None? && e.IssueSecret? && e.secret == secret then Some(e.now + e.ttl) else expiry
  }

  lemma PendingIssue(w: World, expiry: Option<int>, e: Event, secret: Secret, now: int)
    requires SecretsOk(w) && PendingOk(w, expiry, secret, now) && e.IssueSecret? && e.now <= now
    ensures PendingOk(Do(w, e), Later(expiry, e, secret), secret, now)
  {}

  lemma PendingHello(w: World, expiry: Option<int>, e: Event, secret: Secret, now: int)
    requires PendingOk(w, expiry, secret, now) && e.SayHello? && e.now <= now
    ensures PendingOk(Do(w, e), expiry, secret, now)
  {
    hide Find, LabelOf;
  }

  lemma PendingOther(w: World, expiry: Option<int>, e: Event, secret: Secret, now: int)
    requires PendingOk(w, expiry, secret, now) && !e.IssueSecret? && !e.SayHello?
    ensures PendingOk(Do(w, e), expiry, secret, now)
  {
    hide Find, LabelOf, Without, Deliveries, Newest;
  }

  lemma PendingStep(w: World, expiry: Option<int>, e: Event, secret: Secret, now: int)
    requires SecretsOk(w) && PendingOk(w, expiry, secret, now) && UpTo([e], now)
    ensures PendingOk(Do(w, e), Later(expiry, e, secret), secret, now)
  {
    assert e in [e];
    hide PendingOk, Do, SecretsOk;
    if e.IssueSecret? {
      PendingIssue(w, expiry, e, secret, now);
    } else if e.SayHello? {
      PendingHello(w, expiry, e, secret, now);
    } else {
      PendingOther(w, expiry, e, secret, now);
    }
  }

  lemma {:induction false} PendingAlways(key: Key, events: seq<Event>, secret: Secret, now: int)
    requires UpTo(events, now)
    ensures PendingOk(Run(key, events), Expiry(events, secret), secret, now)
  {
    if events != [] {
      var init, last := events[..|events| - 1], events[|events| - 1];
      assert last in events && forall e :: e in init ==> e in events;
      hide Do, PendingOk;
      PendingAlways(key, init, secret, now);
      RunOk(key, init);
      assert SecretsOk(Run(key, init));
      hide Inv, SecretsOk;
      PendingStep(Run(key, init), Expiry(init, secret), last, secret, now);
    }
  }

  /** After any history a greeting is welcomed just when it carries a public key and a proof made for that
      key with a secret that was issued until now or later and has let no device in. */
  lemma WelcomedJustWhen(key: Key, events: seq<Event>, publicKey: PublicKey, proof: Proof, name: Option<string>,
      id: DeviceId, now: int)
    requires UpTo(events, now)
    ensures var w := Run(key, events);
      Hello(w.r, publicKey, proof, name, id, now).1.Some? <==>
        (publicKey != "" && proof.ProofOf? && proof.publicKey == publicKey && proof.secret !in w.admitted &&
         Expiry(events, proof.secret).Some? && Expiry(events, proof.secret).value >= now)
  {
    if proof.ProofOf? {
      RunOk(key, events);
      PendingAlways(key, events, proof.secret, now);
    }
  }

  lemma SpentOneStep(w: World, e: Event, secret: Secret)
    requires Inv(w) && secret in w.admitted
    ensures secret in Do(w, e).admitted
  {}

  /** A secret that let a device in never lets another in. */
  lemma {:induction false} SecretsAreSingleUse(key: Key, events: seq<Event>, more: seq<Event>, secret: Secret)
    requires secret in Run(key, events).admitted
    ensures secret in Run(key, events + more).admitted
    ensures secret !in Run(key, events + more).r.pending
  {
    hide Do;
    RunOk(key, events + more);
    if more == [] {
      assert events + more == events;
    } else {
      var init, last := more[..|more| - 1], more[|more| - 1];
      SecretsAreSingleUse(key, events, init, secret);
      assert (events + more)[..|events + more| - 1] == events + init;
      RunOk(key, events + init);
      SpentOneStep(Run(key, events + init), last, secret);
    }
  }
}
