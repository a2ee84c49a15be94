/** The pairing store as the object the source has, updated in place; each method is proved to take
    the step of the same name. */
module DeviceRegistryObjects {
  import opened Wrappers
  import opened DeviceRegistry

  class PairingStore {
    var devices: seq<Device>
    var roomKey: Key
    var retiredRoomKeys: seq<Key>
    var pendingSecrets: map<Secret, int>

    ghost function State(): Registry
      reads this
    {
      Registry(devices, roomKey, retiredRoomKeys, pendingSecrets)
    }

    /** The first start: a fresh or seeded room key, no devices. */
    constructor (key: Key)
      ensures State() == Start(key).r
    {
      devices := [];
      roomKey := key;
      retiredRoomKeys := [];
      pendingSecrets := map[];
    }

    method SweepSecrets(now: int)
      modifies `pendingSecrets
      ensures State() == Sweep(old(State()), now)
    {
      var todo := pendingSecrets.Keys;
      while todo != {}
        invariant todo <= pendingSecrets.Keys <= old(pendingSecrets).Keys
        invariant forall s :: s in old(pendingSecrets) && s !in todo ==>
          (s in pendingSecrets <==> old(pendingSecrets)[s] >= now)
        invariant forall s :: s in pendingSecrets ==> pendingSecrets[s] == old(pendingSecrets)[s]
        decreases |todo|
      {
        var secret :| secret in todo;
        todo := todo - {secret};
        if pendingSecrets[secret] < now {
          pendingSecrets := pendingSecrets - {secret};
        }
      }
      assert pendingSecrets == Sweep(old(State()), now).pending;
    }

    method IssuePairSecret(secret: Secret, now: int, ttl: int)
      modifies `pendingSecrets
      ensures State() == Issue(old(State()), secret, now, ttl)
    {
      SweepSecrets(now);
      pendingSecrets := pendingSecrets[secret := now + ttl];
    }

    method WelcomeForTrustedDevice(publicKey: PublicKey, name: Option<string>, id: DeviceId)
        returns (welcome: Option<Delivery>)
      modifies `devices
      ensures (State(), welcome) == Welcome(old(State()), publicKey, name, id)
    {
      if publicKey == "" {
        return None;
      }
      var k := Find(devices, publicKey);
      var device := if k < |devices| then devices[k] else Device(id, publicKey, LabelOf(name));
      if k == |devices| {
        devices := devices + [device];
      }
      return Some(Delivery(device.id, publicKey, ForPairing, roomKey));
    }

    method HandleHello(publicKey: PublicKey, proof: Proof, name: Option<string>, id: DeviceId, now: int)
        returns (welcome: Option<Delivery>)
      modifies `devices, `pendingSecrets
      ensures (State(), welcome) == Hello(old(State()), publicKey, proof, name, id, now)
    {
      SweepSecrets(now);
      if publicKey == "" || proof.NoProof? {
        return None;
      }
      var matched: Option<Secret> := None;
      var todo := pendingSecrets.Keys;
      while todo != {} && matched.None?
        invariant todo <= pendingSecrets.Keys
        invariant matched.Some? ==> matched.value in pendingSecrets && proof == ProofOf(matched.value, publicKey)
        invariant matched.None? ==>
          forall s :: s in pendingSecrets && s !in todo ==> proof != ProofOf(s, publicKey)
        decreases |todo|
      {
        var secret :| secret in todo;
        todo := todo - {secret};
        if proof == ProofOf(secret, publicKey) {
          matched := Some(secret);
        }
      }
      if matched.None? {
        return None;
      }
      pendingSecrets := pendingSecrets - {matched.value};
      welcome := WelcomeForTrustedDevice(publicKey, name, id);
    }

    method RotateRoomKey(key: Key) returns (deliveries: seq<Delivery>)
      modifies `roomKey, `retiredRoomKeys
      ensures (State(), deliveries) == Rotate(old(State()), key)
    {
      retiredRoomKeys := Newest([roomKey] + retiredRoomKeys);
      roomKey := key;
      return Deliveries(devices, roomKey);
    }

    method DoRevokeDevice(id: DeviceId, key: Key) returns (deliveries: Option<seq<Delivery>>)
      modifies `devices, `roomKey, `retiredRoomKeys
      ensures (State(), deliveries) == Revoke(old(State()), id, key)
    {
      var before := |devices|;
      devices := Without(devices, id);
      if |devices| == before {
        return None;
      }
      var rotated := RotateRoomKey(key);
      return Some(rotated);
    }

    method ForgetRetiredRoomKeys()
      modifies `retiredRoomKeys
      ensures State() == ForgetRetired(old(State()))
    {
      retiredRoomKeys := [];
    }
  }
}
