/** Several pollers, a control plane and a clock: at most one node holds an active, claimed run of
    an item. The control plane is known by its contract only: it grants a claim when no lease of the
    item is unexpired (a lease covers its last millisecond), a renewal never shortens a lease, and
    an item that reached a terminal state is not granted again. Replies may be late or lost. */
module Fleet {
  import opened Wrappers
  import opened Numbers
  import opened PollerSteps
  import opened PollerSafety

  type NodeId = nat

  datatype Lease = Lease(holder: Option<Token>, expiry: int, terminal: bool)
  datatype Grantee = Grantee(node: NodeId, id: Id, serial: nat)

  /** A reply on its way to a node. Either may lack an expiry. */
  datatype Msg =
    | ClaimMsg(to: Grantee, token: Token, expiry: Option<int>, attempt: int, maxAttempts: int)
    | RenewMsg(to: Grantee, token: Token, expiry: Option<int>)

  /** grants is history: who each token was made for. */
  datatype Sys = Sys(now: int, nodes: map<NodeId, Node>, leases: map<Id, Lease>, msgs: set<Msg>, grants: map<Token, Grantee>)

  datatype Step =
    | Wait(until: int)
    | GrantClaim(to: Grantee, token: Token, lease: int, told: bool, attempt: int, maxAttempts: int)
    | Renew(id: Id, lease: int, told: bool)
    | Close(id: Id)
    | Deliver(msg: Msg)
    | Local(node: NodeId, event: Event)

  function LeaseOf(s: Sys, id: Id): Lease {
    if id in s.leases then s.leases[id] else Lease(None, 0, false)
  }

  predicate TimerSet(n: Node, id: Id) {
    id in n.inFlight && n.inFlight[id].state == Active && n.inFlight[id].deadline.Some?
  }

  /** Timers fire when due: time does not pass the deadline of an active run. */
  ghost predicate MayWait(s: Sys, until: int) {
    s.now <= until &&
    forall n, id :: n in s.nodes && TimerSet(s.nodes[n], id) ==> until <= s.nodes[n].inFlight[id].deadline.value
  }

  /** Claims and renewals arrive as messages; every other event of a node may come at any time.
      A renewal without a message is one for a run that never was given a token. */
  predicate IsLocal(n: Node, e: Event) {
    match e
    case ClaimAnswer(_, _, claim) => claim.Denied? || claim.token.None?
    case HeartbeatAnswer(id, _, lease) => lease.Renewed? ==> id in n.inFlight && n.inFlight[id].token.None?
    case _ => true
  }

  ghost function Do(s: Sys, step: Step): Sys {
    match step
    case Wait(until) => if MayWait(s, until) then s.(now := until) else s
    case GrantClaim(to, token, lease, told, attempt, maxAttempts) =>
      var l := LeaseOf(s, to.id);
      if l.terminal || (l.holder.Some? && s.now <= l.expiry) || token in s.grants then s
      else s.(leases := s.leases[to.id := Lease(Some(token), lease, false)],
              grants := s.grants[token := to],
              msgs := s.msgs + {ClaimMsg(to, token, if told then Some(lease) else None, attempt, maxAttempts)})
    case Renew(id, lease, told) =>
      var l := LeaseOf(s, id);
      if l.holder.None? || l.holder.value !in s.grants || lease < l.expiry then s
      else s.(leases := s.leases[id := l.(expiry := lease)],
              msgs := s.msgs + {RenewMsg(s.grants[l.holder.value], l.holder.value, if told then Some(lease) else None)})
    case Close(id) => s.(leases := s.leases[id := LeaseOf(s, id).(terminal := true)])
    case Deliver(msg) =>
      if msg !in s.msgs || msg.to.node !in s.nodes then s
      else
        var n := s.nodes[msg.to.node];
        var e := match msg
          case ClaimMsg(to, token, expiry, attempt, maxAttempts) =>
            ClaimAnswer(to.id, to.serial, Claimed(Some(token), expiry, attempt, maxAttempts))
          case RenewMsg(to, token, expiry) => HeartbeatAnswer(to.id, to.serial, Renewed(expiry));
        s.(nodes := s.nodes[msg.to.node := Handle(n, e, s.now)])
    case Local(node, event) =>
      if node !in s.nodes || !IsLocal(s.nodes[node], event) then s
      else s.(nodes := s.nodes[node := Handle(s.nodes[node], event, s.now)])
  }

  ghost function Exec(s: Sys, steps: seq<Step>): Sys {
    if steps == [] then s else Do(Exec(s, steps[..|steps| - 1]), steps[|steps| - 1])
  }

  // ---- The invariant -----------------------------------------------------

  /** This run is the one the current lease was granted to, and its timer ends with the lease. */
  ghost predicate Backed(s: Sys, node: NodeId, id: Id, run: Run) {
    var l := LeaseOf(s, id);
    l.holder.Some? && l.holder.value in s.grants && s.grants[l.holder.value] == Grantee(node, id, run.serial) &&
    run.deadline.Some? && s.now <= run.deadline.value <= l.expiry
  }

  ghost predicate NodesOk(s: Sys) {
    forall n, id :: n in s.nodes && Holds(s.nodes[n], id) ==> Backed(s, n, id, s.nodes[n].inFlight[id])
  }

  /** What a message promises: the lease it names is still the current one, or has run out. */
  ghost predicate Honest(s: Sys, m: Msg) {
    m.expiry.Some? && s.now < m.expiry.value ==>
      var l := LeaseOf(s, m.to.id);
      l.holder.Some? && l.holder.value in s.grants && s.grants[l.holder.value] == m.to && m.expiry.value <= l.expiry
  }

  ghost predicate FleetInv(s: Sys) {
    NodesOk(s) &&
    (forall m :: m in s.msgs ==> Honest(s, m)) &&
    (forall id :: id in s.leases && s.leases[id].holder.Some? ==>
       s.leases[id].holder.value in s.grants && s.grants[s.leases[id].holder.value].id == id) &&
    (forall n :: n in s.nodes ==> Inv(s.nodes[n]))
  }

  // ---- Preservation ------------------------------------------------------

  lemma WaitOk(s: Sys, until: int)
    requires FleetInv(s)
    ensures FleetInv(Do(s, Wait(until)))
  {
    hide Inv;
    if MayWait(s, until) {
      var s' := s.(now := until);
      forall n, id | n in s.nodes && Holds(s.nodes[n], id) ensures Backed(s', n, id, s.nodes[n].inFlight[id]) {
        assert Backed(s, n, id, s.nodes[n].inFlight[id]);
        assert TimerSet(s.nodes[n], id);
      }
      forall m | m in s.msgs ensures Honest(s', m) {
        assert Honest(s, m);
      }
    }
  }

  lemma GrantOk(s: Sys, to: Grantee, token: Token, lease: int, told: bool, attempt: int, maxAttempts: int)
    requires FleetInv(s)
    ensures FleetInv(Do(s, GrantClaim(to, token, lease, told, attempt, maxAttempts)))
  {
    hide Inv;
    var l := LeaseOf(s, to.id);
    if !(l.terminal || (l.holder.Some? && s.now <= l.expiry) || token in s.grants) {
      var s' := Do(s, GrantClaim(to, token, lease, told, attempt, maxAttempts));
      forall n, id | n in s.nodes && Holds(s.nodes[n], id) ensures Backed(s', n, id, s.nodes[n].inFlight[id]) {
        assert Backed(s, n, id, s.nodes[n].inFlight[id]);
      }
      forall m | m in s'.msgs ensures Honest(s', m) {
        if m in s.msgs { assert Honest(s, m); }
      }
    }
  }

  lemma RenewOk(s: Sys, id: Id, lease: int, told: bool)
    requires FleetInv(s)
    ensures FleetInv(Do(s, Renew(id, lease, told)))
    ensures FleetInv(Do(s, Close(id)))
  {
    hide Inv;
    var s1, s2 := Do(s, Renew(id, lease, told)), Do(s, Close(id));
    forall n, k | n in s.nodes && Holds(s.nodes[n], k)
      ensures Backed(s1, n, k, s.nodes[n].inFlight[k]) && Backed(s2, n, k, s.nodes[n].inFlight[k])
    {
      assert Backed(s, n, k, s.nodes[n].inFlight[k]);
    }
    forall m | m in s1.msgs ensures Honest(s1, m) {
      if m in s.msgs { assert Honest(s, m); }
    }
    forall m | m in s.msgs ensures Honest(s2, m) {
      assert Honest(s, m);
    }
  }

  /** A node step that confirms nothing leaves every claimed run as it was. */
  lemma NodeStepOk(s: Sys, node: NodeId, e: Event)
    requires FleetInv(s) && node in s.nodes
    requires forall id :: Holds(Handle(s.nodes[node], e, s.now), id) && Confirms(s.nodes[node], e, id) ==>
      Backed(s, node, id, Handle(s.nodes[node], e, s.now).inFlight[id])
    ensures FleetInv(s.(nodes := s.nodes[node := Handle(s.nodes[node], e, s.now)]))
  {
    hide Inv, Handle, Confirms;
    var n, n' := s.nodes[node], Handle(s.nodes[node], e, s.now);
    var s' := s.(nodes := s.nodes[node := n']);
    HandleOk(n, e, s.now);
    forall k, id | k in s'.nodes && Holds(s'.nodes[k], id) ensures Backed(s', k, id, s'.nodes[k].inFlight[id]) {
      if k == node {
        EveryStep(n, e, s.now, id);
        assert Holds(n, id) ==> Backed(s, node, id, n.inFlight[id]);
      } else {
        assert Backed(s, k, id, s.nodes[k].inFlight[id]);
      }
    }
    forall m | m in s'.msgs ensures Honest(s', m) {
      assert Honest(s, m);
    }
  }

  /** The timer a confirmed lease sets ends with the lease; a lease that has run out loses the run. */
  lemma ConfirmedRun(s: Sys, m: Msg, run: Run)
    requires FleetInv(s) && m in s.msgs && run.serial == m.to.serial && run.token.Some?
    requires SetLeaseDeadline(run, m.expiry, s.now).state == Active
    ensures Backed(s, m.to.node, m.to.id, SetLeaseDeadline(run, m.expiry, s.now))
  {
    assert Honest(s, m);
    TimerWithinLease(m.expiry.value - s.now);
  }

  lemma DeliverOk(s: Sys, m: Msg)
    requires FleetInv(s)
    ensures FleetInv(Do(s, Deliver(m)))
  {
    hide FleetInv, Backed, Honest;
    if m in s.msgs && m.to.node in s.nodes {
      var n := s.nodes[m.to.node];
      match m {
        case ClaimMsg(to, token, expiry, attempt, maxAttempts) =>
          var e := ClaimAnswer(to.id, to.serial, Claimed(Some(token), expiry, attempt, maxAttempts));
          if Holds(Handle(n, e, s.now), to.id) { ClaimRun(s, m); }
          NodeStepOk(s, to.node, e);
        case RenewMsg(to, token, expiry) =>
          var e := HeartbeatAnswer(to.id, to.serial, Renewed(expiry));
          if Holds(Handle(n, e, s.now), to.id) && Renews(n, to.id, Renewed(expiry)) { RenewRun(s, m); }
          NodeStepOk(s, to.node, e);
      }
    }
  }

  lemma ClaimRun(s: Sys, m: Msg)
    requires FleetInv(s) && m in s.msgs && m.ClaimMsg? && m.to.node in s.nodes
    requires Holds(OnClaim(s.nodes[m.to.node], m.to.id, m.to.serial, Claimed(Some(m.token), m.expiry, m.attempt, m.maxAttempts), s.now), m.to.id)
    ensures Backed(s, m.to.node, m.to.id,
      OnClaim(s.nodes[m.to.node], m.to.id, m.to.serial, Claimed(Some(m.token), m.expiry, m.attempt, m.maxAttempts), s.now).inFlight[m.to.id])
  {
    hide Inv, Honest;
    var n, id := s.nodes[m.to.node], m.to.id;
    if At(n, id, m.to.serial, Claiming) {
      var first := Max(1, m.attempt);
      ConfirmedRunIf(s, m, n.inFlight[id].(token := Some(m.token), phase := Starting,
        start := first, attempt := first, limit := Limit(m.maxAttempts)));
    } else {
      assert Backed(s, m.to.node, id, n.inFlight[id]);
    }
  }

  lemma RenewRun(s: Sys, m: Msg)
    requires FleetInv(s) && m in s.msgs && m.RenewMsg? && m.to.node in s.nodes
    requires Holds(OnHeartbeat(s.nodes[m.to.node], m.to.id, m.to.serial, Renewed(m.expiry), s.now), m.to.id)
    ensures Backed(s, m.to.node, m.to.id, OnHeartbeat(s.nodes[m.to.node], m.to.id, m.to.serial, Renewed(m.expiry), s.now).inFlight[m.to.id])
  {
    hide Inv, Honest;
    var n, id := s.nodes[m.to.node], m.to.id;
    if id in n.inFlight && n.inFlight[id].serial == m.to.serial && n.inFlight[id].state == Active {
      if n.inFlight[id].token.Some? { ConfirmedRunIf(s, m, n.inFlight[id]); }
    } else {
      assert Backed(s, m.to.node, id, n.inFlight[id]);
    }
  }

  lemma ConfirmedRunIf(s: Sys, m: Msg, run: Run)
    requires FleetInv(s) && m in s.msgs && run.serial == m.to.serial && run.token.Some?
    ensures SetLeaseDeadline(run, m.expiry, s.now).state == Active ==>
      Backed(s, m.to.node, m.to.id, SetLeaseDeadline(run, m.expiry, s.now))
  {
    hide FleetInv, Backed;
    if SetLeaseDeadline(run, m.expiry, s.now).state == Active { ConfirmedRun(s, m, run); }
  }

  lemma LocalOk(s: Sys, node: NodeId, e: Event)
    requires FleetInv(s)
    ensures FleetInv(Do(s, Local(node, e)))
  {
    hide FleetInv, Handle;
    if node in s.nodes && IsLocal(s.nodes[node], e) { NodeStepOk(s, node, e); }
  }

  lemma {:induction false} FleetOk(s: Sys, steps: seq<Step>)
    requires FleetInv(s)
    ensures FleetInv(Exec(s, steps))
  {
    hide FleetInv, Do;
    if steps != [] {
      var before := Exec(s, steps[..|steps| - 1]);
      FleetOk(s, steps[..|steps| - 1]);
      match steps[|steps| - 1] {
        case Wait(until) => WaitOk(before, until);
        case GrantClaim(to, token, lease, told, attempt, maxAttempts) => GrantOk(before, to, token, lease, told, attempt, maxAttempts);
        case Renew(id, lease, told) => RenewOk(before, id, lease, told);
        case Close(id) => RenewOk(before, id, 0, false);
        case Deliver(msg) => DeliverOk(before, msg);
        case Local(node, event) => LocalOk(before, node, event);
      }
    }
  }

  /** A fleet in which nothing has happened yet. */
  ghost predicate Initial(s: Sys) {
    s.msgs == {} && s.leases == map[] && s.grants == map[] &&
    forall n :: n in s.nodes ==> s.nodes[n].inFlight == map[] && Inv(s.nodes[n])
  }

  /** In every reachable state, at most one node holds an active claimed run of an item. */
  lemma OneActiveRun(s: Sys, steps: seq<Step>, id: Id, a: NodeId, b: NodeId)
    requires Initial(s)
    requires var t := Exec(s, steps); a in t.nodes && b in t.nodes && Holds(t.nodes[a], id) && Holds(t.nodes[b], id)
    ensures a == b
  {
    hide Inv;
    var t := Exec(s, steps);
    FleetOk(s, steps);
    assert Backed(t, a, id, t.nodes[a].inFlight[id]) && Backed(t, b, id, t.nodes[b].inFlight[id]);
  }
}
