/** The delegation service as the object the source has: the lock's map, the calls and asks in progress
    with their local variables, and the cache of runs a session has seen. */
module DelegationObjects {
  import opened Wrappers
  import opened TextCodec
  import opened DelegationSource
  import opened DelegationStamp
  import opened Delegation
  import opened DelegationViews

  const MAX_WAIT_SECONDS: int := 300

  class RunDelegationService {
    var startLocks: map<Id, nat>
    var calls: seq<Call>
    var cache: map<Text, Cached>
    var asks: seq<Ask>

    /** Together with the backend's runs. */
    ghost function State(merges: bool, runs: seq<Run>): Service
      reads this
    {
      Service(World(merges, calls, startLocks, runs), cache, asks)
    }

    constructor ()
      ensures forall merges :: State(merges, []) == After(merges, [])
    {
      startLocks := map[];
      calls := [];
      cache := map[];
      asks := [];
    }

    /** startRun up to its first await: check the key, take the last promise, and put this call's own in
        its place. */
    method BeginStart(session: Id, key: Id, ghost merges: bool, ghost runs: seq<Run>) returns (ok: bool)
      modifies `startLocks, `calls
      ensures ok == GoodKey(key)
      ensures State(merges, runs) == Next(old(State(merges, runs)), OfStart(Begin(session, key), 0))
    {
      if key != [] && (Trim(key) == [] || |key| > MAX_KEY) {
        return false;
      }
      var previous := if session in startLocks then Some(startLocks[session]) else None;
      startLocks := startLocks[session := |calls|];
      calls := calls + [Call(session, key, previous, Waiting)];
      return true;
    }

    method LeaveStart(i: nat, ghost merges: bool, ghost runs: seq<Run>)
      requires i < |calls|
      modifies `startLocks, `calls
      ensures State(merges, runs) == old(State(merges, runs)).(starts := Leave(old(State(merges, runs)).starts, i))
    {
      var session := calls[i].session;
      calls := calls[i := calls[i].(phase := Done)];
      if session in startLocks && startLocks[session] == i {
        startLocks := startLocks - {session};
      }
    }

    /** The previous promise was released: read the calling session's context. */
    method EnterStart(i: nat, parent: Option<Context>, ghost merges: bool, ghost runs: seq<Run>)
      requires i < |calls| && calls[i].phase.Waiting? && Released(State(merges, runs).starts, calls[i].previous)
      modifies `startLocks, `calls
      ensures State(merges, runs) == Next(old(State(merges, runs)), OfStart(Enter(i, parent), 0))
    {
      if parent.None? || Depth(parent.value) > MAX_DEPTH {
        LeaveStart(i, merges, runs);
      } else {
        calls := calls[i := calls[i].(phase := Listing(Shorn(parent.value), None))];
      }
    }

    method FindSource(recent: seq<Run>, source: string) returns (found: Option<nat>)
      ensures found == WithSource(recent, source)
    {
      for k := 0 to |recent|
        invariant WithSource(recent[..k], source) == None
      {
        assert recent[..k + 1][..k] == recent[..k];
        if recent[k].source == source {
          FirstStays(recent, source, k + 1);
          return Some(k);
        }
      }
      assert recent[..|recent|] == recent;
      return None;
    }

    method CountActive(recent: seq<Run>, session: Id) returns (active: nat)
      ensures active == Active(recent, session)
    {
      active := 0;
      assert Active(recent[..0], session) == 0;
      hide Active, ChildOf;
      for k := 0 to |recent|
        invariant active == Active(recent[..k], session)
      {
        ActiveNext(recent, k, session);
        if ChildOf(recent[k], session) && !recent[k].settled {
          active := active + 1;
        }
      }
      assert recent[..|recent|] == recent;
    }

    /** The listing arrived: the run that has the key, or whether to go on and start one. */
    method ChooseStart(i: nat, recent: seq<Run>, ghost merges: bool, ghost runs: seq<Run>)
        returns (existing: Option<nat>, start: bool)
      requires i < |calls| && calls[i].phase.Listing? && calls[i].phase.seen == Some(recent)
      modifies `startLocks, `calls
      ensures State(merges, runs) == Next(old(State(merges, runs)), OfStart(Listed(i, true), 0))
      ensures existing == Recalls(old(State(merges, runs)).starts, Listed(i, true))
      ensures start == calls[i].phase.Starting?
    {
      var call := calls[i];
      existing := None;
      if call.key != [] {
        existing := FindSource(recent, SourceOf(call.session, call.phase.context, call.key));
      }
      if existing.Some? {
        LeaveStart(i, merges, runs);
        return existing, false;
      }
      var active := CountActive(recent, call.session);
      if active >= MAX_CHILDREN {
        LeaveStart(i, merges, runs);
        return None, false;
      }
      calls := calls[i := call.(phase := Starting(call.phase.context, false, None))];
      return None, true;
    }

    /** The backend answered with a run: it goes into the cache under the calling session. */
    method NoteStarted(i: nat, k: nat, name: Text, settled: bool, now: int, ghost merges: bool, ghost runs: seq<Run>)
      requires i < |calls| && calls[i].phase.Starting? && calls[i].phase.asked && calls[i].phase.got == Some(k)
      requires k < |runs| && runs[k].name == name && runs[k].settled == settled
      modifies `startLocks, `calls, `cache
      ensures State(merges, runs) == Next(old(State(merges, runs)), OfStart(Answered(i, true), now))
    {
      cache := cache[CacheKey(calls[i].session, name) := Cached(now, Shown(k, settled, None))];
      LeaveStart(i, merges, runs);
    }

    /** A session asks for a run, up to the first await: a recent entry is shown; otherwise the answer an
        entry holds is kept for later. */
    method CheckCache(session: Id, run: Text, force: bool, now: int, ghost merges: bool, ghost runs: seq<Run>)
        returns (hit: Option<Shown>)
      modifies `asks
      ensures State(merges, runs) == Next(old(State(merges, runs)), Asks(session, run, force, now))
      ensures hit == ShownBy(old(State(merges, runs)), Asks(session, run, force, now))
    {
      var key := CacheKey(session, run);
      if !force && key in cache && now - cache[key].at < MIN_POLL_MS {
        return Some(cache[key].value);
      }
      var held := if key in cache then cache[key].value.answer else None;
      asks := asks + [Ask(session, run, held, true)];
      return None;
    }

    /** The backend's reply to an ask arrived. fetched: the run's place and source, if there is such a run. */
    method TakeFetched(j: nat, now: int, fetched: Option<(nat, string)>, settled: bool, answer: Option<Text>,
        ghost merges: bool, ghost runs: seq<Run>) returns (shown: Option<Shown>)
      requires j < |asks| && asks[j].open
      requires var k := WithName(runs, asks[j].run);
        fetched == if k.Some? then Some((k.value, runs[k.value].source)) else None
      modifies `asks, `cache
      ensures State(merges, runs) == Next(old(State(merges, runs)), Came(j, now, settled, answer))
      ensures shown == ShownBy(old(State(merges, runs)), Came(j, now, settled, answer))
    {
      hide Parse, WithName, Bounded;
      var ask := asks[j];
      asks := asks[j := ask.(open := false)];
      var provenance := if fetched.Some? then Parse(fetched.value.1) else None;
      if fetched.None? || provenance.None? || provenance.value.session != ask.session {
        return None;
      }
      var value := Shown(fetched.value.0, settled, None);
      if settled {
        var found := if ask.held.Some? then ask.held else answer;
        if found.Some? && found.value != [] {
          value := value.(answer := Some(Bounded(found.value)));
        }
      }
      cache := cache[CacheKey(ask.session, ask.run) := Cached(now, value)];
      return Some(value);
    }
  }

  lemma ActiveNext(runs: seq<Run>, k: nat, session: Id)
    requires k < |runs|
    ensures Active(runs[..k + 1], session) ==
      Active(runs[..k], session) + if ChildOf(runs[k], session) && !runs[k].settled then 1 else 0
  {
    hide ChildOf;
    assert runs[..k + 1][..k] == runs[..k];
  }

  lemma {:induction false} FirstStays(runs: seq<Run>, source: string, n: nat)
    requires n <= |runs| && WithSource(runs[..n], source).Some?
    ensures WithSource(runs, source) == WithSource(runs[..n], source)
    decreases |runs|
  {
    if n == |runs| {
      assert runs[..n] == runs;
    } else {
      assert runs[..|runs| - 1][..n] == runs[..n];
      FirstStays(runs[..|runs| - 1], source, n);
    }
  }

  // ---- Waiting --------------------------------------------------------------------------

  function SleepFor(deadline: real, now: real): real {
    var left := if deadline - now > 1.0 then deadline - now else 1.0;
    if left < MIN_POLL_MS as real then left else MIN_POLL_MS as real
  }

  /** How much later than planned something happens. */
  type Delay = d: real | d >= 0.0 witness 0.0

  /** When the k-th reply arrives, if asking and sleeping take late(j) more than planned. */
  function PollTime(start: real, deadline: real, late: nat -> Delay, k: nat): (t: real)
    ensures t >= start
    ensures t >= start + (MIN_POLL_MS * k) as real || t >= deadline
  {
    if k == 0 then start + late(0)
    else
      var before := PollTime(start, deadline, late, k - 1);
      before + SleepFor(deadline, before) + late(k)
  }

  function Deadline(start: real, seconds: real): real {
    start + seconds * MIN_POLL_MS as real
  }

  /** What asking gives: a run settled or not, or an error, such as the wait being called off. */
  datatype Reply = Settled | Open | Error
  datatype Outcome = BadTimeout | Returned | TimedOut | Threw

  predicate NotYet(start: real, deadline: real, replies: nat -> Reply, late: nat -> Delay, k: nat) {
    replies(k).Open? && PollTime(start, deadline, late, k) < deadline
  }

  lemma NextPoll(start: real, deadline: real, late: nat -> Delay, k: nat)
    ensures PollTime(start, deadline, late, k + 1) ==
      PollTime(start, deadline, late, k) + SleepFor(deadline, PollTime(start, deadline, late, k)) + late(k + 1)
  {}

  /** The next poll is planned a second later, or at the deadline if that comes first, but never at once. */
  lemma PollsEverySecond(start: real, deadline: real, late: nat -> Delay, k: nat)
    ensures var before, next := PollTime(start, deadline, late, k), PollTime(start, deadline, late, k + 1) - late(k + 1);
      before + 1.0 <= next <= before + 1000.0 && (before + 1.0 <= deadline <= before + 1000.0 ==> next == deadline) &&
      (deadline > before + 1000.0 ==> next == before + 1000.0)
  {}

  lemma LastPoll(start: real, seconds: real, late: nat -> Delay, k: nat)
    requires PollTime(start, Deadline(start, seconds), late, k) < Deadline(start, seconds)
    ensures k as real < seconds
  {
    assert (MIN_POLL_MS * k) as real == k as real * MIN_POLL_MS as real;
  }

  /** Polls until the run is settled or the time is up. The wait ends by a settled run, an error, or
      the first reply at or after the deadline, after at most one poll per begun second and one more. */
  method WaitForRun(start: real, timeoutSeconds: real, replies: nat -> Reply, late: nat -> Delay)
      returns (outcome: Outcome, polls: nat)
    ensures outcome.BadTimeout? <==> timeoutSeconds < 1.0 || timeoutSeconds > MAX_WAIT_SECONDS as real
    ensures polls as real < timeoutSeconds + 1.0 || outcome.BadTimeout?
    ensures !outcome.BadTimeout? ==>
      forall k :: 0 <= k < polls ==> NotYet(start, Deadline(start, timeoutSeconds), replies, late, k)
    ensures outcome.Returned? ==> replies(polls).Settled?
    ensures outcome.Threw? ==> replies(polls).Error?
    ensures outcome.TimedOut? ==>
      replies(polls).Open? &&
      PollTime(start, Deadline(start, timeoutSeconds), late, polls) >= Deadline(start, timeoutSeconds)
  {
    hide PollTime, SleepFor;
    if timeoutSeconds < 1.0 || timeoutSeconds > MAX_WAIT_SECONDS as real {
      return BadTimeout, 0;
    }
    var deadline := Deadline(start, timeoutSeconds);
    var now := start + late(0);
    FirstPoll(start, deadline, late);
    polls := 0;
    while true
      invariant now == PollTime(start, deadline, late, polls) && polls as real < timeoutSeconds + 1.0
      invariant forall k :: 0 <= k < polls ==> NotYet(start, deadline, replies, late, k)
      decreases MAX_WAIT_SECONDS + 1 - polls
    {
      if replies(polls).Settled? {
        return Returned, polls;
      }
      if replies(polls).Error? {
        return Threw, polls;
      }
      if now >= deadline {
        return TimedOut, polls;
      }
      NextPoll(start, deadline, late, polls);
      LastPoll(start, timeoutSeconds, late, polls);
      now := now + SleepFor(deadline, now) + late(polls + 1);
      polls := polls + 1;
    }
  }

  lemma FirstPoll(start: real, deadline: real, late: nat -> Delay)
    ensures PollTime(start, deadline, late, 0) == start + late(0)
  {}
}
