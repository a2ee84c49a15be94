/** The freshness guard: stale frames and nonces already seen are refused, with a bounded memory. */
module Freshness {
  import opened Numbers

  const MAX_SEEN_NONCES: nat := 5000

  datatype Frame = Frame(ts: real, nonce: string)

  function Distance(a: real, b: real): real {
    if a <= b then b - a else a - b
  }

  /** Entries whose time is over. */
  function Pruned(seen: map<string, int>, now: int): (r: map<string, int>)
    ensures forall n :: n in r <==> n in seen && now < seen[n]
    ensures forall n :: n in r ==> r[n] == seen[n]
  {
    map n | n in seen && now < seen[n] :: seen[n]
  }

  function Decide(seen: map<string, int>, windowMs: nat, f: Frame, now: int): (map<string, int>, bool) {
    if Distance(now as real, f.ts) > windowMs as real || f.nonce in seen then (seen, false)
    else
      var seen' := seen[f.nonce := now + windowMs];
      (if |seen'| > MAX_SEEN_NONCES then Pruned(seen', now) else seen', true)
  }

  class ReplayGuard {
    const windowMs: nat
    var seen: map<string, int>

    constructor (w: nat)
      ensures windowMs == w && seen == map[]
    {
      windowMs, seen := w, map[];
    }

    method Accept(f: Frame, now: int) returns (ok: bool)
      modifies this
      ensures (seen, ok) == Decide(old(seen), windowMs, f, now)
    {
      if Distance(now as real, f.ts) > windowMs as real { return false; }
      if f.nonce in seen { return false; }
      seen := seen[f.nonce := now + windowMs];
      if |seen| > MAX_SEEN_NONCES { Prune(now); }
      return true;
    }

    method Prune(now: int)
      modifies this
      ensures seen == Pruned(old(seen), now)
    {
      var left := seen.Keys;
      while left != {}
        invariant left <= old(seen).Keys
        invariant forall n :: n in seen <==> n in old(seen) && (n in left || now < old(seen)[n])
        invariant forall n :: n in seen ==> seen[n] == old(seen)[n]
        decreases left
      {
        var nonce :| nonce in left;
        left := left - {nonce};
        if seen[nonce] <= now { seen := seen - {nonce}; }
      }
    }
  }

  // ---- Every history under a non-decreasing clock ------------------------

  /** A frame and the time it is presented. */
  type Call = (Frame, int)

  ghost predicate Ordered(calls: seq<Call>) {
    forall i, j :: 0 <= i < j < |calls| ==> calls[i].1 <= calls[j].1
  }

  function After(w: nat, calls: seq<Call>): map<string, int> {
    if calls == [] then map[]
    else Decide(After(w, calls[..|calls| - 1]), w, calls[|calls| - 1].0, calls[|calls| - 1].1).0
  }

  predicate AcceptedAt(w: nat, calls: seq<Call>, k: nat)
    requires k < |calls|
  {
    Decide(After(w, calls[..k]), w, calls[k].0, calls[k].1).1
  }

  /** An accepted nonce is remembered until its time is over, however often the table is pruned. */
  lemma {:induction false} Remembered(w: nat, calls: seq<Call>, j: nat, k: nat)
    requires Ordered(calls) && j < k <= |calls| && AcceptedAt(w, calls, j)
    ensures calls[k - 1].1 < calls[j].1 + w ==>
      calls[j].0.nonce in After(w, calls[..k]) && After(w, calls[..k])[calls[j].0.nonce] >= calls[j].1 + w
  {
    assert calls[..k][..k - 1] == calls[..k - 1];
    if k > j + 1 { Remembered(w, calls, j, k - 1); }
  }

  /** The same nonce is never accepted twice within the window. */
  lemma AcceptancesApart(w: nat, calls: seq<Call>, j: nat, k: nat)
    requires Ordered(calls) && j < k < |calls|
    requires AcceptedAt(w, calls, j) && AcceptedAt(w, calls, k)
    requires calls[j].0.nonce == calls[k].0.nonce
    ensures calls[k].1 >= calls[j].1 + w
  {
    Remembered(w, calls, j, k);
  }

  /** A frame stamped strictly before its acceptance is never accepted again. */
  lemma NoReplay(w: nat, calls: seq<Call>, j: nat, k: nat)
    requires Ordered(calls) && j < k < |calls|
    requires AcceptedAt(w, calls, j) && calls[k].0 == calls[j].0
    requires calls[j].0.ts < calls[j].1 as real
    ensures !AcceptedAt(w, calls, k)
  {
    if AcceptedAt(w, calls, k) { AcceptancesApart(w, calls, j, k); }
  }

  /** Only nonces of accepted frames are remembered. */
  lemma {:induction false} OnlyAccepted(w: nat, calls: seq<Call>, nonce: string) returns (j: nat)
    requires nonce in After(w, calls)
    ensures j < |calls| && AcceptedAt(w, calls, j) && calls[j].0.nonce == nonce
  {
    var n := |calls| - 1;
    if nonce in After(w, calls[..n]) {
      j := OnlyAccepted(w, calls[..n], nonce);
      assert calls[..n][..j] == calls[..j];
    } else {
      j := n;
    }
  }

  /** A frame with a nonce that was never accepted is accepted just when its stamp is at most the window before or
      after the clock; an accepted frame is always within it. */
  lemma NewNonceAcceptedJustWhen(w: nat, calls: seq<Call>, k: nat)
    requires k < |calls|
    ensures AcceptedAt(w, calls, k) ==> WithinWindow(w, calls[k].0.ts, calls[k].1)
    ensures (forall j :: 0 <= j < k && AcceptedAt(w, calls, j) ==> calls[j].0.nonce != calls[k].0.nonce) ==>
      (AcceptedAt(w, calls, k) <==> WithinWindow(w, calls[k].0.ts, calls[k].1))
  {
    if calls[k].0.nonce in After(w, calls[..k]) {
      var j := OnlyAccepted(w, calls[..k], calls[k].0.nonce);
      assert calls[..k][..j] == calls[..j];
      assert AcceptedAt(w, calls, j);
    }
  }

  predicate WithinWindow(w: nat, ts: real, now: int) {
    now as real - w as real <= ts <= now as real + w as real
  }

  /** More than five thousand nonces are remembered only when none of them has expired. */
  lemma BoundedMemory(w: nat, calls: seq<Call>)
    requires calls != [] && AcceptedAt(w, calls, |calls| - 1)
    ensures var seen, now := After(w, calls), calls[|calls| - 1].1;
      |seen| > 5000 ==> forall n :: n in seen ==> now < seen[n]
  {}

  // ---- The condition on the timestamp is exact --------------------------

  function Longest(calls: seq<Call>): nat {
    if calls == [] then 0
    else Max(Longest(calls[..|calls| - 1]), |calls[|calls| - 1].0.nonce|)
  }

  /** What is remembered came with some call, and is forgotten at most a window after the last one. */
  lemma {:induction false} RememberedCame(w: nat, calls: seq<Call>, t: int)
    requires forall i :: 0 <= i < |calls| ==> calls[i].1 <= t
    ensures forall n :: n in After(w, calls) ==> |n| <= Longest(calls) && After(w, calls)[n] <= t + w
  {
    if calls != [] {
      RememberedCame(w, calls[..|calls| - 1], t);
    }
  }

  /** k frames stamped and presented at now, with nonces of lengths m + 1 to m + k. */
  function Fillers(m: nat, now: int, k: nat): (r: seq<Call>)
    ensures |r| == k && forall i :: 0 <= i < k ==> r[i].1 == now
  {
    if k == 0 then [] else Fillers(m, now, k - 1) + [(Frame(now as real, seq(m + k, _ => 'x')), now)]
  }

  lemma AfterOneMore(w: nat, calls: seq<Call>, c: Call)
    ensures After(w, calls + [c]) == Decide(After(w, calls), w, c.0, c.1).0
    ensures AcceptedAt(w, calls + [c], |calls|) == Decide(After(w, calls), w, c.0, c.1).1
  {
    assert (calls + [c])[..|calls|] == calls;
  }

  /** The table after k fillers: an old nonce was pushed out, or they all lie beside it. */
  ghost predicate Filling(seen: map<string, int>, nonce: string, m: nat, now: int, k: nat) {
    (forall n :: n in seen ==> |n| <= m + k && (|n| <= m ==> seen[n] <= now)) &&
    (nonce in seen ==> k < |seen| && (k > 0 ==> |seen| <= MAX_SEEN_NONCES))
  }

  lemma OneFiller(w: nat, seen: map<string, int>, nonce: string, m: nat, now: int, k: nat, f: Frame)
    requires |nonce| <= m && Filling(seen, nonce, m, now, k) && f.ts == now as real && |f.nonce| == m + k + 1
    ensures Filling(Decide(seen, w, f, now).0, nonce, m, now, k + 1)
  {
    var longer := seen[f.nonce := now + w];
    assert longer.Keys == seen.Keys + {f.nonce};
    assert |longer| == |longer.Keys| == |seen.Keys| + 1;
  }

  lemma {:induction false} Filled(w: nat, calls: seq<Call>, nonce: string, m: nat, now: int, k: nat)
    requires |nonce| <= m && Filling(After(w, calls), nonce, m, now, 0)
    ensures Filling(After(w, calls + Fillers(m, now, k)), nonce, m, now, k)
  {
    hide After, Decide, AcceptedAt, Filling;
    if k == 0 {
      assert calls + Fillers(m, now, k) == calls;
    } else {
      Filled(w, calls, nonce, m, now, k - 1);
      var f := Frame(now as real, seq(m + k, _ => 'x'));
      var before := calls + Fillers(m, now, k - 1);
      assert calls + Fillers(m, now, k) == before + [(f, now)];
      AfterOneMore(w, before, (f, now));
      OneFiller(w, After(w, before), nonce, m, now, k - 1, f);
    }
  }

  /** However a history went that ends with a frame's acceptance, some continuation has the same frame
      accepted again just when it was stamped at that moment or later: the nonce is forgotten when its
      window ends, and such a stamp is then still fresh. */
  lemma ReplayedJustWhen(w: nat, calls: seq<Call>)
    requires Ordered(calls) && calls != [] && AcceptedAt(w, calls, |calls| - 1)
    ensures var (f, t) := calls[|calls| - 1];
      t as real <= f.ts <==>
      exists more: seq<Call>, later: int ::
        Ordered(calls + more + [(f, later)]) && AcceptedAt(w, calls + more + [(f, later)], |calls| + |more|)
  {
    var (f, t) := calls[|calls| - 1];
    if t as real <= f.ts {
      var more := ReplayAfter(w, calls, f, t);
      assert Ordered(calls + more + [(f, t + w)]) && AcceptedAt(w, calls + more + [(f, t + w)], |calls| + |more|);
    } else {
      forall more: seq<Call>, later: int | Ordered(calls + more + [(f, later)])
        ensures !AcceptedAt(w, calls + more + [(f, later)], |calls| + |more|)
      {
        var all := calls + more + [(f, later)];
        assert all[|calls| - 1] == (f, t) && all[|calls| + |more|] == (f, later);
        assert all[..|calls| - 1] == calls[..|calls| - 1];
        NoReplay(w, all, |calls| - 1, |calls| + |more|);
      }
    }
  }

  lemma ReplayAfter(w: nat, calls: seq<Call>, f: Frame, t: int) returns (more: seq<Call>)
    requires Ordered(calls) && calls != [] && calls[|calls| - 1] == (f, t)
    requires Distance(t as real, f.ts) <= w as real && t as real <= f.ts
    ensures Ordered(calls + more + [(f, t + w)]) && AcceptedAt(w, calls + more + [(f, t + w)], |calls| + |more|)
  {
    var k :| k == MAX_SEEN_NONCES;
    more := Fillers(Longest(calls), t + w, k);
    LaterCallsOrdered(calls, more, f, t + w);
    hide After, Longest, Fillers, AcceptedAt, Filling, Decide, Ordered, Distance;
    PushedOut(w, calls, f, t, k);
    LateFrameAccepted(w, After(w, calls + more), f, Longest(calls), t);
    AfterOneMore(w, calls + more, (f, t + w));
  }

  lemma PushedOut(w: nat, calls: seq<Call>, f: Frame, t: int, k: nat)
    requires Ordered(calls) && calls != [] && calls[|calls| - 1] == (f, t)
    ensures Filling(After(w, calls + Fillers(Longest(calls), t + w, k)), f.nonce, Longest(calls), t + w, k)
  {
    hide *;
    NothingFilled(w, calls, f, t);
    Filled(w, calls, f.nonce, Longest(calls), t + w, k);
  }

  lemma NothingFilled(w: nat, calls: seq<Call>, f: Frame, t: int)
    requires Ordered(calls) && calls != [] && calls[|calls| - 1] == (f, t)
    ensures |f.nonce| <= Longest(calls) && Filling(After(w, calls), f.nonce, Longest(calls), t + w, 0)
  {
    hide After, Filling, Decide;
    RememberedCame(w, calls, t);
    FirstFilling(After(w, calls), f.nonce, Longest(calls), t + w);
  }

  lemma FirstFilling(seen: map<string, int>, nonce: string, m: nat, now: int)
    requires forall n :: n in seen ==> |n| <= m && seen[n] <= now
    ensures Filling(seen, nonce, m, now, 0)
  {
    if nonce in seen {
      assert |seen| == |seen.Keys| && |seen.Keys - {nonce}| == |seen.Keys| - 1;
    }
  }

  lemma LateFrameAccepted(w: nat, seen: map<string, int>, f: Frame, m: nat, t: int)
    requires Filling(seen, f.nonce, m, t + w, MAX_SEEN_NONCES)
    requires Distance(t as real, f.ts) <= w as real && t as real <= f.ts
    ensures Decide(seen, w, f, t + w).1
  {}

  lemma LaterCallsOrdered(calls: seq<Call>, more: seq<Call>, f: Frame, now: int)
    requires Ordered(calls) && calls != [] && calls[|calls| - 1].1 <= now
    requires forall i :: 0 <= i < |more| ==> more[i].1 == now
    ensures Ordered(calls + more + [(f, now)])
  {
    var all := calls + more + [(f, now)];
    assert forall i :: 0 <= i < |calls| ==> all[i] == calls[i] && all[i].1 <= now;
    assert forall i :: |calls| <= i < |all| ==> all[i].1 == now;
  }
}
