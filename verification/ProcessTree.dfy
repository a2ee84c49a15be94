/** The subtree of a process table, by parent links that may form cycles. */
module ProcessTree {
  import opened Wrappers

  datatype ProcEntry = ProcEntry(pid: int, ppid: Option<int>, rssBytes: nat, pcpu: real)

  /** The values of a map from pid to entry, in insertion order. */
  ghost predicate Table(table: seq<ProcEntry>) {
    forall i, j :: 0 <= i < j < |table| ==> table[i].pid != table[j].pid
  }

  predicate IsChild(table: seq<ProcEntry>, parent: int, child: int) {
    exists k :: 0 <= k < |table| && table[k].ppid == Some(parent) && table[k].pid == child
  }

  ghost predicate Path(table: seq<ProcEntry>, path: seq<int>, from: int, to: int) {
    |path| > 0 && path[0] == from && path[|path| - 1] == to &&
    forall k :: 0 <= k < |path| - 1 ==> IsChild(table, path[k], path[k + 1])
  }

  ghost predicate Reachable(table: seq<ProcEntry>, root: int, pid: int) {
    exists path :: Path(table, path, root, pid)
  }

  lemma ReachRoot(table: seq<ProcEntry>, root: int)
    ensures Reachable(table, root, root)
  {
    assert Path(table, [root], root, root);
  }

  lemma ReachChild(table: seq<ProcEntry>, root: int, pid: int, child: int)
    requires Reachable(table, root, pid) && IsChild(table, pid, child)
    ensures Reachable(table, root, child)
  {
    var path :| Path(table, path, root, pid);
    assert Path(table, path + [child], root, child);
  }

  /** A set that holds the root and is closed under children holds everything reachable. */
  lemma {:induction false} ClosedHolds(table: seq<ProcEntry>, root: int, s: set<int>, path: seq<int>, pid: int)
    requires root in s && (forall p, c :: p in s && IsChild(table, p, c) ==> c in s)
    requires Path(table, path, root, pid)
    ensures pid in s
    decreases |path|
  {
    if |path| > 1 {
      var n := |path| - 1;
      ClosedHolds(table, root, s, path[..n], path[n - 1]);
      assert IsChild(table, path[n - 1], path[n - 1 + 1]);
    }
  }

  lemma ReachableHeld(table: seq<ProcEntry>, root: int, s: set<int>, pid: int)
    requires root in s && (forall p, c :: p in s && IsChild(table, p, c) ==> c in s)
    requires Reachable(table, root, pid)
    ensures pid in s
  {
    var path :| Path(table, path, root, pid);
    ClosedHolds(table, root, s, path, pid);
  }

  function Children(table: seq<ProcEntry>, parent: int): seq<int> {
    if table == [] then []
    else
      var last := table[|table| - 1];
      Children(table[..|table| - 1], parent) + if last.ppid == Some(parent) then [last.pid] else []
  }

  lemma {:induction false} ChildrenMembers(table: seq<ProcEntry>, parent: int, pid: int)
    ensures pid in Children(table, parent) <==> IsChild(table, parent, pid)
  {
    if table != [] {
      var n := |table| - 1;
      ChildrenMembers(table[..n], parent, pid);
      if IsChild(table[..n], parent, pid) {
        var k :| 0 <= k < n && table[..n][k].ppid == Some(parent) && table[..n][k].pid == pid;
        assert table[k].pid == pid;
      }
      if table[n].ppid == Some(parent) && table[n].pid == pid { assert IsChild(table, parent, pid); }
      if IsChild(table, parent, pid) && !(table[n].ppid == Some(parent) && table[n].pid == pid) {
        var k :| 0 <= k < |table| && table[k].ppid == Some(parent) && table[k].pid == pid;
        assert table[..n][k] == table[k];
      }
    }
  }

  /** The kids map: children by parent pid, in table order. */
  method ChildLists(table: seq<ProcEntry>) returns (kids: map<int, seq<int>>)
    ensures forall p :: Children(table, p) == if p in kids then kids[p] else []
  {
    kids := map[];
    for k := 0 to |table|
      invariant forall p :: Children(table[..k], p) == if p in kids then kids[p] else []
    {
      assert table[..k + 1][..k] == table[..k];
      var e := table[k];
      if e.ppid.Some? {
        kids := kids[e.ppid.value := (if e.ppid.value in kids then kids[e.ppid.value] else []) + [e.pid]];
      }
    }
    assert table[..|table|] == table;
  }

  function Pids(table: seq<ProcEntry>): set<int> {
    set k | 0 <= k < |table| :: table[k].pid
  }

  lemma ChildListed(table: seq<ProcEntry>, parent: int, child: int)
    requires IsChild(table, parent, child)
    ensures child in Pids(table)
  {}

  method Lookup(table: seq<ProcEntry>, pid: int) returns (r: Option<ProcEntry>)
    requires Table(table)
    ensures r.Some? ==> r.value in table && r.value.pid == pid
    ensures r.None? ==> forall e :: e in table ==> e.pid != pid
  {
    for k := 0 to |table|
      invariant forall j :: 0 <= j < k ==> table[j].pid != pid
    {
      if table[k].pid == pid { return Some(table[k]); }
    }
    return None;
  }

  /** Exactly the reachable entries, each once; cyclic links do no harm. */
  method Subtree(table: seq<ProcEntry>, root: int) returns (out: seq<ProcEntry>)
    requires Table(table)
    ensures forall e :: e in out <==> e in table && Reachable(table, root, e.pid)
    ensures forall i, j :: 0 <= i < j < |out| ==> out[i] != out[j]
  {
    hide IsChild, Path, Reachable, Children, Table, Pids;
    var kids := ChildLists(table);
    out := [];
    var seen: set<int> := {};
    var stack := [root];
    ReachRoot(table, root);
    while stack != []
      invariant forall p :: p in stack || p in seen ==> Reachable(table, root, p)
      invariant forall p :: p in stack || p in seen ==> p == root || p in Pids(table)
      invariant root in seen || root in stack
      invariant forall p, c :: p in seen && IsChild(table, p, c) ==> c in seen || c in stack
      invariant forall e :: e in out <==> e in table && e.pid in seen
      invariant forall i, j :: 0 <= i < j < |out| ==> out[i] != out[j]
      decreases Pids(table) + {root} - seen, |stack|
    {
      var pid := stack[|stack| - 1];
      assert pid in stack;
      ghost var before := stack;
      stack := stack[..|stack| - 1];
      assert forall p :: p in before <==> p in stack || p == pid;
      if pid in seen { continue; }
      seen := seen + {pid};
      var entry := Lookup(table, pid);
      if entry.Some? {
        OneEntry(table, entry.value);
        out := out + [entry.value];
      }
      var list := if pid in kids then kids[pid] else [];
      forall c ensures c in list <==> IsChild(table, pid, c) { ChildrenMembers(table, pid, c); }
      forall c | c in list ensures Reachable(table, root, c) && c in Pids(table) {
        ReachChild(table, root, pid, c);
        ChildListed(table, pid, c);
      }
      stack := PushAll(stack, list);
    }
    forall pid | Reachable(table, root, pid) ensures pid in seen {
      ReachableHeld(table, root, seen, pid);
    }
  }

  lemma OneEntry(table: seq<ProcEntry>, e: ProcEntry)
    requires Table(table) && e in table
    ensures forall f :: f in table && f.pid == e.pid ==> f == e
  {}

  method PushAll(stack: seq<int>, list: seq<int>) returns (r: seq<int>)
    ensures r == stack + list
  {
    r := stack;
    for k := 0 to |list|
      invariant r == stack + list[..k]
    {
      r := r + [list[k]];
    }
  }
}
