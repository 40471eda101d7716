/** The processes below a process, found in two ways: with a work list
    (spikes/opencode-fresh-session.py) and by growing a set until it stops growing
    (spikes/codex-running-settled-fork.py). Both read the process table once; parent links may
    form cycles. */
module ProcessTree {
  import opened Sets

  /** What one look at /proc gave: a process, its parent and its command name. Entries that could
      not be read are not in the list. */
  datatype Entry = Entry(pid: int, parent: int, name: string)

  // Reachability, the meaning of both

  predicate IsChild(table: seq<Entry>, parent: int, child: int) {
    exists i :: 0 <= i < |table| && table[i].parent == parent && table[i].pid == child
  }

  /** A chain of parent links. */
  predicate Path(table: seq<Entry>, path: seq<int>) {
    path != [] && forall i :: 0 <= i < |path| - 1 ==> IsChild(table, path[i], path[i + 1])
  }

  ghost predicate Below(table: seq<Entry>, root: int, pid: int) {
    exists path :: Path(table, path) && path[0] == root && path[|path| - 1] == pid
  }

  ghost predicate AllBelow(table: seq<Entry>, root: int, pids: set<int>) {
    forall pid :: pid in pids ==> Below(table, root, pid)
  }

  /** Every child of a member is a member. */
  predicate Closed(table: seq<Entry>, pids: set<int>) {
    forall i :: 0 <= i < |table| && table[i].parent in pids ==> table[i].pid in pids
  }

  lemma RootIsBelow(table: seq<Entry>, root: int)
    ensures Below(table, root, root)
  {
    assert Path(table, [root]);
  }

  lemma ChildIsBelow(table: seq<Entry>, root: int, parent: int, child: int)
    requires Below(table, root, parent) && IsChild(table, parent, child)
    ensures Below(table, root, child)
  {
    var path :| Path(table, path) && path[0] == root && path[|path| - 1] == parent;
    assert Path(table, path + [child]);
  }

  lemma {:induction false} PathStaysIn(table: seq<Entry>, pids: set<int>, path: seq<int>)
    requires Closed(table, pids) && Path(table, path) && path[0] in pids
    ensures path[|path| - 1] in pids
    decreases |path|
  {
    if |path| > 1 {
      var shorter := path[..|path| - 1];
      PathStaysIn(table, pids, shorter);
      assert IsChild(table, path[|path| - 2], path[|path| - 1]);
    }
  }

  /** A closed set of reachable processes that holds the root is the set of reachable processes. */
  lemma ClosedIsBelow(table: seq<Entry>, root: int, pids: set<int>)
    requires Closed(table, pids) && AllBelow(table, root, pids) && root in pids
    ensures forall pid :: pid in pids <==> Below(table, root, pid)
  {
    forall pid | Below(table, root, pid) ensures pid in pids {
      var path :| Path(table, path) && path[0] == root && path[|path| - 1] == pid;
      PathStaysIn(table, pids, path);
    }
  }

  function Everyone(table: seq<Entry>): set<int> {
    set i | 0 <= i < |table| :: table[i].pid
  }

  // The work list

  predicate ChildrenOf(table: seq<Entry>, children: map<int, set<int>>) {
    && (forall p, c :: p in children && c in children[p] ==> IsChild(table, p, c))
    && (forall i :: 0 <= i < |table| ==> table[i].parent in children && table[i].pid in children[table[i].parent])
  }

  method Children(table: seq<Entry>) returns (children: map<int, set<int>>)
    ensures ChildrenOf(table, children)
  {
    children := map[];
    for i := 0 to |table|
      invariant forall p, c :: p in children && c in children[p] ==> IsChild(table, p, c)
      invariant forall k :: 0 <= k < i ==> table[k].parent in children && table[k].pid in children[table[k].parent]
    {
      var e := table[i];
      var known := if e.parent in children then children[e.parent] else {};
      children := children[e.parent := known + {e.pid}];
    }
  }

  /** The processes reachable from the root, with the root. */
  method ProcessTree(root: int, table: seq<Entry>) returns (seen: set<int>)
    ensures forall pid :: pid in seen <==> Below(table, root, pid)
  {
    var children := Children(table);
    seen := {root};
    var pending := [root];
    RootIsBelow(table, root);
    while pending != []
      invariant Searching(table, root, seen, pending)
      decreases |Everyone(table) + {root} - seen|, |pending|
    {
      var current := pending[|pending| - 1];
      assert pending == pending[..|pending| - 1] + [current];
      pending := pending[..|pending| - 1];
      ghost var seen0, waiting := seen, pending;
      var found := if current in children then children[current] else {};
      seen, pending := Enqueue(found, seen, pending);
      Expanded(table, root, children, current, found, seen0, waiting, pending);
      if seen != seen0 {
        RestShrinks(Everyone(table) + {root}, seen0, seen);
      }
    }
    ClosedIsBelow(table, root, seen);
  }

  ghost predicate Searching(table: seq<Entry>, root: int, seen: set<int>, pending: seq<int>) {
    && root in seen && seen <= Everyone(table) + {root}
    && AllBelow(table, root, seen)
    && (forall i :: 0 <= i < |pending| ==> pending[i] in seen)
    && Explored(table, seen, pending)
  }

  /** All children of a seen process are seen, unless the process still waits. */
  predicate Explored(table: seq<Entry>, seen: set<int>, pending: seq<int>) {
    forall i :: 0 <= i < |table| && table[i].parent in seen && table[i].parent !in pending ==> table[i].pid in seen
  }

  lemma Expanded(table: seq<Entry>, root: int, children: map<int, set<int>>, current: int, found: set<int>,
                 seen: set<int>, before: seq<int>, after: seq<int>)
    requires ChildrenOf(table, children) && found == if current in children then children[current] else {}
    requires Searching(table, root, seen, before + [current])
    requires |after| >= |before| && after[..|before|] == before
    requires forall x :: x in after[|before|..] <==> x in found && x !in seen
    ensures Searching(table, root, seen + found, after)
  {
    assert (before + [current])[|before|] == current;
    forall pid | pid in found ensures Below(table, root, pid) {
      assert IsChild(table, current, pid);
      ChildIsBelow(table, root, current, pid);
    }
    forall pid | pid in found ensures pid in Everyone(table) {
      assert IsChild(table, current, pid);
      var i :| 0 <= i < |table| && table[i].parent == current && table[i].pid == pid;
      assert table[i].pid in Everyone(table);
    }
    assert found <= Everyone(table);
    assert after == before + after[|before|..];
    forall i | 0 <= i < |after| ensures after[i] in seen + found {
      if i < |before| {
        assert after[i] == (before + [current])[i];
      } else {
        assert after[i] == after[|before|..][i - |before|];
      }
    }
    forall i | 0 <= i < |table| && table[i].parent in seen + found && table[i].parent !in after
      ensures table[i].pid in seen + found
    {
      assert table[i].parent in seen;
      assert table[i].parent == current || table[i].parent !in before + [current];
    }
  }

  /** Marks the new children as seen and lets each of them wait. */
  method Enqueue(found: set<int>, seen0: set<int>, pending0: seq<int>) returns (seen: set<int>, pending: seq<int>)
    ensures seen == seen0 + found
    ensures |pending| >= |pending0| && pending[..|pending0|] == pending0
    ensures forall x :: x in pending[|pending0|..] <==> x in found && x !in seen0
    ensures seen == seen0 ==> pending == pending0
  {
    seen, pending := seen0, pending0;
    var rest := found;
    while rest != {}
      invariant rest <= found && seen == seen0 + (found - rest)
      invariant |pending| >= |pending0| && pending[..|pending0|] == pending0
      invariant forall x :: x in pending[|pending0|..] <==> x in found - rest && x !in seen0
      invariant seen == seen0 ==> pending == pending0
      decreases |rest|
    {
      var child := AnyOf(rest);
      if child !in seen {
        ghost var before := pending;
        seen := seen + {child};
        pending := pending + [child];
        assert pending[|pending0|..] == before[|pending0|..] + [child];
      }
      rest := rest - {child};
    }
  }

  // The growing set

  /** Is a process with this command name running below the parent (or is it the parent)? */
  method DescendantCommandRunning(parent: int, command: string, processes: seq<Entry>) returns (running: bool)
    ensures running <==> exists i :: 0 <= i < |processes| && Below(processes, parent, processes[i].pid)
                                  && processes[i].name == command
  {
    var descendants := Descendants(parent, processes);
    running := exists i :: 0 <= i < |processes| && processes[i].pid in descendants && processes[i].name == command;
  }

  method Descendants(parent: int, processes: seq<Entry>) returns (descendants: set<int>)
    ensures forall pid :: pid in descendants <==> Below(processes, parent, pid)
  {
    descendants := {parent};
    RootIsBelow(processes, parent);
    var changed := true;
    while changed
      invariant parent in descendants && descendants <= Everyone(processes) + {parent}
      invariant AllBelow(processes, parent, descendants)
      invariant !changed ==> Closed(processes, descendants)
      decreases |Everyone(processes) + {parent} - descendants|, if changed then 1 else 0
    {
      ghost var before := descendants;
      changed := false;
      for i := 0 to |processes|
        invariant before <= descendants <= Everyone(processes) + {parent}
        invariant AllBelow(processes, parent, descendants)
        invariant changed <==> before != descendants
        invariant !changed ==> forall k :: 0 <= k < i && processes[k].parent in descendants ==> processes[k].pid in descendants
      {
        var e := processes[i];
        if e.parent in descendants && e.pid !in descendants {
          ChildIsBelow(processes, parent, e.parent, e.pid);
          descendants := descendants + {e.pid};
          changed := true;
        }
      }
      if changed {
        RestShrinks(Everyone(processes) + {parent}, before, descendants);
      }
    }
    ClosedIsBelow(processes, parent, descendants);
  }
}
