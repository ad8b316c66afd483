/** Process ancestry over one snapshot of the process table. */
module Processes {

  import opened Outcomes

  datatype Process = Process(state: string, parent: nat, group: nat, token: string)

  type Table = map<nat, Process>

  predicate Live(process: Process) {
    process.state != "Z" && process.state != "X"
  }

  /** A non-empty path of live processes, each one the parent of the process before it. */
  ghost predicate ParentChain(table: Table, path: seq<nat>) {
    && |path| > 0
    && (forall i :: 0 <= i < |path| ==> path[i] > 0 && path[i] in table && Live(table[path[i]]))
    && (forall i :: 0 <= i < |path| - 1 ==> table[path[i]].parent == path[i + 1])
  }

  ghost predicate ConnectedBy(table: Table, path: seq<nat>, pid: nat, ancestor: nat) {
    ParentChain(table, path) && path[0] == pid && path[|path| - 1] == ancestor
  }

  /** `ancestor` is `pid` itself or is reached from it through live parents. */
  ghost predicate Descends(table: Table, pid: nat, ancestor: nat) {
    exists path :: ConnectedBy(table, path, pid, ancestor)
  }

  /** Both ends of a descent carry the tokens the caller recorded for them. */
  ghost predicate DescendsExactly(table: Table, pid: nat, token: string, ancestor: nat, ancestorToken: string) {
    Descends(table, pid, ancestor) && table[pid].token == token && table[ancestor].token == ancestorToken
  }

  lemma DescendsIsLive(table: Table, pid: nat, ancestor: nat)
    requires Descends(table, pid, ancestor)
    ensures pid > 0 && pid in table && Live(table[pid])
    ensures ancestor > 0 && ancestor in table && Live(table[ancestor])
  {
    var path :| ConnectedBy(table, path, pid, ancestor);
  }

  /** One step of the walk: a process that is not the ancestor descends from it through its parent. */
  lemma DescendsThroughParent(table: Table, pid: nat, ancestor: nat)
    requires pid > 0 && pid in table && Live(table[pid]) && pid != ancestor
    ensures Descends(table, pid, ancestor) <==> Descends(table, table[pid].parent, ancestor)
  {
    var parent := table[pid].parent;
    if Descends(table, pid, ancestor) {
      var path :| ConnectedBy(table, path, pid, ancestor);
      assert ConnectedBy(table, path[1..], parent, ancestor);
    }
    if Descends(table, parent, ancestor) {
      var path :| ConnectedBy(table, path, parent, ancestor);
      assert ConnectedBy(table, [pid] + path, pid, ancestor);
    }
  }

  /** Walking around a cycle that misses the ancestor never finds it. */
  lemma {:induction false} ClosedWalkMisses(table: Table, visited: set<nat>, path: seq<nat>, ancestor: nat)
    requires forall pid :: pid in visited ==> pid in table && table[pid].parent in visited
    requires ancestor !in visited
    requires ParentChain(table, path) && path[0] in visited
    ensures path[|path| - 1] != ancestor
  {
    if |path| > 1 {
      ClosedWalkMisses(table, visited, path[1..], ancestor);
    }
  }

  /** `same_worker_process`: the recorded worker still runs and still leads its own group. */
  predicate SameWorker(table: Table, pid: Option<nat>, token: Option<string>) {
    pid.Some? && token.Some? && pid.value in table &&
    var process := table[pid.value];
    Live(process) && process.group == pid.value && process.token == token.value
  }

  /** `worker_identity_conflicts`: the recorded pid now names some other process. */
  predicate IdentityConflicts(table: Table, pid: Option<nat>, token: Option<string>) {
    pid.Some? && token.Some? && pid.value in table &&
    var process := table[pid.value];
    process.group != pid.value || process.token != token.value
  }

  /** A process under the recorded number is the recorded worker, some other process, or the dead worker itself. */
  lemma RecordedIdentity(table: Table, pid: nat, token: string)
    ensures !SameWorker(table, None, Some(token)) && !SameWorker(table, Some(pid), None)
    ensures !IdentityConflicts(table, None, Some(token)) && !IdentityConflicts(table, Some(pid), None)
    ensures SameWorker(table, Some(pid), Some(token)) ==>
              pid in table && table[pid] == Process(table[pid].state, table[pid].parent, pid, token)
    ensures IdentityConflicts(table, Some(pid), Some(token)) <==>
              pid in table && table[pid] != table[pid].(group := pid, token := token)
    ensures pid in table ==>
              if IdentityConflicts(table, Some(pid), Some(token)) then !SameWorker(table, Some(pid), Some(token))
              else SameWorker(table, Some(pid), Some(token)) <==> table[pid].state !in {"Z", "X"}
    ensures pid !in table ==>
              !SameWorker(table, Some(pid), Some(token)) && !IdentityConflicts(table, Some(pid), Some(token))
  {
    if pid in table {
      var process := table[pid];
      assert process == Process(process.state, process.parent, process.group, process.token);
    }
  }

  /** `is_descendant_process`: follow parent links from `pid`, giving up on the first repeat. */
  method IsDescendant(table: Table, pid: nat, token: string, ancestor: nat, ancestorToken: string)
    returns (found: bool)
    ensures found <==> DescendsExactly(table, pid, token, ancestor, ancestorToken)
  {
    var current := pid;
    var expected := token;
    var visited: set<nat> := {};
    while current > 0 && current !in visited
      invariant ancestor !in visited && visited <= table.Keys && 0 !in visited
      invariant forall seen :: seen in visited ==> table[seen].parent in visited + {current}
      invariant visited == {} ==> current == pid && expected == token
      invariant visited != {} ==>
                pid in table && table[pid].token == token && current in table && expected == table[current].token
      invariant Descends(table, pid, ancestor) <==> Descends(table, current, ancestor)
      decreases table.Keys - visited
    {
      visited := visited + {current};
      if current !in table || !Live(table[current]) || table[current].token != expected {
        if Descends(table, current, ancestor) {
          DescendsIsLive(table, current, ancestor);
        }
        return false;
      }
      if current == ancestor {
        assert ConnectedBy(table, [current], current, ancestor);
        return table[current].token == ancestorToken;
      }
      DescendsThroughParent(table, current, ancestor);
      var parent := table[current].parent;
      if parent !in table {
        if Descends(table, parent, ancestor) {
          DescendsIsLive(table, parent, ancestor);
        }
        return false;
      }
      current := parent;
      expected := table[parent].token;
    }
    if Descends(table, current, ancestor) {
      DescendsIsLive(table, current, ancestor);
      var path :| ConnectedBy(table, path, current, ancestor);
      ClosedWalkMisses(table, visited, path, ancestor);
    }
    return false;
  }

  /** The recorded members that are still the processes they were recorded as. */
  ghost predicate Survives(table: Table, recorded: map<nat, string>, pid: nat) {
    pid in recorded && pid in table && table[pid].token == recorded[pid]
  }

  /** The table that `FixtureSystem::members` reads: live processes with a positive pid. */
  ghost predicate LiveTable(table: Table) {
    forall pid :: pid in table ==> pid > 0 && Live(table[pid])
  }

  ghost predicate DescendsFromSurvivor(table: Table, recorded: map<nat, string>, pid: nat) {
    exists root :: Survives(table, recorded, root) && Descends(table, pid, root)
  }

  /** A set that is closed under children holds every descendant of its members. */
  lemma {:induction false} ClosedHoldsDescendants(table: Table, members: set<nat>, path: seq<nat>)
    requires ParentChain(table, path) && path[|path| - 1] in members
    requires forall pid :: pid in table && table[pid].parent in members ==> pid in members
    ensures path[0] in members
  {
    if |path| > 1 {
      ClosedHoldsDescendants(table, members, path[1..]);
    }
  }

  /** `FixtureSystem::members`: grow the surviving members by their children until nothing changes. */
  method Members(table: Table, previous: map<nat, string>) returns (recorded: map<nat, string>)
    requires LiveTable(table)
    ensures forall pid :: pid in recorded <==> DescendsFromSurvivor(table, previous, pid)
    ensures forall pid :: pid in recorded ==> pid in table && recorded[pid] == table[pid].token
  {
    recorded := map pid | pid in previous && pid in table && table[pid].token == previous[pid] :: previous[pid];
    forall pid | pid in recorded
      ensures DescendsFromSurvivor(table, previous, pid)
    {
      assert ConnectedBy(table, [pid], pid, pid);
      assert Survives(table, previous, pid) && Descends(table, pid, pid);
    }
    var changed := true;
    while changed
      invariant forall pid :: Survives(table, previous, pid) ==> pid in recorded
      invariant forall pid :: pid in recorded ==> pid in table && recorded[pid] == table[pid].token
      invariant forall pid :: pid in recorded ==> DescendsFromSurvivor(table, previous, pid)
      invariant !changed ==> forall pid :: pid in table && table[pid].parent in recorded ==> pid in recorded
      decreases table.Keys - recorded.Keys, changed
    {
      recorded, changed := AddChildren(table, previous, recorded);
    }
    forall pid | DescendsFromSurvivor(table, previous, pid)
      ensures pid in recorded
    {
      var root :| Survives(table, previous, root) && Descends(table, pid, root);
      var path :| ConnectedBy(table, path, pid, root);
      ClosedHoldsDescendants(table, recorded.Keys, path);
    }
  }

  /** One pass over the table, adding each process whose parent is already a member. */
  method AddChildren(table: Table, ghost previous: map<nat, string>, members: map<nat, string>)
    returns (recorded: map<nat, string>, changed: bool)
    requires LiveTable(table)
    requires forall pid :: pid in members ==> pid in table && members[pid] == table[pid].token
    requires forall pid :: pid in members ==> DescendsFromSurvivor(table, previous, pid)
    ensures members.Keys <= recorded.Keys <= table.Keys
    ensures forall pid :: pid in recorded ==> recorded[pid] == table[pid].token
    ensures forall pid :: pid in recorded ==> DescendsFromSurvivor(table, previous, pid)
    ensures changed <==> members.Keys < recorded.Keys
    ensures !changed ==> recorded == members
    ensures !changed ==> forall pid :: pid in table && table[pid].parent in recorded ==> pid in recorded
  {
    recorded, changed := members, false;
    var remaining := table.Keys;
    while remaining != {}
      invariant remaining <= table.Keys
      invariant members.Keys <= recorded.Keys <= table.Keys
      invariant forall pid :: pid in recorded ==> recorded[pid] == table[pid].token
      invariant forall pid :: pid in recorded ==> DescendsFromSurvivor(table, previous, pid)
      invariant changed <==> members.Keys < recorded.Keys
      invariant !changed ==> recorded == members
      invariant !changed ==> forall pid :: pid in table.Keys - remaining && table[pid].parent in recorded ==>
                pid in recorded
      decreases remaining
    {
      var pid :| pid in remaining;
      remaining := remaining - {pid};
      var parent := table[pid].parent;
      if pid !in recorded && parent in recorded {
        ghost var root :| Survives(table, previous, root) && Descends(table, parent, root);
        if pid != root {
          DescendsThroughParent(table, pid, root);
        } else {
          assert ConnectedBy(table, [pid], pid, root);
        }
        assert Descends(table, pid, root);
        recorded, changed := recorded[pid := table[pid].token], true;
      }
    }
  }

  /** The group walk upward and the membership growth downward find the same descendants: with one
      recorded member, a process joins it exactly when `is_descendant_process` accepts it. */
  lemma MembershipIsDescent(table: Table, pid: nat, root: nat, token: string)
    requires root in table && table[root].token == token
    ensures DescendsFromSurvivor(table, map[root := token], pid)
            <==> (pid in table && DescendsExactly(table, pid, table[pid].token, root, token))
  {
    if DescendsFromSurvivor(table, map[root := token], pid) {
      var ancestor :| Survives(table, map[root := token], ancestor) && Descends(table, pid, ancestor);
      assert ancestor == root;
      DescendsIsLive(table, pid, root);
    }
    if pid in table && DescendsExactly(table, pid, table[pid].token, root, token) {
      assert Survives(table, map[root := token], root);
    }
  }
}
