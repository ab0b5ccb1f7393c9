/** The intake manifest, the execution ledger, and the injected environment of a run. */
module Ledgers {
  import opened Prelude
  import opened HashChain
  import opened Topo
  import TextOrder

  // ---- Intake manifest -----------------------------------------------------------------------------

  datatype Source = Source(iplan: string, version: string, checksum: string)
  datatype Scope = Scope(clientId: string, projectId: string, allowedRoots: seq<string>)
  datatype TaskNode = TaskNode(taskId: string, title: string, hasAcceptance: bool, dependsOn: seq<string>)
  datatype Manifest = Manifest(schema: string, source: Source, approved: bool, score: int, scope: Scope,
                               tasks: seq<TaskNode>)

  /** `event_in_scope`. */
  predicate Scoped(e: Event, scope: Scope) { e.clientId == scope.clientId && e.projectId == scope.projectId }

  /** The dictionary of dependencies by task id; a later node replaces an earlier one with the same id. */
  function GraphOf(nodes: seq<TaskNode>): Graph {
    if nodes == [] then map[]
    else
      var n := nodes[|nodes| - 1];
      GraphOf(nodes[..|nodes| - 1])[n.taskId := Elems(n.dependsOn)]
  }

  function TaskIds(nodes: seq<TaskNode>): set<string> {
    set i | 0 <= i < |nodes| :: nodes[i].taskId
  }

  /** The node at `k` is the one that counts for its id: a later node with the same id would replace it. */
  ghost predicate Counts(nodes: seq<TaskNode>, k: nat) {
    k < |nodes| && forall j :: k < j < |nodes| ==> nodes[j].taskId != nodes[k].taskId
  }

  lemma {:induction false} NodeOf(nodes: seq<TaskNode>, id: string) returns (k: nat)
    requires id in TaskIds(nodes)
    ensures Counts(nodes, k) && nodes[k].taskId == id
  {
    var n := |nodes| - 1;
    if nodes[n].taskId == id {
      k := n;
    } else {
      assert id in TaskIds(nodes[..n]);
      k := NodeOf(nodes[..n], id);
    }
  }

  lemma {:induction false} GraphKeys(nodes: seq<TaskNode>)
    ensures GraphOf(nodes).Keys == TaskIds(nodes)
  {
    if nodes != [] {
      var n := |nodes| - 1;
      GraphKeys(nodes[..n]);
      assert TaskIds(nodes) == TaskIds(nodes[..n]) + {nodes[n].taskId};
    }
  }

  lemma {:induction false} GraphAt(nodes: seq<TaskNode>, k: nat)
    requires Counts(nodes, k)
    ensures nodes[k].taskId in GraphOf(nodes) && GraphOf(nodes)[nodes[k].taskId] == Elems(nodes[k].dependsOn)
  {
    var n := |nodes| - 1;
    if k < n {
      assert nodes[n].taskId != nodes[k].taskId && nodes[..n][k] == nodes[k];
      assert Counts(nodes[..n], k);
      GraphAt(nodes[..n], k);
    }
  }

  /** The graph has the ids of the nodes, and each id the dependencies its node names: these, and no others. */
  lemma GraphIsOfNodes(nodes: seq<TaskNode>)
    ensures GraphOf(nodes).Keys == TaskIds(nodes)
    ensures forall k: nat :: Counts(nodes, k) ==>
              forall d :: d in GraphOf(nodes)[nodes[k].taskId] <==> d in nodes[k].dependsOn
  {
    hide GraphOf;
    GraphKeys(nodes);
    forall k: nat | Counts(nodes, k)
      ensures forall d :: d in GraphOf(nodes)[nodes[k].taskId] <==> d in nodes[k].dependsOn
    {
      GraphAt(nodes, k);
    }
  }

  function DefaultRank(t: string): int { 0 }

  /** `topo_order`: ties go to the smallest task id. */
  ghost function TopoOrder(g: Graph): seq<string> {
    Order(g, DefaultRank)
  }

  /** Which task comes next: of those whose dependencies have all come, the one with the least id. */
  lemma NextTask(nodes: seq<TaskNode>, i: nat, u: nat) returns (k: nat)
    requires i < |TopoOrder(GraphOf(nodes))| && Counts(nodes, u)
    requires var o := TopoOrder(GraphOf(nodes));
      nodes[u].taskId !in o[..i] && forall d :: d in nodes[u].dependsOn ==> d in o[..i]
    ensures var o := TopoOrder(GraphOf(nodes));
      && Counts(nodes, k) && o[i] == nodes[k].taskId && (forall d :: d in nodes[k].dependsOn ==> d in o[..i])
      && (o[i] == nodes[u].taskId || TextOrder.Before(o[i], nodes[u].taskId))
  {
    hide Order, GraphOf;
    var g := GraphOf(nodes);
    var o := TopoOrder(g);
    GraphIsOfNodes(nodes);
    assert g[nodes[u].taskId] <= Elems(o[..i]);
    NextIsLeast(g, DefaultRank, i, nodes[u].taskId);
    k := NodeOf(nodes, o[i]);
  }

  // ---- Ledger --------------------------------------------------------------------------------------

  datatype Status = Pending | InProgress | Completed | Blocked
  datatype TaskEntry = TaskEntry(status: Status, evidenceRefs: seq<string>, passed: bool,
                                 blockedReason: Option<string>, decisionOwner: Option<string>)
  datatype Lease = Lease(leaseId: string, taskId: string, acquiredAt: string, expiresAt: Option<string>,
                         releasedAt: Option<string>)
  datatype TxnStatus = Open | Committed | Compensated
  datatype Txn = Txn(txnId: string, taskId: string, key: string, status: TxnStatus, attempts: Option<nat>)
  datatype Blocker = Blocker(blockerId: string, taskId: string, description: string, decisionOwner: string)
  datatype Evidence = Evidence(evidenceId: string, taskId: string, body: string)
  datatype HistoryRow = HistoryRow(at: string, taskId: string, from: Status, to: Status)
  datatype ResolutionRow = ResolutionRow(blockerId: string, decision: string, actor: string, at: string)
  datatype CommitRow = CommitRow(sha: string, message: string, at: string, paths: seq<string>)
  datatype Reconciliation = Reconciliation(allowed: bool, pendingTasks: nat, openBlockers: nat)
  datatype RunState = Running | Finished | Paused | Aborted
  datatype LedgerStatus = LedgerInProgress | LedgerCompleted | LedgerBlocked

  /** The execution log is held as the events it was built from; `Seal` gives the stored records. */
  datatype Ledger = Ledger(
    source: Source, scope: Scope, status: LedgerStatus, runState: RunState, requiresLanding: bool,
    tasks: map<string, TaskEntry>, leases: seq<Lease>, evidence: seq<Evidence>, blockers: seq<Blocker>,
    reconciliation: Reconciliation, journal: seq<Txn>, history: seq<HistoryRow>, events: seq<Event>,
    resolutions: seq<ResolutionRow>, branch: Option<string>, commits: seq<CommitRow>)

  function InitLedger(m: Manifest): Ledger {
    var g := GraphOf(m.tasks);
    Ledger(m.source, m.scope, LedgerInProgress, Running, false,
           map t | t in g.Keys :: TaskEntry(Pending, [], false, None, None), [], [], [],
           Reconciliation(false, |g|, 0), [], [], [], [], None, [])
  }

  function CompletedSet(tasks: map<string, TaskEntry>): set<string> {
    set t | t in tasks && tasks[t].status == Completed
  }

  function PendingSet(tasks: map<string, TaskEntry>): set<string> {
    set t | t in tasks && tasks[t].status in {Pending, InProgress}
  }

  // ---- Environment ---------------------------------------------------------------------------------

  datatype ExecResult = ExecResult(success: bool, paths: seq<string>, evidence: Option<string>,
                                   reason: Option<string>, retriable: bool)

  /** What `control()` answers: anything but a stop means go on. */
  datatype Signal = Go | Pause | Abort

  /**
   * The injected callables. Each is a function of how often it was called before, so a proof about every
   * Host is a proof about every clock, id source, operator and (possibly stateful) executor.
   */
  datatype Host = Host(clock: nat -> string, ids: nat -> string, execute: (string, nat) -> ExecResult,
                       control: nat -> Signal)

  datatype Call = Call(taskId: string, result: ExecResult)

  /** How often each callable was used, and what was asked of the executor and of `sleep`. */
  datatype World = World(ticks: nat, minted: nat, polls: nat, calls: seq<Call>, sleeps: seq<real>,
                         undone: seq<seq<string>>)

  datatype State = State(l: Ledger, w: World)

  datatype Config = Config(maxRetries: int, backoffBase: real)
}
