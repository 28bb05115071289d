/** The graph database as the service uses it: Task, Run, Reference, Artifact,
    Outcome and MemoryDecision nodes keyed by their id (the label for Outcome), and the
    TRIGGERED, READS, WRITES and ENDED_WITH relationships. Every write the service
    issues is a Cypher `MERGE`, so each operation here is an idempotent upsert.
    Node and relationship scans return rows in creation order. */
module Store {
  import opened Wrappers

  datatype TaskNode = TaskNode(text: string, embedding: Option<seq<real>>)

  /** `status` is read by every query but written by no part of the service. */
  datatype RunNode = RunNode(
    agentId: string,
    summary: string,
    embedding: Option<seq<real>>,
    runTree: Option<string>,
    createdAt: Option<string>,
    status: Option<string>)

  datatype RefNode = RefNode(kind: string, embedding: seq<real>, sourceRef: string)

  datatype ArtNode = ArtNode(kind: string, embedding: seq<real>, hash: string)

  datatype DecisionNode = DecisionNode(
    decision: string,
    target: Option<string>,
    reason: string,
    score: Option<real>,
    timestamp: string)

  /** A relationship from the node with the first key to the node with the second. */
  type Edge = (string, string)

  datatype GraphState = GraphState(
    tasks: map<string, TaskNode>,
    taskOrder: seq<string>,
    runs: map<string, RunNode>,
    runOrder: seq<string>,
    refs: map<string, RefNode>,
    arts: map<string, ArtNode>,
    outcomes: seq<string>,
    triggered: seq<Edge>,
    readEdges: seq<Edge>,
    writeEdges: seq<Edge>,
    endedWith: seq<Edge>,
    decisions: map<string, DecisionNode>)

  predicate NoDup<T(==)>(s: seq<T>) {
    forall i, j :: 0 <= i < j < |s| ==> s[i] != s[j]
  }

  /** Append `x` unless it is already there: what `MERGE` does to a node or relationship set. */
  function AddOnce<T(==, !new)>(s: seq<T>, x: T): (r: seq<T>)
    ensures x in r && forall y :: y in r <==> y in s || y == x
    ensures NoDup(s) ==> NoDup(r)
  {
    if x in s then s else s + [x]
  }

  /** `r.status IS NULL OR r.status = 'active'`. */
  predicate IsActive(r: RunNode) {
    r.status.None? || r.status == Some("active")
  }

  /** Keys are unique, the scan orders list exactly the stored nodes, and every
      relationship joins two stored nodes (a `MATCH` that finds nothing creates no relationship). */
  ghost predicate WellFormed(s: GraphState) {
    && NoDup(s.taskOrder) && (forall id :: id in s.tasks <==> id in s.taskOrder)
    && NoDup(s.runOrder) && (forall id :: id in s.runs <==> id in s.runOrder)
    && NoDup(s.outcomes)
    && NoDup(s.triggered) && (forall e :: e in s.triggered ==> e.0 in s.tasks && e.1 in s.runs)
    && NoDup(s.readEdges) && (forall e :: e in s.readEdges ==> e.0 in s.runs && e.1 in s.refs)
    && NoDup(s.writeEdges) && (forall e :: e in s.writeEdges ==> e.0 in s.runs && e.1 in s.arts)
    && NoDup(s.endedWith) && (forall e :: e in s.endedWith ==> e.0 in s.runs && e.1 in s.outcomes)
  }

  function Empty(): (s: GraphState)
    ensures WellFormed(s)
  {
    GraphState(map[], [], map[], [], map[], map[], [], [], [], [], [], map[])
  }

  /** `MERGE (t:Task {id: $id}) SET t.text = ..., t.embedding = ...`. */
  function WithTask(s: GraphState, id: string, node: TaskNode): (r: GraphState)
    ensures WellFormed(s) ==> WellFormed(r)
    ensures r.tasks == s.tasks[id := node]
    ensures r == s.(tasks := r.tasks, taskOrder := r.taskOrder)
  {
    s.(tasks := s.tasks[id := node], taskOrder := AddOnce(s.taskOrder, id))
  }

  /** `MERGE (r:Run {id: $id}) SET r.agent_id = ..., r.summary = ..., r.embedding = ...,
      r.run_tree = ..., r.created_at = ...`: every other property, `status` included, is kept. */
  function WithRun(s: GraphState, id: string, agentId: string, summary: string, embedding: seq<real>,
                   runTree: string, createdAt: string): (r: GraphState)
    ensures WellFormed(s) ==> WellFormed(r)
    ensures id in r.runs && r.runs[id].agentId == agentId && r.runs[id].summary == summary
    ensures r.runs[id].embedding == Some(embedding) && r.runs[id].runTree == Some(runTree)
    ensures r.runs[id].createdAt == Some(createdAt)
    ensures r.runs[id].status == if id in s.runs then s.runs[id].status else None
    ensures forall k :: k != id ==> (k in r.runs <==> k in s.runs) && (k in s.runs ==> r.runs[k] == s.runs[k])
    ensures r == s.(runs := r.runs, runOrder := r.runOrder)
  {
    var status := if id in s.runs then s.runs[id].status else None;
    var node := RunNode(agentId, summary, Some(embedding), Some(runTree), Some(createdAt), status);
    s.(runs := s.runs[id := node], runOrder := AddOnce(s.runOrder, id))
  }

  function WithRef(s: GraphState, id: string, node: RefNode): (r: GraphState)
    ensures WellFormed(s) ==> WellFormed(r)
    ensures r == s.(refs := s.refs[id := node])
  {
    s.(refs := s.refs[id := node])
  }

  function WithArt(s: GraphState, id: string, node: ArtNode): (r: GraphState)
    ensures WellFormed(s) ==> WellFormed(r)
    ensures r == s.(arts := s.arts[id := node])
  {
    s.(arts := s.arts[id := node])
  }

  /** `MATCH (t:Task {id: $task_id}) MATCH (r:Run {id: $run_id}) MERGE (t)-[:TRIGGERED]->(r)`. */
  function WithTriggered(s: GraphState, taskId: string, runId: string): (r: GraphState)
    ensures WellFormed(s) ==> WellFormed(r)
    ensures taskId in s.tasks && runId in s.runs ==> (taskId, runId) in r.triggered
    ensures r == s.(triggered := r.triggered)
  {
    if taskId in s.tasks && runId in s.runs then s.(triggered := AddOnce(s.triggered, (taskId, runId))) else s
  }

  /** `MATCH (r:Run {id: $run_id}) MATCH (ref:Reference {id: $ref_id}) MERGE (r)-[:READS]->(ref)`. */
  function WithReads(s: GraphState, runId: string, refId: string): (r: GraphState)
    ensures WellFormed(s) ==> WellFormed(r)
    ensures runId in s.runs && refId in s.refs ==> (runId, refId) in r.readEdges
    ensures r == s.(readEdges := r.readEdges)
  {
    if runId in s.runs && refId in s.refs then s.(readEdges := AddOnce(s.readEdges, (runId, refId))) else s
  }

  /** `MATCH (r:Run {id: $run_id}) MATCH (a:Artifact {id: $art_id}) MERGE (r)-[:WRITES]->(a)`. */
  function WithWrites(s: GraphState, runId: string, artId: string): (r: GraphState)
    ensures WellFormed(s) ==> WellFormed(r)
    ensures runId in s.runs && artId in s.arts ==> (runId, artId) in r.writeEdges
    ensures r == s.(writeEdges := r.writeEdges)
  {
    if runId in s.runs && artId in s.arts then s.(writeEdges := AddOnce(s.writeEdges, (runId, artId))) else s
  }

  /** `MATCH (r:Run {id: $run_id}) MERGE (o:Outcome {label: $outcome}) MERGE (r)-[:ENDED_WITH]->(o)`. */
  function WithOutcome(s: GraphState, runId: string, outcome: string): (r: GraphState)
    ensures WellFormed(s) ==> WellFormed(r)
    ensures runId in s.runs ==> outcome in r.outcomes && (runId, outcome) in r.endedWith
    ensures r == s.(outcomes := r.outcomes, endedWith := r.endedWith)
  {
    if runId in s.runs then s.(outcomes := AddOnce(s.outcomes, outcome), endedWith := AddOnce(s.endedWith, (runId, outcome)))
    else s
  }

  /** `MERGE (d:MemoryDecision {run_id: $run_id}) SET d.decision = ..., ...`. */
  function WithDecision(s: GraphState, runId: string, node: DecisionNode): (r: GraphState)
    ensures WellFormed(s) ==> WellFormed(r)
    ensures r == s.(decisions := s.decisions[runId := node])
  {
    s.(decisions := s.decisions[runId := node])
  }

  /** A Reference or Artifact as a read query returns it: its id, its `type`, and its
      `source_ref` (for a Reference) or `hash` (for an Artifact). */
  datatype Entry = Entry(id: string, kind: string, detail: string)

  /** `OPTIONAL MATCH (r)-[:READS]->(ref:Reference)` collected as `{id, type, source_ref}` maps
      in relationship order, keeping the maps whose `id` is truthy. */
  function ReadEntries(edges: seq<Edge>, runId: string, refs: map<string, RefNode>): (r: seq<Entry>)
    ensures forall e :: e in r ==>
              e.id != "" && (runId, e.id) in edges && e.id in refs && e.kind == refs[e.id].kind && e.detail == refs[e.id].sourceRef
    ensures forall id :: (runId, id) in edges && id in refs && id != "" ==> exists e :: e in r && e.id == id
  {
    if edges == [] then []
    else
      var e := edges[0];
      var rest := ReadEntries(edges[1..], runId, refs);
      if e.0 == runId && e.1 in refs && e.1 != "" then [Entry(e.1, refs[e.1].kind, refs[e.1].sourceRef)] + rest
      else rest
  }

  /** `OPTIONAL MATCH (r)-[:WRITES]->(a:Artifact)` collected as `{id, type, hash}` maps
      in relationship order, keeping the maps whose `id` is truthy. */
  function WriteEntries(edges: seq<Edge>, runId: string, arts: map<string, ArtNode>): (r: seq<Entry>)
    ensures forall e :: e in r ==>
              e.id != "" && (runId, e.id) in edges && e.id in arts && e.kind == arts[e.id].kind && e.detail == arts[e.id].hash
    ensures forall id :: (runId, id) in edges && id in arts && id != "" ==> exists e :: e in r && e.id == id
  {
    if edges == [] then []
    else
      var e := edges[0];
      var rest := WriteEntries(edges[1..], runId, arts);
      if e.0 == runId && e.1 in arts && e.1 != "" then [Entry(e.1, arts[e.1].kind, arts[e.1].hash)] + rest
      else rest
  }

  /** The label of the first Outcome the run `ENDED_WITH`, if any. */
  function OutcomeLabel(edges: seq<Edge>, runId: string): (r: Option<string>)
    ensures r.Some? ==> (runId, r.value) in edges
    ensures r.None? ==> forall e :: e in edges ==> e.0 != runId
  {
    if edges == [] then None
    else if edges[0].0 == runId then Some(edges[0].1)
    else OutcomeLabel(edges[1..], runId)
  }

  /** The labels of every Outcome the run `ENDED_WITH`, in relationship order, each once. */
  function Labels(edges: seq<Edge>, runId: string): (r: seq<string>)
    ensures forall l :: l in r <==> (runId, l) in edges
    ensures NoDup(edges) ==> NoDup(r)
  {
    if edges == [] then []
    else
      var rest := Labels(edges[1..], runId);
      if edges[0].0 == runId then [edges[0].1] + rest else rest
  }

  /** `o.label` read back with `or "unknown"`: an absent or empty label reads as "unknown". */
  function OutcomeText(s: GraphState, runId: string): (r: string)
    ensures r != ""
    ensures r != "unknown" ==> (runId, r) in s.endedWith
    ensures (forall e :: e in s.endedWith ==> e.0 != runId) ==> r == "unknown"
  {
    match OutcomeLabel(s.endedWith, runId)
    case Some(l) => if l != "" then l else "unknown"
    case None => "unknown"
  }

  /** The database the service talks to, with one method per kind of `MERGE` it issues. */
  class Graph {
    var tasks: map<string, TaskNode>
    var taskOrder: seq<string>
    var runs: map<string, RunNode>
    var runOrder: seq<string>
    var refs: map<string, RefNode>
    var arts: map<string, ArtNode>
    var outcomes: seq<string>
    var triggered: seq<Edge>
    var readEdges: seq<Edge>
    var writeEdges: seq<Edge>
    var endedWith: seq<Edge>
    var decisions: map<string, DecisionNode>

    function State(): GraphState
      reads this
    {
      GraphState(tasks, taskOrder, runs, runOrder, refs, arts, outcomes,
                 triggered, readEdges, writeEdges, endedWith, decisions)
    }

    ghost predicate Valid()
      reads this
    {
      WellFormed(State())
    }

    constructor ()
      ensures Valid() && State() == Empty()
    {
      tasks, taskOrder, runs, runOrder := map[], [], map[], [];
      refs, arts, outcomes := map[], map[], [];
      triggered, readEdges, writeEdges, endedWith := [], [], [], [];
      decisions := map[];
    }

    method MergeTask(id: string, node: TaskNode)
      requires Valid()
      modifies this
      ensures Valid() && State() == WithTask(old(State()), id, node)
    {
      tasks, taskOrder := tasks[id := node], AddOnce(taskOrder, id);
    }

    method MergeRun(id: string, agentId: string, summary: string, embedding: seq<real>,
                    runTree: string, createdAt: string)
      requires Valid()
      modifies this
      ensures Valid() && State() == WithRun(old(State()), id, agentId, summary, embedding, runTree, createdAt)
    {
      var status := if id in runs then runs[id].status else None;
      runs := runs[id := RunNode(agentId, summary, Some(embedding), Some(runTree), Some(createdAt), status)];
      runOrder := AddOnce(runOrder, id);
    }

    method MergeReference(id: string, node: RefNode)
      requires Valid()
      modifies this
      ensures Valid() && State() == WithRef(old(State()), id, node)
    {
      refs := refs[id := node];
    }

    method MergeArtifact(id: string, node: ArtNode)
      requires Valid()
      modifies this
      ensures Valid() && State() == WithArt(old(State()), id, node)
    {
      arts := arts[id := node];
    }

    method LinkTriggered(taskId: string, runId: string)
      requires Valid()
      modifies this
      ensures Valid() && State() == WithTriggered(old(State()), taskId, runId)
    {
      if taskId in tasks && runId in runs {
        triggered := AddOnce(triggered, (taskId, runId));
      }
    }

    method LinkReads(runId: string, refId: string)
      requires Valid()
      modifies this
      ensures Valid() && State() == WithReads(old(State()), runId, refId)
    {
      if runId in runs && refId in refs {
        readEdges := AddOnce(readEdges, (runId, refId));
      }
    }

    method LinkWrites(runId: string, artId: string)
      requires Valid()
      modifies this
      ensures Valid() && State() == WithWrites(old(State()), runId, artId)
    {
      if runId in runs && artId in arts {
        writeEdges := AddOnce(writeEdges, (runId, artId));
      }
    }

    method LinkOutcome(runId: string, outcome: string)
      requires Valid()
      modifies this
      ensures Valid() && State() == WithOutcome(old(State()), runId, outcome)
    {
      if runId in runs {
        outcomes := AddOnce(outcomes, outcome);
        endedWith := AddOnce(endedWith, (runId, outcome));
      }
    }

    method MergeDecision(runId: string, node: DecisionNode)
      requires Valid()
      modifies this
      ensures Valid() && State() == WithDecision(old(State()), runId, node)
    {
      decisions := decisions[runId := node];
    }
  }
}
