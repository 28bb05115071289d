/** The memory builder's write path (memory_builder.py): a finished run becomes a Task
    (matched by embedding or created), its References and Artifacts, a Run node carrying
    the LLM summary, and the relationships between them. Every write is a `MERGE`. */
module Builder {
  import opened Wrappers
  import opened Strs
  import opened Json
  import opened Store
  import opened Payload
  import opened Extraction
  import Embedding
  import Llm

  // ---------------------------------------------------------------- task matching

  /** The best match so far: `best_match` and `best_similarity`. */
  datatype Best = Best(id: Option<string>, similarity: real)

  /** `np.dot`'s error for two vectors of different lengths. */
  function ShapeError(q: seq<real>, e: seq<real>): string {
    "shapes (" + NatToString(|q|) + ",) and (" + NatToString(|e|) + ",) not aligned: "
    + NatToString(|q|) + " (dim 0) != " + NatToString(|e|) + " (dim 0)"
  }

  /** A stored task with an embedding that can be compared with `q`. */
  predicate Comparable(s: GraphState, id: string, q: seq<real>) {
    id in s.tasks && s.tasks[id].embedding.Some? && |s.tasks[id].embedding.value| == |q|
  }

  function Similarity(s: GraphState, id: string, q: seq<real>, sim: (seq<real>, seq<real>) -> real): real
    requires Comparable(s, id, q)
  {
    sim(q, s.tasks[id].embedding.value)
  }

  /** A task the loop may pick: at or above the threshold, and above the initial 0.0. */
  predicate Qualifies(s: GraphState, id: string, q: seq<real>, sim: (seq<real>, seq<real>) -> real, threshold: real) {
    Comparable(s, id, q) && Similarity(s, id, q, sim) >= threshold && Similarity(s, id, q, sim) > 0.0
  }

  /** One turn of the loop over the stored tasks that have an embedding. */
  function ScanStep(b: Best, s: GraphState, id: string, q: seq<real>,
                    sim: (seq<real>, seq<real>) -> real, threshold: real): Result<Best>
  {
    if id !in s.tasks || s.tasks[id].embedding.None? then Ok(b)
    else if |s.tasks[id].embedding.value| != |q| then Err(ShapeError(q, s.tasks[id].embedding.value))
    else
      var x := sim(q, s.tasks[id].embedding.value);
      if x >= threshold && x > b.similarity then Ok(Best(Some(id), x)) else Ok(b)
  }

  /** The loop over the tasks `ids`, in order, from `Best(None, 0.0)`. */
  function Scan(s: GraphState, ids: seq<string>, q: seq<real>,
                sim: (seq<real>, seq<real>) -> real, threshold: real): Result<Best>
  {
    if ids == [] then Ok(Best(None, 0.0))
    else
      var b :- Scan(s, ids[..|ids| - 1], q, sim, threshold);
      ScanStep(b, s, ids[|ids| - 1], q, sim, threshold)
  }

  /** What the scan of `ids` promises: the first task with the highest qualifying
      similarity, or none when no task qualifies. */
  ghost predicate FirstBest(b: Best, s: GraphState, ids: seq<string>, q: seq<real>,
                            sim: (seq<real>, seq<real>) -> real, threshold: real) {
    && (b.id.None? ==> b.similarity == 0.0 && forall k :: 0 <= k < |ids| ==> !Qualifies(s, ids[k], q, sim, threshold))
    && (b.id.Some? ==>
          exists i :: 0 <= i < |ids| && ids[i] == b.id.value && Qualifies(s, ids[i], q, sim, threshold)
            && Similarity(s, ids[i], q, sim) == b.similarity
            && (forall k :: 0 <= k < i && Qualifies(s, ids[k], q, sim, threshold) ==> Similarity(s, ids[k], q, sim) < b.similarity)
            && (forall k :: 0 <= k < |ids| && Qualifies(s, ids[k], q, sim, threshold) ==> Similarity(s, ids[k], q, sim) <= b.similarity))
  }

  /** One more task keeps the promise: the scan's update rule picks the new task exactly
      when it beats every earlier qualifying task. */
  lemma FirstBestStep(b: Best, s: GraphState, ids: seq<string>, last: string, q: seq<real>,
                      sim: (seq<real>, seq<real>) -> real, threshold: real)
    requires FirstBest(b, s, ids, q, sim, threshold) && ScanStep(b, s, last, q, sim, threshold).Ok?
    ensures FirstBest(ScanStep(b, s, last, q, sim, threshold).value, s, ids + [last], q, sim, threshold)
  {
    var r := ScanStep(b, s, last, q, sim, threshold).value;
    var all := ids + [last];
    assert forall k :: 0 <= k < |ids| ==> all[k] == ids[k];
    if r != b {
      assert Qualifies(s, last, q, sim, threshold);
      forall k | 0 <= k < |all| && Qualifies(s, all[k], q, sim, threshold)
        ensures Similarity(s, all[k], q, sim) <= r.similarity
      {
        if k < |ids| {
          assert Qualifies(s, ids[k], q, sim, threshold);
        }
      }
      assert all[|ids|] == last;
    } else if b.id.Some? {
      var i :| 0 <= i < |ids| && ids[i] == b.id.value && Qualifies(s, ids[i], q, sim, threshold)
        && Similarity(s, ids[i], q, sim) == b.similarity
        && (forall k :: 0 <= k < i && Qualifies(s, ids[k], q, sim, threshold) ==> Similarity(s, ids[k], q, sim) < b.similarity)
        && (forall k :: 0 <= k < |ids| && Qualifies(s, ids[k], q, sim, threshold) ==> Similarity(s, ids[k], q, sim) <= b.similarity);
      assert all[i] == ids[i];
    }
  }

  /** `_upsert_task`'s loop picks the first task of maximal similarity among those at or
      above the threshold (the strict `>` keeps the earliest on ties). */
  lemma {:induction false} ScanPicksFirstBest(s: GraphState, ids: seq<string>, q: seq<real>,
                                              sim: (seq<real>, seq<real>) -> real, threshold: real)
    ensures Scan(s, ids, q, sim, threshold).Ok? ==> FirstBest(Scan(s, ids, q, sim, threshold).value, s, ids, q, sim, threshold)
  {
    if ids != [] {
      var init, last := ids[..|ids| - 1], ids[|ids| - 1];
      ScanPicksFirstBest(s, init, q, sim, threshold);
      var prev := Scan(s, init, q, sim, threshold);
      if prev.Ok? && ScanStep(prev.value, s, last, q, sim, threshold).Ok? {
        FirstBestStep(prev.value, s, init, last, q, sim, threshold);
        assert init + [last] == ids;
      }
    }
  }

  /** The loop fails exactly when some stored embedding has another length than the query. */
  lemma {:induction false} ScanFailsOnMismatch(s: GraphState, ids: seq<string>, q: seq<real>,
                                               sim: (seq<real>, seq<real>) -> real, threshold: real)
    ensures Scan(s, ids, q, sim, threshold).Err? <==>
      exists k :: 0 <= k < |ids| && ids[k] in s.tasks && s.tasks[ids[k]].embedding.Some?
                  && |s.tasks[ids[k]].embedding.value| != |q|
  {
    if ids != [] {
      var init, last := ids[..|ids| - 1], ids[|ids| - 1];
      ScanFailsOnMismatch(s, init, q, sim, threshold);
      assert forall k :: 0 <= k < |init| ==> ids[k] == init[k];
      if Scan(s, init, q, sim, threshold).Err? {
        var k :| 0 <= k < |init| && init[k] in s.tasks && s.tasks[init[k]].embedding.Some?
                 && |s.tasks[init[k]].embedding.value| != |q|;
        assert ids[k] == init[k];
      } else {
        assert ids[|ids| - 1] == last;
      }
    }
  }

  /** Once the loop has raised, the rest of the tasks make no difference. */
  lemma {:induction false} ScanFailureSticks(s: GraphState, ids: seq<string>, j: nat, q: seq<real>,
                                             sim: (seq<real>, seq<real>) -> real, threshold: real)
    requires j <= |ids| && Scan(s, ids[..j], q, sim, threshold).Err?
    ensures Scan(s, ids, q, sim, threshold) == Scan(s, ids[..j], q, sim, threshold)
    decreases |ids| - j
  {
    if j < |ids| {
      assert ids[..j + 1][..j] == ids[..j];
      ScanFailureSticks(s, ids, j + 1, q, sim, threshold);
    } else {
      assert ids[..j] == ids;
    }
  }

  /** `_upsert_task`: the task's embedding first; then the best stored match, or a new
      Task whose id addresses the text. The new state is the second component. */
  function UpsertTaskSpec(s: GraphState, text: string, svc: Services): (Result<string>, GraphState) {
    match Embedding.Embed(text, svc.embed)
    case Err(e) => (Err(e), s)
    case Ok(q) =>
      match Scan(s, s.taskOrder, q, svc.sim, svc.threshold)
      case Err(e) => (Err(e), s)
      case Ok(b) =>
        if b.id.Some? && b.id.value != "" then (Ok(b.id.value), s)
        else
          var id := GenerateId("task", text, svc.sha);
          (Ok(id), WithTask(s, id, TaskNode(text, Some(q))))
  }

  /** The scan over the stored tasks in terms of the tasks themselves: it fails exactly
      when some task's embedding has another length than `q`; a match is a qualifying
      task no other task beats; no match means no task qualifies. */
  lemma ScanOverTasks(s: GraphState, q: seq<real>, sim: (seq<real>, seq<real>) -> real, threshold: real)
    requires WellFormed(s)
    ensures Scan(s, s.taskOrder, q, sim, threshold).Err? <==>
      exists id :: id in s.tasks && s.tasks[id].embedding.Some? && |s.tasks[id].embedding.value| != |q|
    ensures var b := Scan(s, s.taskOrder, q, sim, threshold);
      b.Ok? && b.value.id.Some? ==>
        && Qualifies(s, b.value.id.value, q, sim, threshold)
        && forall id :: id in s.tasks && Qualifies(s, id, q, sim, threshold) ==>
             Similarity(s, id, q, sim) <= Similarity(s, b.value.id.value, q, sim)
    ensures var b := Scan(s, s.taskOrder, q, sim, threshold);
      b.Ok? && b.value.id.None? ==> forall id :: id in s.tasks ==> !Qualifies(s, id, q, sim, threshold)
  {
    ScanPicksFirstBest(s, s.taskOrder, q, sim, threshold);
    ScanFailsOnMismatch(s, s.taskOrder, q, sim, threshold);
    var sc := Scan(s, s.taskOrder, q, sim, threshold);
    if sc.Err? {
      var k :| 0 <= k < |s.taskOrder| && s.taskOrder[k] in s.tasks && s.tasks[s.taskOrder[k]].embedding.Some?
               && |s.tasks[s.taskOrder[k]].embedding.value| != |q|;
    } else {
      forall id | id in s.tasks && s.tasks[id].embedding.Some?
        ensures |s.tasks[id].embedding.value| == |q|
      {
        assert id in s.taskOrder;
        var k :| 0 <= k < |s.taskOrder| && s.taskOrder[k] == id;
      }
      var b := sc.value;
      forall id | id in s.tasks && Qualifies(s, id, q, sim, threshold)
        ensures b.id.Some? && Similarity(s, id, q, sim) <= b.similarity
      {
        assert id in s.taskOrder;
        var k :| 0 <= k < |s.taskOrder| && s.taskOrder[k] == id;
      }
    }
  }

  /** `_upsert_task` fails when the text is blank or a stored embedding has another
      length than the query, and writes nothing then. Otherwise it either reuses a
      qualifying task no other task beats, writing nothing, or merges the Task
      "task_" + hash with the text and its embedding, which happens only when no task
      qualifies (or the best one has an empty id, which is falsy). */
  /** The part of `UpsertTaskProperties` later steps build on. */
  lemma UpsertTaskStored(s: GraphState, text: string, svc: Services)
    requires WellFormed(s)
    ensures var (r, t) := UpsertTaskSpec(s, text, svc);
      WellFormed(t) && (r.Ok? ==> r.value in t.tasks)
  {
    UpsertTaskProperties(s, text, svc);
  }

  lemma UpsertTaskProperties(s: GraphState, text: string, svc: Services)
    requires WellFormed(s)
    ensures var (r, t) := UpsertTaskSpec(s, text, svc);
      var e := Embedding.Embed(text, svc.embed);
      && WellFormed(t)
      && (r.Err? ==> t == s)
      && (e.Err? ==> r == Err(e.message))
      && (e.Ok? ==>
            (r.Err? <==> exists id :: id in s.tasks && s.tasks[id].embedding.Some? && |s.tasks[id].embedding.value| != |e.value|))
      && (r.Ok? ==> r.value in t.tasks)
      && (r.Ok? && t == s && r.value != GenerateId("task", text, svc.sha) ==>
            && r.value != ""
            && Qualifies(s, r.value, e.value, svc.sim, svc.threshold)
            && forall id :: id in s.tasks && Qualifies(s, id, e.value, svc.sim, svc.threshold) ==>
                 Similarity(s, id, e.value, svc.sim) <= Similarity(s, r.value, e.value, svc.sim))
      && (r.Ok? && r.value == GenerateId("task", text, svc.sha) ==>
            || t == s
            || (&& t == WithTask(s, r.value, TaskNode(text, Some(e.value)))
                && ((forall id :: id in s.tasks && id != "" ==> !Qualifies(s, id, e.value, svc.sim, svc.threshold))
                    || ("" in s.tasks && Qualifies(s, "", e.value, svc.sim, svc.threshold)))))
  {
    var e := Embedding.Embed(text, svc.embed);
    if e.Ok? {
      ScanOverTasks(s, e.value, svc.sim, svc.threshold);
      var sc := Scan(s, s.taskOrder, e.value, svc.sim, svc.threshold);
      if sc.Ok? && !(sc.value.id.Some? && sc.value.id.value != "") {
        var id := GenerateId("task", text, svc.sha);
        assert UpsertTaskSpec(s, text, svc) == (Ok(id), WithTask(s, id, TaskNode(text, Some(e.value))));
        assert sc.value.id.Some? ==> sc.value.id.value == "";
      }
    }
  }

  /** `_upsert_task` on the graph. */
  method UpsertTask(g: Graph, text: string, svc: Services) returns (r: Result<string>)
    requires g.Valid()
    modifies g
    ensures g.Valid() && (r, g.State()) == UpsertTaskSpec(old(g.State()), text, svc)
  {
    var q := Embedding.Embed(text, svc.embed);
    if q.Err? {
      return Err(q.message);
    }
    var order := g.taskOrder;
    ghost var s := g.State();
    var best: Option<string> := None;
    var bestSimilarity: real := 0.0;
    var i := 0;
    while i < |order|
      invariant 0 <= i <= |order| && g.State() == s
      invariant Scan(s, order[..i], q.value, svc.sim, svc.threshold) == Ok(Best(best, bestSimilarity))
    {
      assert order[..i + 1][..i] == order[..i];
      var id := order[i];
      if id in g.tasks && g.tasks[id].embedding.Some? {
        var e := g.tasks[id].embedding.value;
        if |e| != |q.value| {
          ScanFailureSticks(s, order, i + 1, q.value, svc.sim, svc.threshold);
          return Err(ShapeError(q.value, e));
        }
        var x := svc.sim(q.value, e);
        if x >= svc.threshold && x > bestSimilarity {
          best, bestSimilarity := Some(id), x;
        }
      }
      i := i + 1;
    }
    assert order[..i] == order;
    if best.Some? && best.value != "" {
      return Ok(best.value);
    }
    var id := GenerateId("task", text, svc.sha);
    g.MergeTask(id, TaskNode(text, Some(q.value)));
    return Ok(id);
  }

  // ---------------------------------------------------------------- references and artifacts

  /** One `MERGE ... SET` per pair, in order: each sets the node with that key. */
  function MergeAll<V>(m: map<string, V>, kvs: seq<(string, V)>): (r: map<string, V>)
    ensures forall k :: k in r <==> k in m || k in Keys(kvs)
    decreases |kvs|
  {
    if kvs == [] then m else MergeAll(m[kvs[0].0 := kvs[0].1], kvs[1..])
  }

  /** After the merges every key is stored, the last pair with a key decides its value,
      and nodes under other keys are untouched. */
  lemma {:induction false} MergeAllEffect<V>(m: map<string, V>, kvs: seq<(string, V)>)
    ensures var r := MergeAll(m, kvs);
      && (forall k :: k in m && k !in Keys(kvs) ==> r[k] == m[k])
      && (forall i :: 0 <= i < |kvs| && (forall j :: i < j < |kvs| ==> kvs[j].0 != kvs[i].0) ==> r[kvs[i].0] == kvs[i].1)
    decreases |kvs|
  {
    if kvs != [] {
      var m1 := m[kvs[0].0 := kvs[0].1];
      MergeAllEffect(m1, kvs[1..]);
      var r := MergeAll(m, kvs);
      assert Keys(kvs) == [kvs[0].0] + Keys(kvs[1..]);
      forall i | 0 <= i < |kvs| && (forall j :: i < j < |kvs| ==> kvs[j].0 != kvs[i].0)
        ensures r[kvs[i].0] == kvs[i].1
      {
        if i == 0 {
          forall j | 0 <= j < |kvs| - 1 ensures Keys(kvs[1..])[j] != kvs[0].0 {
            assert kvs[1..][j] == kvs[j + 1];
          }
          assert kvs[0].0 !in Keys(kvs[1..]);
        } else {
          assert kvs[1..][i - 1] == kvs[i];
          forall j | i - 1 < j < |kvs| - 1 ensures kvs[1..][j].0 != kvs[1..][i - 1].0 {
            assert kvs[1..][j] == kvs[j + 1];
          }
        }
      }
    }
  }

  /** The last index holding `x`. */
  lemma {:induction false} LastIndex(xs: seq<string>, x: string) returns (k: nat)
    requires x in xs
    ensures k < |xs| && xs[k] == x && forall j :: k < j < |xs| ==> xs[j] != x
  {
    if xs[|xs| - 1] == x {
      k := |xs| - 1;
    } else {
      var i :| 0 <= i < |xs| && xs[i] == x;
      assert xs[..|xs| - 1][i] == x;
      k := LastIndex(xs[..|xs| - 1], x);
      assert forall j :: k < j < |xs| - 1 ==> xs[j] == xs[..|xs| - 1][j];
    }
  }

  /** Merging the same nodes a second time changes nothing. */
  lemma MergeAllIdempotent<V>(m: map<string, V>, kvs: seq<(string, V)>)
    ensures MergeAll(MergeAll(m, kvs), kvs) == MergeAll(m, kvs)
  {
    var r := MergeAll(m, kvs);
    var u := MergeAll(r, kvs);
    MergeAllEffect(m, kvs);
    MergeAllEffect(r, kvs);
    forall k | k in r
      ensures u[k] == r[k]
    {
      if k in Keys(kvs) {
        var i := LastIndex(Keys(kvs), k);
      }
    }
    assert u.Keys == r.Keys;
  }

  /** The `MERGE` parameters of each Reference: its id, `type`, embedding and `source_ref`. */
  function ReferenceNodes(refs: seq<Reference>): (r: seq<(string, RefNode)>)
    ensures |r| == |refs|
    ensures forall i :: 0 <= i < |refs| ==> r[i] == (refs[i].id, RefNode(refs[i].kind, refs[i].embedding, refs[i].sourceRef))
  {
    seq(|refs|, i requires 0 <= i < |refs| => (refs[i].id, RefNode(refs[i].kind, refs[i].embedding, refs[i].sourceRef)))
  }

  /** The `MERGE` parameters of each Artifact: its id, `type`, embedding and `hash`. */
  function ArtifactNodes(arts: seq<Artifact>): (r: seq<(string, ArtNode)>)
    ensures |r| == |arts|
    ensures forall i :: 0 <= i < |arts| ==> r[i] == (arts[i].id, ArtNode(arts[i].kind, arts[i].embedding, arts[i].hash))
  {
    seq(|arts|, i requires 0 <= i < |arts| => (arts[i].id, ArtNode(arts[i].kind, arts[i].embedding, arts[i].hash)))
  }

  /** The graph after `_upsert_reference` for each Reference in turn. */
  function WithReferences(s: GraphState, refs: seq<Reference>): (r: GraphState)
    ensures WellFormed(s) ==> WellFormed(r)
  {
    s.(refs := MergeAll(s.refs, ReferenceNodes(refs)))
  }

  /** The graph after `_upsert_artifact` for each Artifact in turn. */
  function WithArtifacts(s: GraphState, arts: seq<Artifact>): (r: GraphState)
    ensures WellFormed(s) ==> WellFormed(r)
  {
    s.(arts := MergeAll(s.arts, ArtifactNodes(arts)))
  }

  /** The loop of `process_run` over the References: each is merged and its id collected. */
  method UpsertReferences(g: Graph, refs: seq<Reference>) returns (ids: seq<string>)
    requires g.Valid()
    modifies g
    ensures g.Valid() && g.State() == WithReferences(old(g.State()), refs)
    ensures ids == Keys(ReferenceNodes(refs))
  {
    ghost var s := g.State();
    ghost var nodes := ReferenceNodes(refs);
    ids := [];
    var i := 0;
    while i < |refs|
      invariant 0 <= i <= |refs| && g.Valid()
      invariant g.State() == s.(refs := g.refs)
      invariant MergeAll(g.refs, nodes[i..]) == MergeAll(s.refs, nodes)
      invariant ids == Keys(nodes[..i])
    {
      assert nodes[i..] == [nodes[i]] + nodes[i + 1..];
      assert nodes[..i + 1] == nodes[..i] + [nodes[i]];
      KeysAppend(nodes[..i], nodes[i]);
      g.MergeReference(refs[i].id, RefNode(refs[i].kind, refs[i].embedding, refs[i].sourceRef));
      ids := ids + [refs[i].id];
      i := i + 1;
    }
    assert nodes[i..] == [] && nodes[..i] == nodes;
  }

  /** The loop of `process_run` over the Artifacts: each is merged and its id collected. */
  method UpsertArtifacts(g: Graph, arts: seq<Artifact>) returns (ids: seq<string>)
    requires g.Valid()
    modifies g
    ensures g.Valid() && g.State() == WithArtifacts(old(g.State()), arts)
    ensures ids == Keys(ArtifactNodes(arts))
  {
    ghost var s := g.State();
    ghost var nodes := ArtifactNodes(arts);
    ids := [];
    var i := 0;
    while i < |arts|
      invariant 0 <= i <= |arts| && g.Valid()
      invariant g.State() == s.(arts := g.arts)
      invariant MergeAll(g.arts, nodes[i..]) == MergeAll(s.arts, nodes)
      invariant ids == Keys(nodes[..i])
    {
      assert nodes[i..] == [nodes[i]] + nodes[i + 1..];
      assert nodes[..i + 1] == nodes[..i] + [nodes[i]];
      KeysAppend(nodes[..i], nodes[i]);
      g.MergeArtifact(arts[i].id, ArtNode(arts[i].kind, arts[i].embedding, arts[i].hash));
      ids := ids + [arts[i].id];
      i := i + 1;
    }
    assert nodes[i..] == [] && nodes[..i] == nodes;
  }

  /** Every Reference's id is among the ids `process_run` collects. */
  lemma ReferenceIdsListed(refs: seq<Reference>)
    ensures forall x :: x in refs ==> x.id in Keys(ReferenceNodes(refs))
  {
    forall x | x in refs ensures x.id in Keys(ReferenceNodes(refs)) {
      var i :| 0 <= i < |refs| && refs[i] == x;
      assert Keys(ReferenceNodes(refs))[i] == x.id;
    }
  }

  /** Every Artifact's id is among the ids `process_run` collects. */
  lemma ArtifactIdsListed(arts: seq<Artifact>)
    ensures forall x :: x in arts ==> x.id in Keys(ArtifactNodes(arts))
  {
    forall x | x in arts ensures x.id in Keys(ArtifactNodes(arts)) {
      var i :| 0 <= i < |arts| && arts[i] == x;
      assert Keys(ArtifactNodes(arts))[i] == x.id;
    }
  }

  lemma KeysAppend<V>(kvs: seq<(string, V)>, kv: (string, V))
    ensures Keys(kvs + [kv]) == Keys(kvs) + [kv.0]
  {
  }

  /** Each extracted Reference is stored under its id, the last one with an id deciding
      what it holds; nothing but the Reference nodes changes, and repeating the upserts
      changes nothing. */
  lemma WithReferencesProperties(s: GraphState, refs: seq<Reference>)
    ensures var t := WithReferences(s, refs);
      && t == s.(refs := t.refs)
      && (forall id :: id in t.refs <==> id in s.refs || id in Keys(ReferenceNodes(refs)))
      && (forall id :: id in s.refs && id !in Keys(ReferenceNodes(refs)) ==> t.refs[id] == s.refs[id])
      && (forall i :: 0 <= i < |refs| && (forall j :: i < j < |refs| ==> refs[j].id != refs[i].id) ==>
            t.refs[refs[i].id] == RefNode(refs[i].kind, refs[i].embedding, refs[i].sourceRef))
      && WithReferences(t, refs) == t
  {
    var nodes := ReferenceNodes(refs);
    var t := WithReferences(s, refs);
    MergeAllEffect(s.refs, nodes);
    MergeAllIdempotent(s.refs, nodes);
    forall i | 0 <= i < |refs| && (forall j :: i < j < |refs| ==> refs[j].id != refs[i].id)
      ensures t.refs[refs[i].id] == RefNode(refs[i].kind, refs[i].embedding, refs[i].sourceRef)
    {
      assert nodes[i] == (refs[i].id, RefNode(refs[i].kind, refs[i].embedding, refs[i].sourceRef));
      forall j | i < j < |nodes| ensures nodes[j].0 != nodes[i].0 {
        assert nodes[j].0 == refs[j].id;
      }
    }
  }

  /** The same for Artifacts. */
  lemma WithArtifactsProperties(s: GraphState, arts: seq<Artifact>)
    ensures var t := WithArtifacts(s, arts);
      && t == s.(arts := t.arts)
      && (forall id :: id in t.arts <==> id in s.arts || id in Keys(ArtifactNodes(arts)))
      && (forall id :: id in s.arts && id !in Keys(ArtifactNodes(arts)) ==> t.arts[id] == s.arts[id])
      && (forall i :: 0 <= i < |arts| && (forall j :: i < j < |arts| ==> arts[j].id != arts[i].id) ==>
            t.arts[arts[i].id] == ArtNode(arts[i].kind, arts[i].embedding, arts[i].hash))
      && WithArtifacts(t, arts) == t
  {
    var nodes := ArtifactNodes(arts);
    var t := WithArtifacts(s, arts);
    MergeAllEffect(s.arts, nodes);
    MergeAllIdempotent(s.arts, nodes);
    forall i | 0 <= i < |arts| && (forall j :: i < j < |arts| ==> arts[j].id != arts[i].id)
      ensures t.arts[arts[i].id] == ArtNode(arts[i].kind, arts[i].embedding, arts[i].hash)
    {
      assert nodes[i] == (arts[i].id, ArtNode(arts[i].kind, arts[i].embedding, arts[i].hash));
      forall j | i < j < |nodes| ensures nodes[j].0 != nodes[i].0 {
        assert nodes[j].0 == arts[j].id;
      }
    }
  }

  // ---------------------------------------------------------------- the run

  /** One READS relationship per id, in order; a missing Reference links nothing. */
  function ReadsAll(s: GraphState, runId: string, ids: seq<string>): (r: GraphState)
    ensures WellFormed(s) ==> WellFormed(r)
    ensures r == s.(readEdges := r.readEdges)
    ensures forall e :: e in s.readEdges ==> e in r.readEdges
    ensures forall e :: e in r.readEdges ==> e in s.readEdges || (e.0 == runId && e.1 in ids)
    ensures forall id :: id in ids && runId in s.runs && id in s.refs ==> (runId, id) in r.readEdges
    decreases |ids|
  {
    if ids == [] then s else ReadsAll(WithReads(s, runId, ids[0]), runId, ids[1..])
  }

  /** One WRITES relationship per id, in order; a missing Artifact links nothing. */
  function WritesAll(s: GraphState, runId: string, ids: seq<string>): (r: GraphState)
    ensures WellFormed(s) ==> WellFormed(r)
    ensures r == s.(writeEdges := r.writeEdges)
    ensures forall e :: e in s.writeEdges ==> e in r.writeEdges
    ensures forall e :: e in r.writeEdges ==> e in s.writeEdges || (e.0 == runId && e.1 in ids)
    ensures forall id :: id in ids && runId in s.runs && id in s.arts ==> (runId, id) in r.writeEdges
    decreases |ids|
  {
    if ids == [] then s else WritesAll(WithWrites(s, runId, ids[0]), runId, ids[1..])
  }

  /** `payload.get_created_at() or datetime.utcnow()`, as `isoformat()` text. */
  function CreatedAt(p: RunPayload, svc: Services): (r: string)
    ensures p.createdAt.Some? ==> r == p.createdAt.value.iso
    ensures p.createdAt.None? && Given(p.startTimestamp) ==>
      r == (match svc.isoparse(p.startTimestamp.value) case Some(d) => d.iso case None => svc.now.iso)
    ensures p.createdAt.None? && !Given(p.startTimestamp) ==> r == svc.now.iso
  {
    GetCreatedAt(p, svc.isoparse).GetOr(svc.now).iso
  }

  /** `_create_run`: the Run node, then TRIGGERED from the task, READS and WRITES to each
      id, and ENDED_WITH the payload's outcome. */
  function CreateRunState(s: GraphState, p: RunPayload, summary: string, embedding: seq<real>, taskId: string,
                          refIds: seq<string>, artIds: seq<string>, tree: Dict, svc: Services): GraphState
  {
    var s1 := WithRun(s, p.runId, p.agentId, summary, embedding, svc.dumps(JObj(tree)), CreatedAt(p, svc));
    var s2 := WithTriggered(s1, taskId, p.runId);
    var s3 := ReadsAll(s2, p.runId, refIds);
    var s4 := WritesAll(s3, p.runId, artIds);
    WithOutcome(s4, p.runId, GetOutcome(p))
  }

  /** What `_create_run` leaves in the graph: the Run with its summary, embedding and
      serialised run log; the TRIGGERED edge from a stored task; a READS or WRITES edge
      to every stored Reference and Artifact named; the ENDED_WITH edge to the outcome;
      no other node changed and no relationship from another run added. */
  lemma CreateRunEffects(s: GraphState, p: RunPayload, summary: string, embedding: seq<real>, taskId: string,
                         refIds: seq<string>, artIds: seq<string>, tree: Dict, svc: Services)
    requires WellFormed(s)
    ensures var t := CreateRunState(s, p, summary, embedding, taskId, refIds, artIds, tree, svc);
      && WellFormed(t)
      && p.runId in t.runs
      && t.runs[p.runId].agentId == p.agentId && t.runs[p.runId].summary == summary
      && t.runs[p.runId].embedding == Some(embedding)
      && t.runs[p.runId].runTree == Some(svc.dumps(JObj(tree)))
      && t.runs[p.runId].createdAt == Some(CreatedAt(p, svc))
      && (forall k :: k != p.runId && k in s.runs ==> k in t.runs && t.runs[k] == s.runs[k])
      && t.tasks == s.tasks && t.refs == s.refs && t.arts == s.arts && t.decisions == s.decisions
      && (taskId in s.tasks ==> (taskId, p.runId) in t.triggered)
      && (forall id :: id in refIds && id in s.refs ==> (p.runId, id) in t.readEdges)
      && (forall id :: id in artIds && id in s.arts ==> (p.runId, id) in t.writeEdges)
      && (forall e :: e in t.readEdges ==> e in s.readEdges || e.0 == p.runId)
      && (forall e :: e in t.writeEdges ==> e in s.writeEdges || e.0 == p.runId)
      && (p.runId, GetOutcome(p)) in t.endedWith
  {
  }

  /** Submitting the same run twice (with the same clock) leaves the graph as one
      submission does: every write is a `MERGE`. */
  lemma CreateRunIdempotent(s: GraphState, p: RunPayload, summary: string, embedding: seq<real>, taskId: string,
                            refIds: seq<string>, artIds: seq<string>, tree: Dict, svc: Services)
    ensures var t := CreateRunState(s, p, summary, embedding, taskId, refIds, artIds, tree, svc);
      CreateRunState(t, p, summary, embedding, taskId, refIds, artIds, tree, svc) == t
  {
    var id, run, created := p.runId, svc.dumps(JObj(tree)), CreatedAt(p, svc);
    var s1 := WithRun(s, id, p.agentId, summary, embedding, run, created);
    var s2 := WithTriggered(s1, taskId, id);
    var s3 := ReadsAll(s2, id, refIds);
    var s4 := WritesAll(s3, id, artIds);
    var t := WithOutcome(s4, id, GetOutcome(p));
    assert t.runs == s1.runs && t.runOrder == s1.runOrder && t.tasks == s1.tasks;
    RunMergedAgain(t, id, p.agentId, summary, embedding, run, created);
    assert WithTriggered(t, taskId, id) == t;
    ReadsAllUnchanged(t, id, refIds);
    WritesAllUnchanged(t, id, artIds);
  }

  /** Merging a Run with the properties it already has changes nothing. */
  lemma RunMergedAgain(t: GraphState, id: string, agentId: string, summary: string, embedding: seq<real>,
                       runTree: string, createdAt: string)
    requires id in t.runs && id in t.runOrder
    requires t.runs[id] == RunNode(agentId, summary, Some(embedding), Some(runTree), Some(createdAt), t.runs[id].status)
    ensures WithRun(t, id, agentId, summary, embedding, runTree, createdAt) == t
  {
    assert t.runs[id := t.runs[id]] == t.runs;
  }

  /** When every READS edge is already there, linking them again changes nothing. */
  lemma {:induction false} ReadsAllUnchanged(s: GraphState, runId: string, ids: seq<string>)
    requires forall id :: id in ids && runId in s.runs && id in s.refs ==> (runId, id) in s.readEdges
    ensures ReadsAll(s, runId, ids) == s
    decreases |ids|
  {
    if ids != [] {
      assert WithReads(s, runId, ids[0]) == s;
      ReadsAllUnchanged(s, runId, ids[1..]);
    }
  }

  /** When every WRITES edge is already there, linking them again changes nothing. */
  lemma {:induction false} WritesAllUnchanged(s: GraphState, runId: string, ids: seq<string>)
    requires forall id :: id in ids && runId in s.runs && id in s.arts ==> (runId, id) in s.writeEdges
    ensures WritesAll(s, runId, ids) == s
    decreases |ids|
  {
    if ids != [] {
      assert WithWrites(s, runId, ids[0]) == s;
      WritesAllUnchanged(s, runId, ids[1..]);
    }
  }

  /** `_create_run` on the graph. */
  method CreateRun(g: Graph, p: RunPayload, summary: string, embedding: seq<real>, taskId: string,
                   refIds: seq<string>, artIds: seq<string>, tree: Dict, svc: Services) returns (runId: string)
    requires g.Valid()
    modifies g
    ensures g.Valid() && g.State() == CreateRunState(old(g.State()), p, summary, embedding, taskId, refIds, artIds, tree, svc)
    ensures runId == p.runId
  {
    runId := p.runId;
    g.MergeRun(runId, p.agentId, summary, embedding, svc.dumps(JObj(tree)), CreatedAt(p, svc));
    g.LinkTriggered(taskId, runId);
    ghost var s2 := g.State();
    var i := 0;
    while i < |refIds|
      invariant 0 <= i <= |refIds| && g.Valid()
      invariant ReadsAll(g.State(), runId, refIds[i..]) == ReadsAll(s2, runId, refIds)
    {
      assert refIds[i..][1..] == refIds[i + 1..];
      g.LinkReads(runId, refIds[i]);
      i := i + 1;
    }
    assert refIds[i..] == [];
    ghost var s3 := g.State();
    i := 0;
    while i < |artIds|
      invariant 0 <= i <= |artIds| && g.Valid()
      invariant WritesAll(g.State(), runId, artIds[i..]) == WritesAll(s3, runId, artIds)
    {
      assert artIds[i..][1..] == artIds[i + 1..];
      g.LinkWrites(runId, artIds[i]);
      i := i + 1;
    }
    assert artIds[i..] == [];
    g.LinkOutcome(runId, GetOutcome(p));
  }

  // ---------------------------------------------------------------- process_run

  /** The dictionary `process_run` returns: the counts on success, `str(e)` on failure. */
  datatype ProcessResult =
    | Processed(runId: string, taskId: string, referencesCount: nat, artifactsCount: nat)
    | Failed(error: string)

  const MissingTaskText: string := "task_text or user_task must be provided"

  /** `process_run`: the pipeline, with the state it leaves. A failure part-way keeps the
      writes already made (a new Task, the References); the Run is written last. */
  function ProcessSpec(s: GraphState, p: RunPayload, svc: Services): (ProcessResult, GraphState) {
    var text := GetTaskText(p);
    if text == "" then (Failed(MissingTaskText), s)
    else
      var (task, s1) := UpsertTaskSpec(s, text, svc);
      if task.Err? then (Failed(task.message), s1)
      else RecordSpec(s1, p, task.value, svc)
  }

  /** Steps 2 and 3 of `process_run`, once the task is known: the summary and its
      embedding, then the References extracted and merged. */
  function RecordSpec(s: GraphState, p: RunPayload, taskId: string, svc: Services): (ProcessResult, GraphState) {
    var tree := GetRunTree(p);
    var summary := Llm.SummarizeRun(tree, GetOutcome(p), svc.summarize);
    if summary.Err? then (Failed(summary.message), s)
    else
      var embedding := Embedding.Embed(summary.value, svc.embed);
      if embedding.Err? then (Failed(embedding.message), s)
      else
        var refs := ReferencesSpec(tree, svc);
        if refs.Err? then (Failed(refs.message), s)
        else StoreSpec(WithReferences(s, refs.value), p, taskId, summary.value, embedding.value, refs.value, svc)
  }

  /** Steps 4 and 5 of `process_run`: the Artifacts extracted and merged, then the Run. */
  function StoreSpec(s: GraphState, p: RunPayload, taskId: string, summary: string, embedding: seq<real>,
                     refs: seq<Reference>, svc: Services): (ProcessResult, GraphState)
  {
    var tree := GetRunTree(p);
    var arts := ArtifactsSpec(tree, svc);
    if arts.Err? then (Failed(arts.message), s)
    else
      var refIds := Keys(ReferenceNodes(refs));
      var artIds := Keys(ArtifactNodes(arts.value));
      (Processed(p.runId, taskId, |refs|, |arts.value|),
       CreateRunState(WithArtifacts(s, arts.value), p, summary, embedding, taskId, refIds, artIds, tree, svc))
  }

  /** `process_run` on the graph. */
  method ProcessRun(g: Graph, p: RunPayload, svc: Services) returns (r: ProcessResult)
    requires g.Valid()
    modifies g
    ensures g.Valid() && (r, g.State()) == ProcessSpec(old(g.State()), p, svc)
  {
    var text := GetTaskText(p);
    if text == "" {
      return Failed(MissingTaskText);
    }
    var task := UpsertTask(g, text, svc);
    if task.Err? {
      return Failed(task.message);
    }
    ghost var s1 := g.State();
    var tree := GetRunTree(p);
    var summary := Llm.SummarizeRun(tree, GetOutcome(p), svc.summarize);
    if summary.Err? {
      return Failed(summary.message);
    }
    var embedding := Embedding.Embed(summary.value, svc.embed);
    if embedding.Err? {
      return Failed(embedding.message);
    }
    var refs := ExtractReferences(tree, svc);
    if refs.Err? {
      return Failed(refs.message);
    }
    var refIds := UpsertReferences(g, refs.value);
    ghost var s2 := g.State();
    assert RecordSpec(s1, p, task.value, svc) == StoreSpec(s2, p, task.value, summary.value, embedding.value, refs.value, svc);
    var arts := ExtractArtifacts(tree, svc);
    if arts.Err? {
      return Failed(arts.message);
    }
    var artIds := UpsertArtifacts(g, arts.value);
    var runId := CreateRun(g, p, summary.value, embedding.value, task.value, refIds, artIds, tree, svc);
    return Processed(runId, task.value, |refIds|, |artIds|);
  }

  /** A payload without task text is refused before anything is written. */
  lemma MissingTaskRefused(s: GraphState, p: RunPayload, svc: Services)
    requires !Given(p.userTask) && !Given(p.taskText)
    ensures ProcessSpec(s, p, svc) == (Failed(MissingTaskText), s)
  {
  }

  /** An exception from the LLM client while summarising, or from the embedding provider
      on the summary, reaches the handler of `process_run`: the result is a failure with
      its text, and the Task the first step wrote stays in the graph. */
  lemma ProviderErrorReported(s: GraphState, p: RunPayload, svc: Services)
    requires GetTaskText(p) != "" && UpsertTaskSpec(s, GetTaskText(p), svc).0.Ok?
    ensures var s1 := UpsertTaskSpec(s, GetTaskText(p), svc).1;
      var tree := GetRunTree(p);
      Llm.Render(tree, 0).Ok? && svc.summarize(Llm.Render(tree, 0).value, GetOutcome(p)).Err? ==>
        ProcessSpec(s, p, svc) == (Failed(svc.summarize(Llm.Render(tree, 0).value, GetOutcome(p)).message), s1)
    ensures var s1 := UpsertTaskSpec(s, GetTaskText(p), svc).1;
      var summary := Llm.SummarizeRun(GetRunTree(p), GetOutcome(p), svc.summarize);
      summary.Ok? && !IsBlank(summary.value) && svc.embed(Strip(summary.value)).Err? ==>
        ProcessSpec(s, p, svc) == (Failed(svc.embed(Strip(summary.value)).message), s1)
  {
    Llm.RenderOkIff(GetRunTree(p), 0);
  }

  /** What storing the Artifacts and the Run leaves: see `ProcessedEffects`. */
  lemma StoreEffects(s: GraphState, p: RunPayload, taskId: string, summary: string, embedding: seq<real>,
                     refs: seq<Reference>, svc: Services)
    requires WellFormed(s) && taskId in s.tasks && forall x :: x in refs ==> x.id in s.refs
    requires StoreSpec(s, p, taskId, summary, embedding, refs, svc).0.Processed?
    ensures var (r, t) := StoreSpec(s, p, taskId, summary, embedding, refs, svc);
      var arts := ArtifactsSpec(GetRunTree(p), svc);
      && WellFormed(t)
      && r == Processed(p.runId, taskId, |refs|, |arts.value|)
      && p.runId in t.runs && t.runs[p.runId].summary == summary && t.runs[p.runId].embedding == Some(embedding)
      && (taskId, p.runId) in t.triggered
      && (forall x :: x in refs ==> x.id in t.refs && (p.runId, x.id) in t.readEdges)
      && (forall x :: x in arts.value ==> x.id in t.arts && (p.runId, x.id) in t.writeEdges)
      && (p.runId, GetOutcome(p)) in t.endedWith
  {
    var tree := GetRunTree(p);
    var arts := ArtifactsSpec(tree, svc).value;
    WithArtifactsProperties(s, arts);
    var s3 := WithArtifacts(s, arts);
    var refIds := Keys(ReferenceNodes(refs));
    var artIds := Keys(ArtifactNodes(arts));
    CreateRunEffects(s3, p, summary, embedding, taskId, refIds, artIds, tree, svc);
    ReferenceIdsListed(refs);
    ArtifactIdsListed(arts);
  }

  /** A processed run is in the graph with its summary, triggered by the task
      `process_run` reports (a stored Task), reading every extracted Reference and
      writing every extracted Artifact (both stored), and ending with the payload's
      outcome; the counts are the lengths of the extracted lists. */
  lemma ProcessedEffects(s: GraphState, p: RunPayload, svc: Services)
    requires WellFormed(s)
    requires ProcessSpec(s, p, svc).0.Processed?
    ensures var (r, t) := ProcessSpec(s, p, svc);
      var refs := ReferencesSpec(GetRunTree(p), svc);
      var arts := ArtifactsSpec(GetRunTree(p), svc);
      && WellFormed(t)
      && refs.Ok? && arts.Ok?
      && r.runId == p.runId && r.referencesCount == |refs.value| && r.artifactsCount == |arts.value|
      && p.runId in t.runs && r.taskId in t.tasks && (r.taskId, p.runId) in t.triggered
      && (forall x :: x in refs.value ==> x.id in t.refs && (p.runId, x.id) in t.readEdges)
      && (forall x :: x in arts.value ==> x.id in t.arts && (p.runId, x.id) in t.writeEdges)
      && (p.runId, GetOutcome(p)) in t.endedWith
  {
    var text := GetTaskText(p);
    UpsertTaskStored(s, text, svc);
    var (task, s1) := UpsertTaskSpec(s, text, svc);
    assert text != "" && task.Ok? && ProcessSpec(s, p, svc) == RecordSpec(s1, p, task.value, svc);
    var tree := GetRunTree(p);
    var summary := Llm.SummarizeRun(tree, GetOutcome(p), svc.summarize);
    assert summary.Ok?;
    var embedding := Embedding.Embed(summary.value, svc.embed);
    assert embedding.Ok? && ReferencesSpec(tree, svc).Ok?;
    var refs := ReferencesSpec(tree, svc).value;
    WithReferencesProperties(s1, refs);
    var s2 := WithReferences(s1, refs);
    ReferenceIdsListed(refs);
    assert RecordSpec(s1, p, task.value, svc) == StoreSpec(s2, p, task.value, summary.value, embedding.value, refs, svc);
    StoreEffects(s2, p, task.value, summary.value, embedding.value, refs, svc);
  }
}
