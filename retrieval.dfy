/** The read side of the memory service (memory_retrieval.py): vector search over stored
    runs, expansion of a run into its references, artifacts and outcome, the observations
    and confidence handed back to the agent, and the listing of all runs. Every method here
    takes the graph without a `modifies` clause: retrieval only reads the store. */
module Retrieval {
  import opened Wrappers
  import opened Strs
  import opened Json
  import opened Ranking
  import opened Store
  import Embedding

  /** `AND r.agent_id = $agent_id`, added only when an agent id is given. */
  predicate AgentMatches(r: RunNode, agent: Option<string>) {
    !Given(agent) || r.agentId == agent.value
  }

  // ---------------------------------------------------------------- vector search

  datatype Hit = Hit(runId: string, similarity: real)

  /** The run is returned by the search query (active, with an embedding, of the agent
      asked for) and its embedding has the query's dimension. */
  predicate Searchable(s: GraphState, id: string, q: seq<real>, agent: Option<string>) {
    && id in s.runs && IsActive(s.runs[id]) && AgentMatches(s.runs[id], agent)
    && s.runs[id].embedding.Some? && |s.runs[id].embedding.value| == |q|
  }

  /** The hits among the runs `ids`, in scan order: every searchable run with its similarity. */
  function Hits(s: GraphState, ids: seq<string>, q: seq<real>, sim: (seq<real>, seq<real>) -> real,
                agent: Option<string>): seq<Hit>
  {
    if ids == [] then []
    else
      var prev := Hits(s, ids[..|ids| - 1], q, sim, agent);
      var id := ids[|ids| - 1];
      if Searchable(s, id, q, agent) then prev + [Hit(id, sim(q, s.runs[id].embedding.value))]
      else prev
  }

  /** A hit is exactly a searchable run among `ids`, scored against the query. */
  lemma {:induction false} HitsExactly(s: GraphState, ids: seq<string>, q: seq<real>,
                                       sim: (seq<real>, seq<real>) -> real, agent: Option<string>)
    ensures forall h :: h in Hits(s, ids, q, sim, agent) <==>
      h.runId in ids && Searchable(s, h.runId, q, agent) && h.similarity == sim(q, s.runs[h.runId].embedding.value)
  {
    if ids != [] {
      var init := ids[..|ids| - 1];
      HitsExactly(s, init, q, sim, agent);
      assert ids == init + [ids[|ids| - 1]];
    }
  }

  /** `sort(key=similarity, reverse=True)`. */
  predicate HigherHit(a: Hit, b: Hit) {
    a.similarity >= b.similarity
  }

  lemma HigherHitIsPreorder()
    ensures TotalPreorder(HigherHit)
  {
  }

  /** `_vector_search_runs(q, top_k, agent_id)`: every hit, stably sorted by decreasing
      similarity, cut to `top_k`. There is no minimum score. */
  function Search(s: GraphState, q: seq<real>, sim: (seq<real>, seq<real>) -> real, topK: int,
                  agent: Option<string>): seq<Hit>
  {
    TopK(Hits(s, s.runOrder, q, sim, agent), HigherHit, topK)
  }

  /** What the search returns: at most `top_k` stored runs, each active, of the agent asked
      for and of the query's dimension, scored against the query, best first with ties in
      scan order; no run left out scores above one kept; and the result is empty only when
      no stored run is searchable (or `top_k` keeps none). */
  lemma SearchProperties(s: GraphState, q: seq<real>, sim: (seq<real>, seq<real>) -> real, topK: int,
                         agent: Option<string>)
    ensures var hits := Hits(s, s.runOrder, q, sim, agent);
      var r := Search(s, q, sim, topK, agent);
      && (topK >= 0 ==> |r| <= topK)
      && (forall h :: h in r ==>
            h.runId in s.runOrder && Searchable(s, h.runId, q, agent) && h.similarity == sim(q, s.runs[h.runId].embedding.value))
      && Sorted(r, HigherHit)
      && (forall v :: Tied(r, HigherHit, v) <= Tied(hits, HigherHit, v))
      && (forall c, h :: c in multiset(hits) - multiset(r) && h in r ==> h.similarity >= c.similarity)
      && (r == [] <==> (forall id :: id in s.runOrder ==> !Searchable(s, id, q, agent)) || topK == 0 || topK <= -|hits|)
  {
    var hits := Hits(s, s.runOrder, q, sim, agent);
    var r := Search(s, q, sim, topK, agent);
    HigherHitIsPreorder();
    TopKProperties(hits, HigherHit, topK);
    HitsExactly(s, s.runOrder, q, sim, agent);
    forall h | h in r
      ensures h in hits
    {
      assert h in multiset(r);
    }
    forall c, h | c in multiset(hits) - multiset(r) && h in r
      ensures h.similarity >= c.similarity
    {
      assert HigherHit(h, c);
    }
    HitsEmptyIff(s, s.runOrder, q, sim, agent);
  }

  lemma {:induction false} HitsEmptyIff(s: GraphState, ids: seq<string>, q: seq<real>,
                                        sim: (seq<real>, seq<real>) -> real, agent: Option<string>)
    ensures Hits(s, ids, q, sim, agent) == [] <==> forall id :: id in ids ==> !Searchable(s, id, q, agent)
  {
    if ids != [] {
      var init := ids[..|ids| - 1];
      HitsEmptyIff(s, init, q, sim, agent);
      assert forall x :: x in ids <==> x in init || x == ids[|ids| - 1];
    }
  }

  /** `_vector_search_runs`: scan the runs the query returns, keep those of the query's
      dimension with their similarity, sort in place, take the first `top_k`. */
  method VectorSearchRuns(g: Graph, q: seq<real>, sim: (seq<real>, seq<real>) -> real, topK: int,
                          agent: Option<string>) returns (r: seq<Hit>)
    ensures r == Search(g.State(), q, sim, topK, agent)
  {
    var found: seq<Hit> := [];
    var i := 0;
    while i < |g.runOrder|
      invariant 0 <= i <= |g.runOrder|
      invariant found == Hits(g.State(), g.runOrder[..i], q, sim, agent)
    {
      var id := g.runOrder[i];
      assert g.runOrder[..i + 1][..i] == g.runOrder[..i];
      if id in g.runs && IsActive(g.runs[id]) && AgentMatches(g.runs[id], agent)
         && g.runs[id].embedding.Some? && |g.runs[id].embedding.value| == |q|
      {
        found := found + [Hit(id, sim(q, g.runs[id].embedding.value))];
      }
      i := i + 1;
    }
    assert g.runOrder[..i] == g.runOrder;
    var a := new Hit[|found|](k requires 0 <= k < |found| => found[k]);
    assert a[..] == found;
    HigherHitIsPreorder();
    SortInPlace(a, HigherHit);
    r := PyTake(a[..], topK);
  }

  // ---------------------------------------------------------------- expansion

  /** The stored `run_tree` read back: `json.loads` when the text is truthy; a text that
      does not parse, or parses to `null`, gives no tree. `loads` stands for `json.loads`. */
  function ParseTree(raw: Option<string>, loads: string -> Result<Json>): (r: Option<Json>)
    ensures !Given(raw) ==> r.None?
    ensures Given(raw) && loads(raw.value).Err? ==> r.None?
    ensures r.Some? ==> r.value != JNull && loads(raw.value) == Ok(r.value)
  {
    if Given(raw) then
      match loads(raw.value)
      case Ok(j) => if j == JNull then None else Some(j)
      case Err(_) => None
    else None
  }

  /** A run as `_expand_run` returns it. */
  datatype Expanded = Expanded(
    runId: string,
    agentId: string,
    summary: string,
    outcome: string,
    runTree: Option<Json>,
    references: seq<Entry>,
    artifacts: seq<Entry>)

  /** `_expand_run(run_id)`: nothing when no run has the id; otherwise the run with the
      references it READS and the artifacts it WRITES (entries with an id only), its
      outcome label ("unknown" when it has none) and its parsed run tree. */
  function Expand(s: GraphState, id: string, loads: string -> Result<Json>): (r: Option<Expanded>)
    ensures r.Some? <==> id in s.runs
    ensures r.Some? ==> r.value.runId == id && r.value.agentId == s.runs[id].agentId && r.value.summary == s.runs[id].summary
    ensures r.Some? ==> forall e :: e in r.value.references ==> e.id != "" && (id, e.id) in s.readEdges
    ensures r.Some? ==> forall e :: e in r.value.artifacts ==> e.id != "" && (id, e.id) in s.writeEdges
    ensures r.Some? ==> r.value.outcome != "" && ((forall e :: e in s.endedWith ==> e.0 != id) ==> r.value.outcome == "unknown")
    ensures r.Some? && !Given(s.runs[id].runTree) ==> r.value.runTree.None?
  {
    if id !in s.runs then None
    else
      var run := s.runs[id];
      Some(Expanded(id, run.agentId, run.summary, OutcomeText(s, id), ParseTree(run.runTree, loads),
                    ReadEntries(s.readEdges, id, s.refs), WriteEntries(s.writeEdges, id, s.arts)))
  }

  /** A related run in the response: an expanded run with its hit's similarity. */
  datatype RelatedRun = RelatedRun(
    runId: string,
    agentId: string,
    summary: string,
    outcome: string,
    runTree: Option<Json>,
    references: seq<Entry>,
    artifacts: seq<Entry>,
    similarity: real)

  /** Building a `RelatedRun` validates that its run tree is a dict or absent. */
  function MakeRelated(e: Expanded, similarity: real): Result<RelatedRun> {
    if e.runTree.Some? && !e.runTree.value.JObj? then Err("1 validation error for RelatedRun: run_tree")
    else Ok(RelatedRun(e.runId, e.agentId, e.summary, e.outcome, e.runTree, e.references, e.artifacts, similarity))
  }

  /** The related runs built from `hits`, in order: hits whose run no longer exists are skipped. */
  function Related(s: GraphState, hits: seq<Hit>, loads: string -> Result<Json>): Result<seq<RelatedRun>> {
    if hits == [] then Ok([])
    else
      var prev :- Related(s, hits[..|hits| - 1], loads);
      RelateNext(s, prev, hits[|hits| - 1], loads)
  }

  /** One step of the loop in `retrieve`: append the hit's related run when its expansion
      finds the run. */
  function RelateNext(s: GraphState, prev: seq<RelatedRun>, h: Hit, loads: string -> Result<Json>): Result<seq<RelatedRun>> {
    match Expand(s, h.runId, loads)
    case None => Ok(prev)
    case Some(e) =>
      var rr :- MakeRelated(e, h.similarity);
      Ok(prev + [rr])
  }

  lemma RelatedPrefix(s: GraphState, hits: seq<Hit>, i: nat, loads: string -> Result<Json>)
    requires i < |hits| && Related(s, hits[..i], loads).Ok?
    ensures Related(s, hits[..i + 1], loads) == RelateNext(s, Related(s, hits[..i], loads).value, hits[i], loads)
  {
    assert hits[..i + 1][..i] == hits[..i];
  }

  /** The hits whose run exists, in order. */
  function Kept(s: GraphState, hits: seq<Hit>): (r: seq<Hit>)
    ensures |r| <= |hits|
  {
    if hits == [] then []
    else
      var prev := Kept(s, hits[..|hits| - 1]);
      if hits[|hits| - 1].runId in s.runs then prev + [hits[|hits| - 1]] else prev
  }

  /** The related runs follow the hits whose run exists, one for one and in order, each
      carrying its hit's similarity and the run's stored agent and summary. */
  lemma {:induction false} RelatedFollowsHits(s: GraphState, hits: seq<Hit>, loads: string -> Result<Json>)
    ensures Related(s, hits, loads).Ok? ==>
      var rel := Related(s, hits, loads).value;
      var kept := Kept(s, hits);
      && |rel| == |kept|
      && forall k :: 0 <= k < |rel| ==>
           && rel[k].runId == kept[k].runId && rel[k].similarity == kept[k].similarity
           && rel[k].runId in s.runs && rel[k].agentId == s.runs[rel[k].runId].agentId
           && rel[k].summary == s.runs[rel[k].runId].summary
  {
    if hits != [] {
      RelatedFollowsHits(s, hits[..|hits| - 1], loads);
    }
  }

  /** Building the related runs fails exactly when an existing hit's run tree parses to
      something other than a dict. */
  lemma {:induction false} RelatedFailsIff(s: GraphState, hits: seq<Hit>, loads: string -> Result<Json>)
    ensures Related(s, hits, loads).Err? <==>
      exists h :: h in hits && h.runId in s.runs &&
        var t := ParseTree(s.runs[h.runId].runTree, loads); t.Some? && !t.value.JObj?
  {
    if hits != [] {
      var init := hits[..|hits| - 1];
      RelatedFailsIff(s, init, loads);
      assert hits == init + [hits[|hits| - 1]];
    }
  }

  // ---------------------------------------------------------------- observations

  const NoSimilarRuns := "No similar runs found in memory."

  /** `outcomes.count(o)`. */
  function CountOutcome(runs: seq<RelatedRun>, o: string): (n: nat)
    ensures n <= |runs|
    ensures n > 0 <==> exists r :: r in runs && r.outcome == o
  {
    if runs == [] then 0
    else CountOutcome(runs[1..], o) + (if runs[0].outcome == o then 1 else 0)
  }

  /** `len([r for r in runs if r.similarity_score > 0.9])`. */
  function CountHigh(runs: seq<RelatedRun>): (n: nat)
    ensures n <= |runs|
    ensures n > 0 <==> exists r :: r in runs && r.similarity > 0.9
  {
    if runs == [] then 0
    else CountHigh(runs[1..]) + (if runs[0].similarity > 0.9 then 1 else 0)
  }

  /** The `type` of every entry of `es`. */
  function KindsOf(es: seq<Entry>): set<string> {
    if es == [] then {}
    else KindsOf(es[..|es| - 1]) + {es[|es| - 1].kind}
  }

  lemma {:induction false} KindsOfExactly(es: seq<Entry>)
    ensures forall e :: e in es ==> e.kind in KindsOf(es)
    ensures forall k :: k in KindsOf(es) ==> exists e :: e in es && e.kind == k
  {
    if es != [] {
      var init := es[..|es| - 1];
      KindsOfExactly(init);
      assert es == init + [es[|es| - 1]];
    }
  }

  /** The reference types seen in `runs`, collected run by run. */
  function RefKinds(runs: seq<RelatedRun>): set<string> {
    if runs == [] then {}
    else RefKinds(runs[..|runs| - 1]) + KindsOf(runs[|runs| - 1].references)
  }

  /** The artifact types seen in `runs`, collected run by run. */
  function ArtKinds(runs: seq<RelatedRun>): set<string> {
    if runs == [] then {}
    else ArtKinds(runs[..|runs| - 1]) + KindsOf(runs[|runs| - 1].artifacts)
  }

  /** The collected types are exactly the types of the runs' entries. */
  lemma {:induction false} KindsExactly(runs: seq<RelatedRun>)
    ensures forall x, e :: x in runs && e in x.references ==> e.kind in RefKinds(runs)
    ensures forall k :: k in RefKinds(runs) ==> exists x, e :: x in runs && e in x.references && e.kind == k
    ensures forall x, e :: x in runs && e in x.artifacts ==> e.kind in ArtKinds(runs)
    ensures forall k :: k in ArtKinds(runs) ==> exists x, e :: x in runs && e in x.artifacts && e.kind == k
  {
    if runs != [] {
      var init, last := runs[..|runs| - 1], runs[|runs| - 1];
      KindsExactly(init);
      KindsOfExactly(last.references);
      KindsOfExactly(last.artifacts);
      assert runs == init + [last];
      assert forall x :: x in runs <==> x in init || x == last;
    }
  }

  /** `m` is the least string of `st` in code-point order. */
  predicate IsLeast(m: string, st: set<string>) {
    m in st && forall y :: y in st ==> StrLe(m, y)
  }

  lemma {:induction false} LeastExists(st: set<string>)
    requires st != {}
    ensures exists m :: IsLeast(m, st)
  {
    var x :| x in st;
    if st - {x} == {} {
      assert st == {x};
      StrLeTotal(x, x);
      assert IsLeast(x, st);
    } else {
      LeastExists(st - {x});
      var m :| IsLeast(m, st - {x});
      StrLeTotal(x, m);
      if StrLe(x, m) {
        forall y | y in st
          ensures StrLe(x, y)
        {
          if y != x {
            StrLeTrans(x, m, y);
          } else {
            StrLeTotal(x, x);
          }
        }
        assert IsLeast(x, st);
      } else {
        assert IsLeast(m, st);
      }
    }
  }

  lemma LeastUnique(st: set<string>)
    ensures forall a, b :: IsLeast(a, st) && IsLeast(b, st) ==> a == b
  {
    forall a, b | IsLeast(a, st) && IsLeast(b, st)
      ensures a == b
    {
      StrLeAntisym(a, b);
    }
  }

  /** `sorted(st)` for a set of strings: its members, each once, in increasing order. */
  function SortedStrings(st: set<string>): (r: seq<string>)
    decreases st
    ensures |r| == |st| && forall x :: x in r <==> x in st
    ensures forall i, j :: 0 <= i < j < |r| ==> StrLe(r[i], r[j]) && r[i] != r[j]
  {
    if st == {} then []
    else
      LeastExists(st);
      LeastUnique(st);
      var m :| IsLeast(m, st);
      var rest := SortedStrings(st - {m});
      PrependLeast(m, st, rest);
      [m] + rest
  }

  /** The least member, put in front of the sorted rest, keeps the order. */
  lemma PrependLeast(m: string, st: set<string>, rest: seq<string>)
    requires IsLeast(m, st)
    requires |rest| == |st - {m}| && forall x :: x in rest <==> x in st - {m}
    requires forall i, j :: 0 <= i < j < |rest| ==> StrLe(rest[i], rest[j]) && rest[i] != rest[j]
    ensures var r := [m] + rest;
      && |r| == |st| && (forall x :: x in r <==> x in st)
      && forall i, j :: 0 <= i < j < |r| ==> StrLe(r[i], r[j]) && r[i] != r[j]
  {
    var r := [m] + rest;
    forall i, j | 0 <= i < j < |r|
      ensures StrLe(r[i], r[j]) && r[i] != r[j]
    {
      if i == 0 {
        assert r[j] == rest[j - 1] && rest[j - 1] in rest;
      } else {
        assert r[i] == rest[i - 1] && r[j] == rest[j - 1];
      }
    }
  }

  function SuccessLine(n: nat): string {
    "Found " + NatToString(n) + " successful similar run(s). " + "Review their approaches for reference."
  }

  function FailureLine(n: nat): string {
    "Found " + NatToString(n) + " failed similar run(s). " + "Be aware of potential pitfalls."
  }

  function ReferenceLine(kinds: set<string>): string {
    "Similar runs typically reference: " + Join(SortedStrings(kinds), ", ")
  }

  function ArtifactLine(kinds: set<string>): string {
    "Similar runs typically produce: " + Join(SortedStrings(kinds), ", ")
  }

  function HighSimilarityLine(n: nat): string {
    NatToString(n) + " run(s) with very high similarity (>0.9). Consider reusing their approaches."
  }

  function Optional(present: bool, line: string): seq<string> {
    if present then [line] else []
  }

  /** The lines for a non-empty list, from what was counted and collected. */
  function Report(successes: nat, failures: nat, refs: set<string>, arts: set<string>, high: nat): seq<string> {
    Optional(successes > 0, SuccessLine(successes))
    + Optional(failures > 0, FailureLine(failures))
    + Optional(refs != {}, ReferenceLine(refs))
    + Optional(arts != {}, ArtifactLine(arts))
    + Optional(high > 0, HighSimilarityLine(high))
  }

  /** `_analyze_patterns(runs)`. */
  function Observations(runs: seq<RelatedRun>): seq<string> {
    if runs == [] then [NoSimilarRuns]
    else Report(CountOutcome(runs, "success"), CountOutcome(runs, "failure"), RefKinds(runs), ArtKinds(runs), CountHigh(runs))
  }

  /** Two texts that start with digits and then a space differ when the words after the
      space begin differently. */
  lemma DigitsThenWord(a: string, b: string, ta: string, tb: string)
    requires forall i :: 0 <= i < |a| ==> '0' <= a[i] <= '9'
    requires forall i :: 0 <= i < |b| ==> '0' <= b[i] <= '9'
    requires |ta| > 1 && |tb| > 1 && ta[0] == ' ' && tb[0] == ' ' && ta[1] != tb[1]
    ensures a + ta != b + tb
  {
    if |a| == |b| {
      assert (a + ta)[|a| + 1] != (b + tb)[|b| + 1];
    } else if |a| < |b| {
      assert (a + ta)[|a|] != (b + tb)[|a|];
    } else {
      assert (a + ta)[|b|] != (b + tb)[|b|];
    }
  }

  /** The success and failure lines differ whatever the counts. */
  lemma SuccessFailureDiffer(successes: nat, failures: nat)
    ensures SuccessLine(successes) != FailureLine(failures)
  {
    var a, b := NatToString(successes), NatToString(failures);
    var ta := " successful similar run(s). " + "Review their approaches for reference.";
    var tb := " failed similar run(s). " + "Be aware of potential pitfalls.";
    assert ta[0] == ' ' && ta[1] == 's' && tb[0] == ' ' && tb[1] == 'f';
    DigitsThenWord(a, b, ta, tb);
    assert SuccessLine(successes) == "Found " + (a + ta);
    assert FailureLine(failures) == "Found " + (b + tb);
    assert SuccessLine(successes)[6..] == a + ta;
    assert FailureLine(failures)[6..] == b + tb;
  }

  /** The first character of each line: 'F' for successes and failures, 'S' for types, a
      digit for the very similar runs, 'N' for the sentence for no runs. */
  lemma LineHeads(successes: nat, failures: nat, refs: set<string>, arts: set<string>, high: nat)
    ensures SuccessLine(successes)[0] == 'F' && FailureLine(failures)[0] == 'F'
    ensures ReferenceLine(refs)[0] == 'S' && ArtifactLine(arts)[0] == 'S'
    ensures '0' <= HighSimilarityLine(high)[0] <= '9'
    ensures NoSimilarRuns[0] == 'N'
    ensures ReferenceLine(refs)[23] == 'r' && ArtifactLine(arts)[23] == 'p'
  {
    var n := NatToString(high);
    PrefixIndex(n, " run(s) with very high similarity (>0.9). Consider reusing their approaches.", 0);
    var rs, as_ := Join(SortedStrings(refs), ", "), Join(SortedStrings(arts), ", ");
    PrefixIndex("Similar runs typically reference: ", rs, 0);
    PrefixIndex("Similar runs typically reference: ", rs, 23);
    PrefixIndex("Similar runs typically produce: ", as_, 0);
    PrefixIndex("Similar runs typically produce: ", as_, 23);
  }

  lemma PrefixIndex(a: string, b: string, i: nat)
    requires i < |a|
    ensures (a + b)[i] == a[i]
  {
  }

  /** The five kinds of line, and the sentence for no runs, are pairwise different. */
  lemma LinesDiffer(successes: nat, failures: nat, refs: set<string>, arts: set<string>, high: nat)
    ensures var lines := [SuccessLine(successes), FailureLine(failures), ReferenceLine(refs), ArtifactLine(arts), HighSimilarityLine(high)];
      && NoSimilarRuns !in lines
      && forall i, j :: 0 <= i < j < |lines| ==> lines[i] != lines[j]
  {
    SuccessFailureDiffer(successes, failures);
    LineHeads(successes, failures, refs, arts, high);
  }

  /** In five optional lines that are pairwise different, each line is present exactly
      when its condition holds. */
  lemma PresentIff(p1: bool, l1: string, p2: bool, l2: string, p3: bool, l3: string,
                   p4: bool, l4: string, p5: bool, l5: string)
    requires var lines := [l1, l2, l3, l4, l5]; forall i, j :: 0 <= i < j < |lines| ==> lines[i] != lines[j]
    ensures var obs := Optional(p1, l1) + Optional(p2, l2) + Optional(p3, l3) + Optional(p4, l4) + Optional(p5, l5);
      && |obs| <= 5
      && (l1 in obs <==> p1) && (l2 in obs <==> p2) && (l3 in obs <==> p3) && (l4 in obs <==> p4) && (l5 in obs <==> p5)
      && forall x :: x in obs ==> x in [l1, l2, l3, l4, l5]
  {
    var lines := [l1, l2, l3, l4, l5];
    assert l1 != l2 && l1 != l3 && l1 != l4 && l1 != l5 by {
      assert lines[0] != lines[1] && lines[0] != lines[2] && lines[0] != lines[3] && lines[0] != lines[4];
    }
    assert l2 != l3 && l2 != l4 && l2 != l5 by {
      assert lines[1] != lines[2] && lines[1] != lines[3] && lines[1] != lines[4];
    }
    assert l3 != l4 && l3 != l5 && l4 != l5 by {
      assert lines[2] != lines[3] && lines[2] != lines[4] && lines[3] != lines[4];
    }
  }

  /** Each line of a report is present exactly when there is something to report. */
  lemma ReportProperties(successes: nat, failures: nat, refs: set<string>, arts: set<string>, high: nat)
    ensures var obs := Report(successes, failures, refs, arts, high);
      && |obs| <= 5 && NoSimilarRuns !in obs
      && (SuccessLine(successes) in obs <==> successes > 0)
      && (FailureLine(failures) in obs <==> failures > 0)
      && (ReferenceLine(refs) in obs <==> refs != {})
      && (ArtifactLine(arts) in obs <==> arts != {})
      && (HighSimilarityLine(high) in obs <==> high > 0)
  {
    LinesDiffer(successes, failures, refs, arts, high);
    PresentIff(successes > 0, SuccessLine(successes), failures > 0, FailureLine(failures),
               refs != {}, ReferenceLine(refs), arts != {}, ArtifactLine(arts), high > 0, HighSimilarityLine(high));
  }

  /** The observations: the fixed sentence for no runs, and only then; otherwise at most
      five lines, each present exactly when there is something to report. */
  lemma ObservationsProperties(runs: seq<RelatedRun>)
    ensures runs == [] ==> Observations(runs) == [NoSimilarRuns]
    ensures NoSimilarRuns in Observations(runs) <==> runs == []
    ensures runs != [] ==> |Observations(runs)| <= 5
    ensures runs != [] ==> (SuccessLine(CountOutcome(runs, "success")) in Observations(runs) <==> exists r :: r in runs && r.outcome == "success")
    ensures runs != [] ==> (FailureLine(CountOutcome(runs, "failure")) in Observations(runs) <==> exists r :: r in runs && r.outcome == "failure")
    ensures runs != [] ==> (ReferenceLine(RefKinds(runs)) in Observations(runs) <==> exists x, e :: x in runs && e in x.references)
    ensures runs != [] ==> (ArtifactLine(ArtKinds(runs)) in Observations(runs) <==> exists x, e :: x in runs && e in x.artifacts)
    ensures runs != [] ==> (HighSimilarityLine(CountHigh(runs)) in Observations(runs) <==> exists r :: r in runs && r.similarity > 0.9)
  {
    if runs != [] {
      ReportProperties(CountOutcome(runs, "success"), CountOutcome(runs, "failure"), RefKinds(runs), ArtKinds(runs), CountHigh(runs));
      KindsNonEmpty(runs);
    }
  }

  lemma KindsNonEmpty(runs: seq<RelatedRun>)
    ensures RefKinds(runs) != {} <==> exists x, e :: x in runs && e in x.references
    ensures ArtKinds(runs) != {} <==> exists x, e :: x in runs && e in x.artifacts
  {
    KindsExactly(runs);
    if RefKinds(runs) != {} {
      var k :| k in RefKinds(runs);
      var x, e :| x in runs && e in x.references && e.kind == k;
    }
    if exists x, e :: x in runs && e in x.references {
      var x, e :| x in runs && e in x.references;
      assert e.kind in RefKinds(runs);
    }
    if ArtKinds(runs) != {} {
      var k :| k in ArtKinds(runs);
      var x, e :| x in runs && e in x.artifacts && e.kind == k;
    }
    if exists x, e :: x in runs && e in x.artifacts {
      var x, e :| x in runs && e in x.artifacts;
      assert e.kind in ArtKinds(runs);
    }
  }

  /** Outcomes other than "success" and "failure" (such as "partial") are never reported:
      runs that agree on which outcomes are successes and failures give the same observations. */
  lemma OtherOutcomesIgnored(runs: seq<RelatedRun>, other: seq<RelatedRun>)
    requires |runs| == |other|
    requires forall k :: 0 <= k < |runs| ==>
      && runs[k] == other[k].(outcome := runs[k].outcome)
      && (runs[k].outcome == "success" <==> other[k].outcome == "success")
      && (runs[k].outcome == "failure" <==> other[k].outcome == "failure")
    ensures Observations(runs) == Observations(other)
  {
    SameCounts(runs, other);
    SameKinds(runs, other);
  }

  lemma {:induction false} SameCounts(runs: seq<RelatedRun>, other: seq<RelatedRun>)
    requires |runs| == |other|
    requires forall k :: 0 <= k < |runs| ==>
      && runs[k] == other[k].(outcome := runs[k].outcome)
      && (runs[k].outcome == "success" <==> other[k].outcome == "success")
      && (runs[k].outcome == "failure" <==> other[k].outcome == "failure")
    ensures CountOutcome(runs, "success") == CountOutcome(other, "success")
    ensures CountOutcome(runs, "failure") == CountOutcome(other, "failure")
    ensures CountHigh(runs) == CountHigh(other)
  {
    if runs != [] {
      SameCounts(runs[1..], other[1..]);
    }
  }

  lemma {:induction false} SameKinds(runs: seq<RelatedRun>, other: seq<RelatedRun>)
    requires |runs| == |other|
    requires forall k :: 0 <= k < |runs| ==> runs[k] == other[k].(outcome := runs[k].outcome)
    ensures RefKinds(runs) == RefKinds(other) && ArtKinds(runs) == ArtKinds(other)
  {
    if runs != [] {
      SameKinds(runs[..|runs| - 1], other[..|other| - 1]);
    }
  }

  /** The reference types (`references` true) or artifact types of `runs`, gathered run by
      run and entry by entry into a set. */
  method CollectKinds(runs: seq<RelatedRun>, references: bool) returns (kinds: set<string>)
    ensures kinds == if references then RefKinds(runs) else ArtKinds(runs)
  {
    kinds := {};
    var i := 0;
    while i < |runs|
      invariant 0 <= i <= |runs|
      invariant kinds == if references then RefKinds(runs[..i]) else ArtKinds(runs[..i])
    {
      var es := if references then runs[i].references else runs[i].artifacts;
      var j := 0;
      while j < |es|
        invariant 0 <= j <= |es|
        invariant kinds == (if references then RefKinds(runs[..i]) else ArtKinds(runs[..i])) + KindsOf(es[..j])
      {
        kinds := kinds + {es[j].kind};
        assert es[..j + 1][..j] == es[..j];
        j := j + 1;
      }
      assert es[..j] == es;
      assert runs[..i + 1][..i] == runs[..i];
      i := i + 1;
    }
    assert runs[..i] == runs;
  }

  /** `_analyze_patterns`: count outcomes, gather the reference and artifact types into
      sets, count the very similar runs, and append the lines in order. */
  method AnalyzePatterns(runs: seq<RelatedRun>) returns (obs: seq<string>)
    ensures obs == Observations(runs)
  {
    if runs == [] {
      return [NoSimilarRuns];
    }
    var successes, failures := CountOutcome(runs, "success"), CountOutcome(runs, "failure");
    obs := [];
    obs := AppendIf(obs, successes > 0, SuccessLine(successes));
    assert obs == Optional(successes > 0, SuccessLine(successes));
    obs := AppendIf(obs, failures > 0, FailureLine(failures));
    var refTypes := CollectKinds(runs, true);
    obs := AppendIf(obs, refTypes != {}, ReferenceLine(refTypes));
    var artTypes := CollectKinds(runs, false);
    obs := AppendIf(obs, artTypes != {}, ArtifactLine(artTypes));
    var high := CountHigh(runs);
    obs := AppendIf(obs, high > 0, HighSimilarityLine(high));
    assert obs == Report(successes, failures, refTypes, artTypes, high);
  }

  /** `if present: observations.append(line)`. */
  method AppendIf(obs: seq<string>, present: bool, line: string) returns (r: seq<string>)
    ensures r == obs + Optional(present, line)
  {
    r := obs;
    if present {
      r := r + [line];
    }
  }

  // ---------------------------------------------------------------- confidence

  function SumSimilarity(runs: seq<RelatedRun>): real {
    if runs == [] then 0.0 else runs[0].similarity + SumSimilarity(runs[1..])
  }

  lemma {:induction false} SumSimilarityBounds(runs: seq<RelatedRun>)
    ensures (forall r :: r in runs ==> 0.0 <= r.similarity) ==> 0.0 <= SumSimilarity(runs)
    ensures (forall r :: r in runs ==> r.similarity <= 1.0) ==> SumSimilarity(runs) <= |runs| as real
  {
    if runs != [] {
      SumSimilarityBounds(runs[1..]);
    }
  }

  /** The mean of values in [0, 1] lies in [0, 1]. */
  lemma MeanBounds(sum: real, n: real)
    requires n > 0.0
    ensures 0.0 <= sum ==> 0.0 <= sum / n
    ensures sum <= n ==> sum / n <= 1.0
  {
    assert (sum / n) * n == sum;
  }

  /** `len(set(outcomes)) == 1` for a non-empty list. */
  predicate SameOutcome(runs: seq<RelatedRun>) {
    forall k :: 0 <= k < |runs| ==> runs[k].outcome == runs[0].outcome
  }

  /** `_calculate_confidence(runs)` before rounding: 0.3 for how many runs there are (full
      at five), 0.5 for their mean similarity, 0.2 for agreeing outcomes (0.7 of it when
      they disagree). */
  function Confidence(runs: seq<RelatedRun>): (c: real)
    ensures runs == [] ==> c == 0.0
    ensures (forall r :: r in runs ==> 0.0 <= r.similarity <= 1.0) ==> 0.0 <= c <= 1.0
    ensures runs != [] && (forall r :: r in runs ==> 0.0 <= r.similarity) ==> c >= 0.2
  {
    if runs == [] then 0.0
    else
      var n := |runs| as real;
      var countConfidence := if n / 5.0 < 1.0 then n / 5.0 else 1.0;
      var outcomeConfidence := if SameOutcome(runs) then 1.0 else 0.7;
      SumSimilarityBounds(runs);
      MeanBounds(SumSimilarity(runs), n);
      assert 0.2 <= countConfidence <= 1.0;
      0.3 * countConfidence + 0.5 * (SumSimilarity(runs) / n) + 0.2 * outcomeConfidence
  }

  // ---------------------------------------------------------------- retrieve

  datatype Request = Request(taskText: string, agentId: Option<string>, context: Option<string>, topK: int)

  datatype Response = Response(
    observations: seq<string>,
    relatedRuns: seq<RelatedRun>,
    confidence: real,
    queryEmbedding: seq<real>)

  /** `request.context or request.task_text`. */
  function QueryText(req: Request): (t: string)
    ensures Given(req.context) ==> t == req.context.value
    ensures !Given(req.context) ==> t == req.taskText
  {
    if Given(req.context) then req.context.value else req.taskText
  }

  /** `retrieve(request)`: embed the query text, search, expand the hits, then analyse. */
  function RetrieveSpec(s: GraphState, req: Request, provider: string -> Result<seq<real>>,
                        sim: (seq<real>, seq<real>) -> real, loads: string -> Result<Json>): Result<Response>
  {
    var q :- Embedding.Embed(QueryText(req), provider);
    var related :- Related(s, Search(s, q, sim, req.topK, req.agentId), loads);
    Ok(Response(Observations(related), related, Confidence(related), q))
  }

  /** What `retrieve` answers: it fails on a blank query text; otherwise its related runs
      are the search hits (at most `top_k`) whose run exists, in order and with the hit's
      similarity, and its observations and confidence are computed from those runs. */
  lemma RetrieveProperties(s: GraphState, req: Request, provider: string -> Result<seq<real>>,
                           sim: (seq<real>, seq<real>) -> real, loads: string -> Result<Json>)
    ensures IsBlank(QueryText(req)) ==> RetrieveSpec(s, req, provider, sim, loads) == Err("Text cannot be empty")
    ensures !IsBlank(QueryText(req)) && provider(Strip(QueryText(req))).Err? ==>
      RetrieveSpec(s, req, provider, sim, loads) == Err(provider(Strip(QueryText(req))).message)
    ensures RetrieveSpec(s, req, provider, sim, loads).Ok? ==>
      var resp := RetrieveSpec(s, req, provider, sim, loads).value;
      var hits := Search(s, resp.queryEmbedding, sim, req.topK, req.agentId);
      && provider(Strip(QueryText(req))) == Ok(resp.queryEmbedding)
      && (req.topK >= 0 ==> |resp.relatedRuns| <= req.topK)
      && |resp.relatedRuns| == |Kept(s, hits)|
      && (forall k :: 0 <= k < |resp.relatedRuns| ==>
            resp.relatedRuns[k].runId == Kept(s, hits)[k].runId && resp.relatedRuns[k].similarity == Kept(s, hits)[k].similarity)
      && resp.observations == Observations(resp.relatedRuns)
      && resp.confidence == Confidence(resp.relatedRuns)
  {
    var r := RetrieveSpec(s, req, provider, sim, loads);
    if r.Ok? {
      var q := r.value.queryEmbedding;
      SearchProperties(s, q, sim, req.topK, req.agentId);
      RelatedFollowsHits(s, Search(s, q, sim, req.topK, req.agentId), loads);
    }
  }

  /** `retrieve`: the related runs are built in a loop over the hits, skipping any whose
      expansion finds nothing. */
  method Retrieve(g: Graph, req: Request, provider: string -> Result<seq<real>>,
                  sim: (seq<real>, seq<real>) -> real, loads: string -> Result<Json>) returns (r: Result<Response>)
    ensures r == RetrieveSpec(g.State(), req, provider, sim, loads)
  {
    var query := QueryText(req);
    var embedded := Embedding.Embed(query, provider);
    if embedded.Err? {
      return Err(embedded.message);
    }
    var q := embedded.value;
    var hits := VectorSearchRuns(g, q, sim, req.topK, req.agentId);
    var related := RelateHits(g.State(), hits, loads);
    if related.Err? {
      return Err(related.message);
    }
    var obs := AnalyzePatterns(related.value);
    r := Ok(Response(obs, related.value, Confidence(related.value), q));
  }

  /** The loop of `retrieve` over the hits: expand each, skip it when its run is gone,
      append its related run otherwise. */
  method RelateHits(s: GraphState, hits: seq<Hit>, loads: string -> Result<Json>) returns (r: Result<seq<RelatedRun>>)
    ensures r == Related(s, hits, loads)
  {
    var related: seq<RelatedRun> := [];
    var i := 0;
    while i < |hits|
      invariant 0 <= i <= |hits|
      invariant Related(s, hits[..i], loads) == Ok(related)
    {
      RelatedPrefix(s, hits, i, loads);
      ghost var next := RelateNext(s, related, hits[i], loads);
      var expanded := Expand(s, hits[i].runId, loads);
      if expanded.Some? {
        var made := MakeRelated(expanded.value, hits[i].similarity);
        if made.Err? {
          assert next == Err(made.message);
          RelatedErrSticky(s, hits, i + 1, loads);
          return Err(made.message);
        }
        related := related + [made.value];
      }
      assert next == Ok(related);
      i := i + 1;
    }
    assert hits[..i] == hits;
    r := Ok(related);
  }


  /** Once a prefix of the hits fails, every longer prefix fails with the same error. */
  lemma {:induction false} RelatedErrSticky(s: GraphState, hits: seq<Hit>, n: nat, loads: string -> Result<Json>)
    requires n <= |hits| && Related(s, hits[..n], loads).Err?
    ensures Related(s, hits, loads) == Related(s, hits[..n], loads)
    decreases |hits| - n
  {
    if n < |hits| {
      assert hits[..n + 1][..n] == hits[..n];
      RelatedErrSticky(s, hits, n + 1, loads);
    } else {
      assert hits[..n] == hits;
    }
  }

  // ---------------------------------------------------------------- retrieve_all

  /** The run is listed: active, and of the agent asked for. */
  predicate Listed(s: GraphState, id: string, agent: Option<string>) {
    id in s.runs && IsActive(s.runs[id]) && AgentMatches(s.runs[id], agent)
  }

  function ListedIds(s: GraphState, ids: seq<string>, agent: Option<string>): (r: seq<string>)
    ensures forall id :: id in r <==> id in ids && Listed(s, id, agent)
  {
    if ids == [] then []
    else
      var init := ids[..|ids| - 1];
      var id := ids[|ids| - 1];
      assert forall x :: x in ids <==> x in init || x == id;
      ListedIds(s, init, agent) + (if Listed(s, id, agent) then [id] else [])
  }

  function CreatedAt(s: GraphState, id: string): Option<string> {
    if id in s.runs then s.runs[id].createdAt else None
  }

  /** `ORDER BY r.created_at DESC`: later timestamps first, a run without one before all. */
  predicate NewerFirst(s: GraphState, a: string, b: string) {
    CreatedAt(s, a).None? || (CreatedAt(s, b).Some? && StrLe(CreatedAt(s, b).value, CreatedAt(s, a).value))
  }

  function NewerFirstOrder(s: GraphState): (string, string) -> bool {
    (a, b) => NewerFirst(s, a, b)
  }

  lemma NewerFirstIsPreorder(s: GraphState)
    ensures TotalPreorder(NewerFirstOrder(s))
  {
    var le := NewerFirstOrder(s);
    forall a, b
      ensures le(a, b) || le(b, a)
    {
      if CreatedAt(s, a).Some? && CreatedAt(s, b).Some? {
        StrLeTotal(CreatedAt(s, a).value, CreatedAt(s, b).value);
      }
    }
    forall a, b, c | le(a, b) && le(b, c)
      ensures le(a, c)
    {
      if CreatedAt(s, a).Some? {
        StrLeTrans(CreatedAt(s, c).value, CreatedAt(s, b).value, CreatedAt(s, a).value);
      }
    }
  }

  /** One row of the listing query: a run id and the `o.label` it is grouped with, None
      for a run without an ENDED_WITH relationship. The `RETURN` mixes aggregates with the
      plain key `o.label`, so Cypher groups by the run's fields together with that label. */
  type Row = (string, Option<string>)

  /** The rows one run contributes to the grouped query: one per distinct outcome label,
      or a single row with a null label when `OPTIONAL MATCH` finds no Outcome. */
  function RunRows(s: GraphState, id: string): (r: seq<Row>)
    ensures r != [] && forall row :: row in r ==> row.0 == id
    ensures (id, None) in r <==> forall e :: e in s.endedWith ==> e.0 != id
    ensures forall l :: (id, Some(l)) in r <==> (id, l) in s.endedWith
  {
    var labels := Labels(s.endedWith, id);
    if labels == [] then
      assert forall e :: e in s.endedWith ==> e.0 != id by {
        forall e | e in s.endedWith ensures e.0 != id {
          assert e == (e.0, e.1) && e.1 !in labels;
        }
      }
      [(id, None)]
    else
      assert (id, labels[0]) in s.endedWith;
      var r := seq(|labels|, k requires 0 <= k < |labels| => (id, Some(labels[k])));
      assert forall l :: (id, Some(l)) in r <==> l in labels by {
        forall l | l in labels ensures (id, Some(l)) in r {
          var k :| 0 <= k < |labels| && labels[k] == l;
          assert r[k] == (id, Some(l));
        }
      }
      r
  }

  /** The rows of the listed runs, taken run by run in the order given. */
  function GroupedRows(s: GraphState, ids: seq<string>): (r: seq<Row>)
    ensures forall row :: row in r <==> row.0 in ids && row in RunRows(s, row.0)
  {
    if ids == [] then []
    else RunRows(s, ids[0]) + GroupedRows(s, ids[1..])
  }

  /** `ORDER BY r.created_at DESC` on rows: a row sorts by its run's timestamp. */
  function NewerRowFirst(s: GraphState): (Row, Row) -> bool {
    (a: Row, b: Row) => NewerFirst(s, a.0, b.0)
  }

  lemma NewerRowFirstIsPreorder(s: GraphState)
    ensures TotalPreorder(NewerRowFirst(s))
  {
    NewerFirstIsPreorder(s);
    var le := NewerFirstOrder(s);
    forall a: Row, b: Row ensures NewerRowFirst(s)(a, b) || NewerRowFirst(s)(b, a) {
      assert le(a.0, b.0) || le(b.0, a.0);
    }
    forall a: Row, b: Row, c: Row | NewerRowFirst(s)(a, b) && NewerRowFirst(s)(b, c)
      ensures NewerRowFirst(s)(a, c)
    {
      assert le(a.0, b.0) && le(b.0, c.0);
    }
  }

  /** The listed runs' rows, in creation order, stably sorted newest first. */
  function OrderedRows(s: GraphState, agent: Option<string>): seq<Row> {
    SortBy(GroupedRows(s, ListedIds(s, s.runOrder, agent)), NewerRowFirst(s))
  }

  /** The rows the `retrieve_all` query returns: the ordered rows, cut to `limit` when it
      is truthy. `LIMIT` counts rows, so a run with several outcomes uses several. Cypher
      refuses a negative `LIMIT`. */
  function Rows(s: GraphState, agent: Option<string>, limit: Option<int>): Result<seq<Row>> {
    var ordered := OrderedRows(s, agent);
    if limit.Some? && limit.value < 0 then Err("LIMIT must be a non-negative integer")
    else if limit.Some? && limit.value != 0 then Ok(PyTake(ordered, limit.value))
    else Ok(ordered)
  }

  /** A run as `retrieve_all` lists it. */
  datatype RunRecord = RunRecord(
    runId: string,
    agentId: string,
    summary: string,
    outcome: string,
    runTree: Option<Json>,
    references: seq<Entry>,
    artifacts: seq<Entry>,
    createdAt: Option<string>)

  /** `record["outcome"] or "unknown"`: a null or empty label reads as "unknown". */
  function OutcomeOr(found: Option<string>): string {
    if found.Some? && found.value != "" then found.value else "unknown"
  }

  /** One row shaped as a record: entries with an id only, the outcome label or
      "unknown", no tree for an unparseable one, no timestamp for an empty one. */
  function RecordOf(s: GraphState, row: Row, loads: string -> Result<Json>): (r: RunRecord)
    requires row.0 in s.runs
    ensures r.runId == row.0 && r.agentId == s.runs[row.0].agentId && r.summary == s.runs[row.0].summary
    ensures forall e :: e in r.references ==> e.id != "" && (row.0, e.id) in s.readEdges
    ensures forall e :: e in r.artifacts ==> e.id != "" && (row.0, e.id) in s.writeEdges
    ensures r.outcome != "" && (row.1.None? ==> r.outcome == "unknown")
    ensures row.1.Some? && row.1.value != "" ==> r.outcome == row.1.value
    ensures !Given(s.runs[row.0].runTree) ==> r.runTree.None?
    ensures r.createdAt.Some? <==> Given(s.runs[row.0].createdAt)
  {
    var run := s.runs[row.0];
    RunRecord(row.0, run.agentId, run.summary, OutcomeOr(row.1), ParseTree(run.runTree, loads),
              ReadEntries(s.readEdges, row.0, s.refs), WriteEntries(s.writeEdges, row.0, s.arts),
              if Given(run.createdAt) then run.createdAt else None)
  }

  /** `retrieve_all(agent_id, limit)`. */
  function RetrieveAllSpec(s: GraphState, agent: Option<string>, limit: Option<int>,
                           loads: string -> Result<Json>): Result<seq<RunRecord>>
  {
    var rows :- Rows(s, agent, limit);
    RowsListed(s, agent, limit);
    assert forall k :: 0 <= k < |rows| ==> rows[k] in rows;
    Ok(seq(|rows|, k requires 0 <= k < |rows| => RecordOf(s, rows[k], loads)))
  }

  lemma RowsListed(s: GraphState, agent: Option<string>, limit: Option<int>)
    ensures Rows(s, agent, limit).Ok? ==>
      forall row :: row in Rows(s, agent, limit).value ==> Listed(s, row.0, agent) && row in RunRows(s, row.0)
  {
    NewerRowFirstIsPreorder(s);
    var grouped := GroupedRows(s, ListedIds(s, s.runOrder, agent));
    SortByPermutes(grouped, NewerRowFirst(s));
    var ordered := OrderedRows(s, agent);
    forall row | row in ordered
      ensures Listed(s, row.0, agent) && row in RunRows(s, row.0)
    {
      assert row in multiset(grouped);
    }
  }

  /** The returned rows are newest first, and a positive limit bounds how many there are. */
  lemma RowsNewestFirst(s: GraphState, agent: Option<string>, limit: Option<int>)
    requires Rows(s, agent, limit).Ok?
    ensures var rows := Rows(s, agent, limit).value;
      && (forall i, j :: 0 <= i < j < |rows| ==> NewerFirst(s, rows[i].0, rows[j].0))
      && (limit.Some? && limit.value > 0 ==> |rows| <= limit.value)
  {
    NewerRowFirstIsPreorder(s);
    var grouped := GroupedRows(s, ListedIds(s, s.runOrder, agent));
    SortBySorted(grouped, NewerRowFirst(s));
    var ordered := OrderedRows(s, agent);
    var rows := Rows(s, agent, limit).value;
    assert rows == ordered[..|rows|];
    forall i, j | 0 <= i < j < |rows|
      ensures NewerFirst(s, rows[i].0, rows[j].0)
    {
      assert NewerRowFirst(s)(ordered[i], ordered[j]);
    }
  }

  /** Without a limit every row of every listed run is returned. */
  lemma RowsComplete(s: GraphState, agent: Option<string>, limit: Option<int>, id: string, row: Row)
    requires WellFormed(s) && (limit.None? || limit.value == 0)
    requires Listed(s, id, agent) && row in RunRows(s, id)
    ensures Rows(s, agent, limit).Ok? && row in Rows(s, agent, limit).value
  {
    var listed := ListedIds(s, s.runOrder, agent);
    NewerRowFirstIsPreorder(s);
    var grouped := GroupedRows(s, listed);
    SortByPermutes(grouped, NewerRowFirst(s));
    assert id in listed;
    assert row in grouped;
    assert row in multiset(OrderedRows(s, agent));
  }

  /** The records are the returned rows, shaped one by one: same run, the row's outcome. */
  lemma RecordsOfRows(s: GraphState, agent: Option<string>, limit: Option<int>, loads: string -> Result<Json>)
    requires RetrieveAllSpec(s, agent, limit, loads).Ok?
    ensures Rows(s, agent, limit).Ok?
    ensures var rows := Rows(s, agent, limit).value;
      var recs := RetrieveAllSpec(s, agent, limit, loads).value;
      |recs| == |rows| && forall k :: 0 <= k < |rows| ==> recs[k].runId == rows[k].0 && recs[k].outcome == OutcomeOr(rows[k].1)
  {
    RowsListed(s, agent, limit);
  }

  /** What `retrieve_all` lists: rows of active runs of the agent asked for, newest first,
      each with one of its run's outcome labels or "unknown"; all of them when `limit` is
      absent or zero, so a run appears once per outcome it ended with, and at most `limit`
      rows otherwise; an error for a negative limit. */
  lemma {:induction false} RetrieveAllProperties(s: GraphState, agent: Option<string>, limit: Option<int>,
                                                 loads: string -> Result<Json>)
    requires WellFormed(s)
    ensures RetrieveAllSpec(s, agent, limit, loads).Err? <==> limit.Some? && limit.value < 0
    ensures RetrieveAllSpec(s, agent, limit, loads).Ok? ==>
      var recs := RetrieveAllSpec(s, agent, limit, loads).value;
      && (forall r :: r in recs ==>
            Listed(s, r.runId, agent) && (r.outcome == "unknown" || (r.runId, r.outcome) in s.endedWith))
      && (forall i, j :: 0 <= i < j < |recs| ==> NewerFirst(s, recs[i].runId, recs[j].runId))
      && (limit.Some? && limit.value > 0 ==> |recs| <= limit.value)
      && (limit.None? || limit.value == 0 ==>
            forall id :: id in s.runs && Listed(s, id, agent) ==>
              && (forall l :: (id, l) in s.endedWith && l != "" ==>
                    exists r :: r in recs && r.runId == id && r.outcome == l)
              && ((forall e :: e in s.endedWith ==> e.0 != id) ==>
                    exists r :: r in recs && r.runId == id && r.outcome == "unknown"))
  {
    if RetrieveAllSpec(s, agent, limit, loads).Ok? {
      RetrieveAllNewestFirst(s, agent, limit, loads);
      if limit.None? || limit.value == 0 {
        RetrieveAllComplete(s, agent, limit, loads);
      }
    }
  }

  lemma RetrieveAllNewestFirst(s: GraphState, agent: Option<string>, limit: Option<int>, loads: string -> Result<Json>)
    requires RetrieveAllSpec(s, agent, limit, loads).Ok?
    ensures var recs := RetrieveAllSpec(s, agent, limit, loads).value;
      && (forall r :: r in recs ==>
            Listed(s, r.runId, agent) && (r.outcome == "unknown" || (r.runId, r.outcome) in s.endedWith))
      && (forall i, j :: 0 <= i < j < |recs| ==> NewerFirst(s, recs[i].runId, recs[j].runId))
      && (limit.Some? && limit.value > 0 ==> |recs| <= limit.value)
  {
    RecordsOfRows(s, agent, limit, loads);
    RowsListed(s, agent, limit);
    RowsNewestFirst(s, agent, limit);
    var rows := Rows(s, agent, limit).value;
    var recs := RetrieveAllSpec(s, agent, limit, loads).value;
    forall r | r in recs
      ensures Listed(s, r.runId, agent) && (r.outcome == "unknown" || (r.runId, r.outcome) in s.endedWith)
    {
      var k :| 0 <= k < |recs| && recs[k] == r;
      var row := rows[k];
      assert row in rows;
      if row.1.Some? && row.1.value != "" {
        assert (row.0, Some(row.1.value)) in RunRows(s, row.0);
      }
    }
  }

  /** Without a limit, each listed run has a record for each non-empty outcome label it
      ended with, and an "unknown" one when it has none. */
  lemma RetrieveAllComplete(s: GraphState, agent: Option<string>, limit: Option<int>, loads: string -> Result<Json>)
    requires WellFormed(s) && RetrieveAllSpec(s, agent, limit, loads).Ok? && (limit.None? || limit.value == 0)
    ensures var recs := RetrieveAllSpec(s, agent, limit, loads).value;
      forall id :: id in s.runs && Listed(s, id, agent) ==>
        && (forall l :: (id, l) in s.endedWith && l != "" ==>
              exists r :: r in recs && r.runId == id && r.outcome == l)
        && ((forall e :: e in s.endedWith ==> e.0 != id) ==>
              exists r :: r in recs && r.runId == id && r.outcome == "unknown")
  {
    var recs := RetrieveAllSpec(s, agent, limit, loads).value;
    forall id | id in s.runs && Listed(s, id, agent)
      ensures forall l :: (id, l) in s.endedWith && l != "" ==>
                exists r :: r in recs && r.runId == id && r.outcome == l
      ensures (forall e :: e in s.endedWith ==> e.0 != id) ==>
                exists r :: r in recs && r.runId == id && r.outcome == "unknown"
    {
      forall l | (id, l) in s.endedWith && l != ""
        ensures exists r :: r in recs && r.runId == id && r.outcome == l
      {
        RecordOfRow(s, agent, limit, loads, id, (id, Some(l)));
        var k :| 0 <= k < |recs| && recs[k].runId == id && recs[k].outcome == OutcomeOr(Some(l));
        assert recs[k] in recs;
      }
      if forall e :: e in s.endedWith ==> e.0 != id {
        RecordOfRow(s, agent, limit, loads, id, (id, None));
        var k :| 0 <= k < |recs| && recs[k].runId == id && recs[k].outcome == OutcomeOr(None);
        assert recs[k] in recs;
      }
    }
  }

  lemma RecordOfRow(s: GraphState, agent: Option<string>, limit: Option<int>, loads: string -> Result<Json>,
                    id: string, row: Row)
    requires WellFormed(s) && RetrieveAllSpec(s, agent, limit, loads).Ok? && (limit.None? || limit.value == 0)
    requires Listed(s, id, agent) && row in RunRows(s, id)
    ensures var recs := RetrieveAllSpec(s, agent, limit, loads).value;
      exists k :: 0 <= k < |recs| && recs[k].runId == id && recs[k].outcome == OutcomeOr(row.1)
  {
    RowsComplete(s, agent, limit, id, row);
    RecordsOfRows(s, agent, limit, loads);
    var rows := Rows(s, agent, limit).value;
    var recs := RetrieveAllSpec(s, agent, limit, loads).value;
    var k :| 0 <= k < |rows| && rows[k] == row;
    assert recs[k].runId == id && recs[k].outcome == OutcomeOr(row.1);
  }

  /** A run that ended with two different outcomes is listed twice when nothing limits the
      listing, and so takes two of the rows a limit allows. */
  lemma SeveralOutcomesSeveralRows(s: GraphState, agent: Option<string>, loads: string -> Result<Json>,
                                   id: string, l1: string, l2: string)
    requires WellFormed(s) && Listed(s, id, agent)
    requires (id, l1) in s.endedWith && (id, l2) in s.endedWith && l1 != l2 && l1 != "" && l2 != ""
    ensures RetrieveAllSpec(s, agent, None, loads).Ok?
    ensures var recs := RetrieveAllSpec(s, agent, None, loads).value;
      exists i, j :: 0 <= i < j < |recs| && recs[i].runId == id && recs[j].runId == id
  {
    UnlimitedListingSucceeds(s, agent, loads);
    RecordOfRow(s, agent, None, loads, id, (id, Some(l1)));
    RecordOfRow(s, agent, None, loads, id, (id, Some(l2)));
    TwoRecordsOfRun(RetrieveAllSpec(s, agent, None, loads).value, id, l1, l2);
  }

  lemma UnlimitedListingSucceeds(s: GraphState, agent: Option<string>, loads: string -> Result<Json>)
    ensures RetrieveAllSpec(s, agent, None, loads).Ok?
  {
    assert Rows(s, agent, None).Ok?;
  }

  /** Records of one run with two different outcomes sit at two different places. */
  lemma TwoRecordsOfRun(recs: seq<RunRecord>, id: string, o1: string, o2: string)
    requires o1 != o2
    requires exists k :: 0 <= k < |recs| && recs[k].runId == id && recs[k].outcome == o1
    requires exists k :: 0 <= k < |recs| && recs[k].runId == id && recs[k].outcome == o2
    ensures exists i, j :: 0 <= i < j < |recs| && recs[i].runId == id && recs[j].runId == id
  {
    var i :| 0 <= i < |recs| && recs[i].runId == id && recs[i].outcome == o1;
    var j :| 0 <= j < |recs| && recs[j].runId == id && recs[j].outcome == o2;
    if i < j {
      assert 0 <= i < j < |recs| && recs[i].runId == id && recs[j].runId == id;
    } else {
      assert 0 <= j < i < |recs| && recs[j].runId == id && recs[i].runId == id;
    }
  }

  /** `retrieve_all`: run the listing query, then shape each returned row in a loop. */
  method RetrieveAll(g: Graph, agent: Option<string>, limit: Option<int>, loads: string -> Result<Json>)
    returns (r: Result<seq<RunRecord>>)
    ensures r == RetrieveAllSpec(g.State(), agent, limit, loads)
  {
    var s := g.State();
    var rows := Rows(s, agent, limit);
    if rows.Err? {
      return Err(rows.message);
    }
    RowsListed(s, agent, limit);
    var runs := ShapeRows(s, rows.value, loads);
    r := Ok(runs);
  }

  /** The loop of `retrieve_all` over the returned rows, shaping each into a record. */
  method ShapeRows(s: GraphState, rows: seq<Row>, loads: string -> Result<Json>) returns (runs: seq<RunRecord>)
    requires forall row :: row in rows ==> row.0 in s.runs
    ensures runs == seq(|rows|, k requires 0 <= k < |rows| => RecordOf(s, rows[k], loads))
  {
    assert forall k :: 0 <= k < |rows| ==> rows[k] in rows;
    runs := [];
    var i := 0;
    while i < |rows|
      invariant 0 <= i <= |rows|
      invariant |runs| == i && forall k :: 0 <= k < i ==> runs[k] == RecordOf(s, rows[k], loads)
    {
      runs := runs + [RecordOf(s, rows[i], loads)];
      i := i + 1;
    }
  }

}
