/** The memory admission decision layer (services/decision.py): candidate search over
    stored runs, the deterministic pre-filter, the LLM judge with its reply cleaning,
    JSON extraction, normalisation and fail-closed fallbacks, and the decision record. */
module Decision {
  import opened Wrappers
  import opened Strs
  import opened Json
  import opened Ranking
  import opened Store
  import Llm

  const LowSimilarityThreshold: real := 0.7

  /** The closed set of verdicts; `Not` is the reject verdict, spelled "NOT". */
  datatype Kind = Add | Not | Replace | Merge

  function KindName(k: Kind): string {
    match k
    case Add => "ADD"
    case Not => "NOT"
    case Replace => "REPLACE"
    case Merge => "MERGE"
  }

  /** `decision in ["ADD", "NOT", "REPLACE", "MERGE"]`, giving the verdict named. */
  function ParseKind(name: string): (r: Option<Kind>)
    ensures r.Some? ==> KindName(r.value) == name
    ensures r.None? ==> forall k :: KindName(k) != name
  {
    if name == "ADD" then Some(Add)
    else if name == "NOT" then Some(Not)
    else if name == "REPLACE" then Some(Replace)
    else if name == "MERGE" then Some(Merge)
    else None
  }

  datatype MemoryDecision = MemoryDecision(
    runId: string,
    kind: Kind,
    target: Option<string>,
    reason: string,
    score: Option<real>,
    timestamp: string)

  /** A candidate run with what `_get_run_details` reads about it; references and
      artifacts are `(id, type)` pairs. */
  datatype SimilarRun = SimilarRun(
    runId: string,
    summary: string,
    outcome: string,
    similarity: real,
    references: seq<(string, string)>,
    artifacts: seq<(string, string)>)

  function Briefs(es: seq<Entry>): (r: seq<(string, string)>)
    ensures |r| == |es| && forall i :: 0 <= i < |es| ==> r[i] == (es[i].id, es[i].kind)
  {
    seq(|es|, i requires 0 <= i < |es| => (es[i].id, es[i].kind))
  }

  // ---------------------------------------------------------------- candidates

  /** The run is returned by the candidate query (active, with an embedding) and its
      embedding has the query's dimension. */
  predicate Comparable(s: GraphState, id: string, q: seq<real>) {
    id in s.runs && IsActive(s.runs[id]) && s.runs[id].embedding.Some? && |s.runs[id].embedding.value| == |q|
  }

  function Score(s: GraphState, id: string, q: seq<real>, sim: (seq<real>, seq<real>) -> real): real
    requires Comparable(s, id, q)
  {
    sim(q, s.runs[id].embedding.value)
  }

  /** `_get_run_details` for a stored run, packed with its similarity. */
  function Detailed(s: GraphState, id: string, similarity: real): SimilarRun
    requires id in s.runs
  {
    SimilarRun(id, s.runs[id].summary, OutcomeText(s, id), similarity,
               Briefs(ReadEntries(s.readEdges, id, s.refs)), Briefs(WriteEntries(s.writeEdges, id, s.arts)))
  }

  /** The candidates that clear the 0.7 floor among the runs `ids`, in scan order. */
  function Candidates(s: GraphState, ids: seq<string>, q: seq<real>, sim: (seq<real>, seq<real>) -> real): (r: seq<SimilarRun>)
    ensures forall x :: x in r ==>
              Comparable(s, x.runId, q) && x.similarity == Score(s, x.runId, q, sim) && x.similarity >= LowSimilarityThreshold
              && x == Detailed(s, x.runId, x.similarity)
  {
    if ids == [] then []
    else
      var prev := Candidates(s, ids[..|ids| - 1], q, sim);
      var id := ids[|ids| - 1];
      if Comparable(s, id, q) && Score(s, id, q, sim) >= LowSimilarityThreshold then prev + [Detailed(s, id, Score(s, id, q, sim))]
      else prev
  }

  /** `sort(key=similarity, reverse=True)`: higher similarity first. */
  predicate HigherSim(a: SimilarRun, b: SimilarRun) {
    a.similarity >= b.similarity
  }

  lemma HigherSimIsPreorder()
    ensures TotalPreorder(HigherSim)
  {
  }

  /** `_find_similar_runs(q, top_k)`: the floor-clearing candidates, stably sorted by
      decreasing similarity, cut to `top_k`. */
  function SimilarRuns(s: GraphState, q: seq<real>, sim: (seq<real>, seq<real>) -> real, topK: int): seq<SimilarRun> {
    TopK(Candidates(s, s.runOrder, q, sim), HigherSim, topK)
  }

  /** What `_find_similar_runs` returns: at most `top_k` active runs of the query's dimension,
      each at or above the floor, best first with ties in scan order; no candidate left out
      scores above one kept, and the result is empty only when no run clears the floor
      (or `top_k` keeps none). */
  lemma SimilarRunsProperties(s: GraphState, q: seq<real>, sim: (seq<real>, seq<real>) -> real, topK: int)
    ensures var cands := Candidates(s, s.runOrder, q, sim);
      var r := SimilarRuns(s, q, sim, topK);
      && (topK >= 0 ==> |r| <= topK)
      && (forall x :: x in r ==>
            Comparable(s, x.runId, q) && x.similarity == Score(s, x.runId, q, sim) && x.similarity >= LowSimilarityThreshold)
      && Sorted(r, HigherSim)
      && (forall v :: Tied(r, HigherSim, v) <= Tied(cands, HigherSim, v))
      && (forall c, x :: c in multiset(cands) - multiset(r) && x in r ==> x.similarity >= c.similarity)
      && (r == [] <==> cands == [] || topK == 0 || topK <= -|cands|)
  {
    var cands := Candidates(s, s.runOrder, q, sim);
    HigherSimIsPreorder();
    TopKProperties(cands, HigherSim, topK);
    SimilarRunsMembers(s, q, sim, topK);
    var r := SimilarRuns(s, q, sim, topK);
    forall c, x | c in multiset(cands) - multiset(r) && x in r
      ensures x.similarity >= c.similarity
    {
      assert HigherSim(x, c);
    }
  }

  lemma SimilarRunsMembers(s: GraphState, q: seq<real>, sim: (seq<real>, seq<real>) -> real, topK: int)
    ensures forall x :: x in SimilarRuns(s, q, sim, topK) ==>
      Comparable(s, x.runId, q) && x.similarity == Score(s, x.runId, q, sim) && x.similarity >= LowSimilarityThreshold
  {
    var cands := Candidates(s, s.runOrder, q, sim);
    var r := SimilarRuns(s, q, sim, topK);
    HigherSimIsPreorder();
    TopKProperties(cands, HigherSim, topK);
    forall x | x in r
      ensures x in cands
    {
      assert x in multiset(r);
    }
  }

  /** `_find_similar_runs`: scan the stored runs, keep those of the query's dimension that
      clear the floor, sort the kept ones in place, take the first `top_k`. */
  method FindSimilarRuns(g: Graph, q: seq<real>, sim: (seq<real>, seq<real>) -> real, topK: int) returns (r: seq<SimilarRun>)
    ensures r == SimilarRuns(g.State(), q, sim, topK)
  {
    var found: seq<SimilarRun> := [];
    var i := 0;
    while i < |g.runOrder|
      invariant 0 <= i <= |g.runOrder|
      invariant found == Candidates(g.State(), g.runOrder[..i], q, sim)
    {
      var id := g.runOrder[i];
      assert g.runOrder[..i + 1][..i] == g.runOrder[..i];
      if id in g.runs && IsActive(g.runs[id]) && g.runs[id].embedding.Some? && |g.runs[id].embedding.value| == |q| {
        var similarity := sim(q, g.runs[id].embedding.value);
        if similarity >= LowSimilarityThreshold {
          found := found + [Detailed(g.State(), id, similarity)];
        }
      }
      i := i + 1;
    }
    assert g.runOrder[..i] == g.runOrder;
    var a := new SimilarRun[|found|](k requires 0 <= k < |found| => found[k]);
    assert a[..] == found;
    HigherSimIsPreorder();
    SortInPlace(a, HigherSim);
    r := PyTake(a[..], topK);
  }

  // ---------------------------------------------------------------- pre-filter

  function BestScore(similar: seq<SimilarRun>): (r: Option<real>)
    ensures r.Some? <==> similar != []
    ensures r.Some? ==> r.value == similar[0].similarity
  {
    if similar == [] then None else Some(similar[0].similarity)
  }

  /** `_deterministic_filter`: ADD with no candidate, ADD carrying the score when the best
      candidate is under the floor, otherwise no verdict. `fmt` is `format(x, ".2f")`. */
  function DeterministicFilter(similar: seq<SimilarRun>, fmt: real -> string, now: string): (r: Option<MemoryDecision>)
    ensures similar == [] ==> r == Some(MemoryDecision("", Add, None, "No similar runs found in memory", None, now))
    ensures similar != [] && similar[0].similarity < LowSimilarityThreshold ==>
              r.Some? && r.value.kind == Add && r.value.target.None? && r.value.score == Some(similar[0].similarity)
              && r.value.reason == "Similarity (" + fmt(similar[0].similarity) + ") below threshold (0.7)"
    ensures r.None? <==> similar != [] && similar[0].similarity >= LowSimilarityThreshold
  {
    if similar == [] then Some(MemoryDecision("", Add, None, "No similar runs found in memory", None, now))
    else if similar[0].similarity < LowSimilarityThreshold then
      Some(MemoryDecision("", Add, None, "Similarity (" + fmt(similar[0].similarity) + ") below threshold (0.7)",
                          Some(similar[0].similarity), now))
    else None
  }

  /** On what `_find_similar_runs` returns, the pre-filter defers exactly when there is a candidate. */
  lemma FilterDefersIffCandidates(s: GraphState, q: seq<real>, sim: (seq<real>, seq<real>) -> real, topK: int,
                                  fmt: real -> string, now: string)
    ensures var similar := SimilarRuns(s, q, sim, topK);
            DeterministicFilter(similar, fmt, now).None? <==> similar != []
  {
    SimilarRunsProperties(s, q, sim, topK);
    var similar := SimilarRuns(s, q, sim, topK);
    if similar != [] {
      assert similar[0] in similar;
    }
  }

  // ---------------------------------------------------------------- reply cleaning

  /** `cleaned`: the reply stripped, without one leading "```json" or "```" and one
      trailing "```", stripped again. */
  function CleanResponse(reply: string): (r: string)
    ensures r == [] || (!IsSpace(r[0]) && !IsSpace(r[|r| - 1]))
  {
    var t := Strip(reply);
    var a := if StartsWith(t, "```json") then t[7..] else if StartsWith(t, "```") then t[3..] else t;
    var b := if EndsWith(a, "```") then a[..|a| - 3] else a;
    Strip(b)
  }

  /** A body fenced as "```json … ```" comes back stripped. */
  lemma CleanJsonFence(body: string)
    ensures CleanResponse("```json" + body + "```") == Strip(body)
  {
    var t := "```json" + body + "```";
    assert !IsSpace(t[0]) && !IsSpace(t[|t| - 1]);
    StripUnchanged(t);
    assert "```json" <= t;
    assert t[7..] == body + "```";
    CleanFenced(t, body, 7);
  }

  /** A body fenced as "``` … ```" comes back stripped, unless the body itself begins "json". */
  lemma CleanPlainFence(body: string)
    requires !StartsWith(body, "json")
    ensures CleanResponse("```" + body + "```") == Strip(body)
  {
    var t := "```" + body + "```";
    assert !IsSpace(t[0]) && !IsSpace(t[|t| - 1]);
    StripUnchanged(t);
    NotJsonFenced(body);
    assert "```" <= t;
    assert t[3..] == body + "```";
    CleanFenced(t, body, 3);
  }

  /** Once the opening fence is skipped, the closing one and the spaces around the body go. */
  lemma CleanFenced(t: string, body: string, skip: nat)
    requires Strip(t) == t && skip <= |t| && t[skip..] == body + "```"
    requires (skip == 7 && StartsWith(t, "```json")) || (skip == 3 && !StartsWith(t, "```json") && StartsWith(t, "```"))
    ensures CleanResponse(t) == Strip(body)
  {
    var a := body + "```";
    assert a[|a| - 3..] == "```";
    assert a[..|a| - 3] == body;
  }

  lemma NotJsonFenced(body: string)
    requires !StartsWith(body, "json")
    ensures !StartsWith("```" + body + "```", "```json")
  {
    var t := "```" + body + "```";
    if |body| >= 4 {
      assert body[..4] != "json";
      assert t[3..7] == body[..4];
    } else if |t| >= 7 {
      assert t[3 + |body|] == '`';
    }
  }

  /** A reply with nothing to strip and no fence is kept as is. */
  lemma CleanUnfenced(reply: string)
    requires reply != [] && !IsSpace(reply[0]) && !IsSpace(reply[|reply| - 1])
    requires !StartsWith(reply, "```") && !EndsWith(reply, "```")
    ensures CleanResponse(reply) == reply
  {
    StripUnchanged(reply);
  }

  // ---------------------------------------------------------------- extraction

  /** Number of occurrences of `c` in `s`. */
  function Count(c: char, s: string): nat {
    if s == [] then 0 else Count(c, s[..|s| - 1]) + (if s[|s| - 1] == c then 1 else 0)
  }

  /** Opening minus closing braces in `s`. */
  function Balance(s: string): int {
    Count('{', s) - Count('}', s)
  }

  lemma OpenBrace(s: string, i: nat)
    requires i < |s| && s[i] == '{'
    ensures Balance(s[i..i + 1]) == 1
  {
    var x := s[i..i + 1];
    assert x[..0] == [] && x[0] == '{';
    assert Count('{', x) == 1 && Count('}', x) == 0;
  }

  lemma BalancedCounts(x: string)
    requires Balance(x) == 0
    ensures Count('{', x) == Count('}', x)
  {
  }

  lemma BalanceStep(s: string, i: nat, j: nat)
    requires i <= j < |s|
    ensures Balance(s[i..j + 1]) == Balance(s[i..j]) + (if s[j] == '{' then 1 else if s[j] == '}' then -1 else 0)
  {
    assert s[i..j + 1][..j - i] == s[i..j];
  }

  /** The brace scan from `i` with `count` open braces: the first index of a '}' that
      brings the count back to 0. */
  function ScanFrom(s: string, i: nat, count: int): (r: Option<nat>)
    decreases |s| - i
    ensures r.Some? ==> i <= r.value < |s|
  {
    if i >= |s| then None
    else
      var next := if s[i] == '{' then count + 1 else if s[i] == '}' then count - 1 else count;
      if s[i] == '}' && next == 0 then Some(i) else ScanFrom(s, i + 1, next)
  }

  /** Where the brace scan started at `start` ends, if it does. */
  function BalancedEnd(s: string, start: nat): (r: Option<nat>)
    ensures r.Some? ==> start <= r.value < |s|
  {
    ScanFrom(s, start, 0)
  }

  /** The scan ends on a '}' where the braces since `start` balance for the first time. */
  lemma {:induction false} ScanBalanced(s: string, start: nat, i: nat, count: int)
    requires start <= i <= |s| && count == Balance(s[start..i])
    requires forall j :: start < j <= i ==> Balance(s[start..j]) != 0 || s[j - 1] != '}'
    decreases |s| - i
    ensures var r := ScanFrom(s, i, count);
      r.Some? ==> && i <= r.value < |s| && s[r.value] == '}' && Balance(s[start..r.value + 1]) == 0
                  && forall j :: start < j <= r.value ==> Balance(s[start..j]) != 0 || s[j - 1] != '}'
  {
    if i < |s| {
      BalanceStep(s, start, i);
      if !(s[i] == '}' && Balance(s[start..i + 1]) == 0) {
        ScanBalanced(s, start, i + 1, Balance(s[start..i + 1]));
      }
    }
  }

  /** The text the brace scan extracts has as many '{' as '}'. */
  lemma ExtractedBalanced(s: string, start: nat)
    requires start <= |s|
    ensures BalancedEnd(s, start).Some? ==>
              var e := BalancedEnd(s, start).value;
              start <= e < |s| && s[e] == '}' && Count('{', s[start..e + 1]) == Count('}', s[start..e + 1])
  {
    assert s[start..start] == [];
    ScanBalanced(s, start, start, 0);
  }

  /** The `for i in range(start_idx, len(cleaned))` loop with its running `brace_count`. */
  method FindBalancedEnd(s: string, start: nat) returns (r: Option<nat>)
    requires start <= |s|
    ensures r == BalancedEnd(s, start)
  {
    var count := 0;
    var i := start;
    while i < |s|
      invariant start <= i <= |s|
      invariant ScanFrom(s, start, 0) == ScanFrom(s, i, count)
    {
      if s[i] == '{' {
        count := count + 1;
      } else if s[i] == '}' {
        count := count - 1;
        if count == 0 {
          return Some(i);
        }
      }
      i := i + 1;
    }
    return None;
  }

  /** The regular expression `\{[^{}]*(?:\{[^{}]*\}[^{}]*)*\}` after its opening brace,
      at nesting `depth` 1 or 2: a second '{' opens a group, a third fails, and the
      '}' closing depth 1 ends the match. Backtracking cannot change the outcome,
      since every brace leaves the pattern exactly one way to continue. */
  function NestedFrom(s: string, i: nat, depth: nat): (r: Option<nat>)
    decreases |s| - i
    ensures r.Some? ==> i <= r.value < |s|
  {
    if i >= |s| then None
    else if s[i] == '{' then (if depth == 1 then NestedFrom(s, i + 1, 2) else None)
    else if s[i] == '}' then (if depth <= 1 then Some(i) else NestedFrom(s, i + 1, 1))
    else NestedFrom(s, i + 1, depth)
  }

  /** `re.search` of that expression from position `p` on: the leftmost start where it
      matches, with the index of the match's last character. */
  function RegexSearch(s: string, p: nat): (r: Option<(nat, nat)>)
    decreases |s| - p
    ensures r.Some? ==> p <= r.value.0 < r.value.1 < |s| && s[r.value.0] == '{' && NestedFrom(s, r.value.0 + 1, 1) == Some(r.value.1)
  {
    if p >= |s| then None
    else if s[p] == '{' && NestedFrom(s, p + 1, 1).Some? then Some((p, NestedFrom(s, p + 1, 1).value))
    else RegexSearch(s, p + 1)
  }

  /** The regular expression's match also has as many '{' as '}'. */
  lemma {:induction false} NestedBalanced(s: string, p: nat, i: nat, depth: nat)
    requires p < i <= |s| && 1 <= depth <= 2 && Balance(s[p..i]) == depth
    decreases |s| - i
    ensures NestedFrom(s, i, depth).Some? ==>
              var e := NestedFrom(s, i, depth).value;
              i <= e < |s| && s[e] == '}' && Balance(s[p..e + 1]) == 0
  {
    if i < |s| {
      BalanceStep(s, p, i);
      if s[i] == '{' && depth == 1 {
        NestedBalanced(s, p, i + 1, 2);
      } else if s[i] == '}' && depth == 2 {
        NestedBalanced(s, p, i + 1, 1);
      } else if s[i] != '{' && s[i] != '}' {
        NestedBalanced(s, p, i + 1, depth);
      }
    }
  }

  lemma RegexMatchBalanced(s: string)
    ensures RegexSearch(s, 0).Some? ==>
              var (b, e) := RegexSearch(s, 0).value;
              b <= e < |s| && s[b] == '{' && s[e] == '}' && Count('{', s[b..e + 1]) == Count('}', s[b..e + 1])
  {
    if RegexSearch(s, 0).Some? {
      var m := RegexSearch(s, 0).value;
      MatchBalanced(s, m.0, m.1);
    }
  }

  /** A match from the '{' at `b` to the '}' at `e` has as many of each. */
  lemma MatchBalanced(s: string, b: nat, e: nat)
    requires b < |s| && s[b] == '{' && NestedFrom(s, b + 1, 1) == Some(e)
    ensures e < |s| && s[e] == '}' && Count('{', s[b..e + 1]) == Count('}', s[b..e + 1])
  {
    OpenBrace(s, b);
    NestedBalanced(s, b, b + 1, 1);
    BalancedCounts(s[b..e + 1]);
  }

  /** `JSONDecodeError(msg, doc, 0)` as `str()` shows it. */
  function DecodeError(msg: string): string {
    msg + ": line 1 column 1 (char 0)"
  }

  /** How `decision_data` is obtained from the cleaned reply: `json.loads` of all of it,
      else of the brace-balanced object from the first '{', else (when the braces never
      balance) of the regular expression's match. `loads` stands for `json.loads`, failing
      with the decoder's message. */
  function ExtractData(cleaned: string, loads: string -> Result<Json>): Result<Json> {
    if loads(cleaned).Ok? then loads(cleaned)
    else match Find(cleaned, "{")
      case None => Err(DecodeError("No JSON object found in response"))
      case Some(start) =>
        match BalancedEnd(cleaned, start)
        case Some(e) => loads(cleaned[start..e + 1])
        case None =>
          match RegexSearch(cleaned, 0)
          case Some(m) => loads(cleaned[m.0..m.1 + 1])
          case None => Err(DecodeError("Could not extract JSON from response"))
  }

  /** The extraction as `_llm_judge` performs it, with the brace loop. */
  method ExtractDecisionData(cleaned: string, loads: string -> Result<Json>) returns (r: Result<Json>)
    ensures r == ExtractData(cleaned, loads)
  {
    var direct := loads(cleaned);
    if direct.Ok? {
      return direct;
    }
    var start := Find(cleaned, "{");
    if start.None? {
      return Err(DecodeError("No JSON object found in response"));
    }
    var e := FindBalancedEnd(cleaned, start.value);
    if e.Some? {
      return loads(cleaned[start.value..e.value + 1]);
    }
    var m := RegexSearch(cleaned, 0);
    if m.Some? {
      return loads(cleaned[m.value.0..m.value.1 + 1]);
    }
    return Err(DecodeError("Could not extract JSON from response"));
  }

  // ---------------------------------------------------------------- normalisation

  /** The `decision` string: "ADD" when absent, upper-cased when a string, an
      `AttributeError` for any other value (`None` included). */
  function DecisionName(d: Dict): Result<string> {
    match Get(d, "decision")
    case None => Ok("ADD")
    case Some(JStr(x)) => Ok(Upper(x))
    case Some(v) => Err("'" + TypeName(v) + "' object has no attribute 'upper'")
  }

  /** `not target_run_id` for `decision_data.get("target_run_id")`. */
  predicate NoTarget(t: Option<Json>) {
    t.None? || !Truthy(t.value)
  }

  /** A value accepted where the record wants an optional string. */
  predicate OptionalString(t: Option<Json>) {
    t.None? || t.value.JNull? || t.value.JStr?
  }

  function AsOptionalString(t: Option<Json>): Option<string>
    requires OptionalString(t)
  {
    if t.Some? && t.value.JStr? then Some(t.value.s) else None
  }

  /** The first line of pydantic's `ValidationError` for the fields that failed. */
  function ValidationError(fields: seq<string>): string {
    NatToString(|fields|) + (if |fields| == 1 then " validation error" else " validation errors")
    + " for MemoryDecision: " + Join(fields, ", ")
  }

  /** The verdict read from a parsed reply: an unknown or absent decision is ADD; REPLACE
      or MERGE without a truthy target takes the best candidate, or becomes ADD with no
      target when there is none; then the record is validated (`target_run_id` an optional
      string, `reason` a string, "No reason provided" when absent). */
  function Interpret(data: Json, similar: seq<SimilarRun>, now: string): (r: Result<MemoryDecision>)
    ensures r.Ok? ==> r.value.runId == "" && r.value.score == BestScore(similar) && r.value.timestamp == now
    ensures r.Ok? && (r.value.kind == Replace || r.value.kind == Merge) ==> r.value.target.Some?
  {
    if !data.JObj? then Err("'" + TypeName(data) + "' object has no attribute 'get'")
    else
      var d := data.fields;
      var name :- DecisionName(d);
      var kind0 := ParseKind(name).GetOr(Add);
      var target0 := Get(d, "target_run_id");
      var (kind, target) :=
        if (kind0 == Replace || kind0 == Merge) && NoTarget(target0) then
          (if similar != [] then (kind0, Some(JStr(similar[0].runId))) else (Add, None))
        else (kind0, target0);
      var reason := Get(d, "reason");
      var badTarget := if OptionalString(target) then [] else ["target_run_id"];
      var badReason := if reason.None? || reason.value.JStr? then [] else ["reason"];
      if badTarget + badReason != [] then Err(ValidationError(badTarget + badReason))
      else
        var text := if reason.Some? then reason.value.s else "No reason provided";
        Ok(MemoryDecision("", kind, AsOptionalString(target), text, BestScore(similar), now))
  }

  /** The verdict read from a returned reply, or the message of the exception raised on the way. */
  function Verdict(reply: string, similar: seq<SimilarRun>, loads: string -> Result<Json>, now: string): (r: Result<MemoryDecision>)
    ensures r.Ok? ==> r.value.runId == "" && r.value.score == BestScore(similar) && r.value.timestamp == now
  {
    var data :- ExtractData(CleanResponse(reply), loads);
    Interpret(data, similar, now)
  }

  /** `_llm_judge` given what `make_decision` did and the `json.loads` of the service. */
  function JudgeSpec(similar: seq<SimilarRun>, reply: Llm.Reply, loads: string -> Result<Json>, now: string): MemoryDecision {
    match reply
    case Raised(e) =>
      MemoryDecision("", Add, None, "Error calling LLM: " + e + ". Defaulting to ADD.", BestScore(similar), now)
    case Returned(text) =>
      match Verdict(text, similar, loads, now)
      case Ok(d) => d
      case Err(m) =>
        MemoryDecision("", Add, None, "Error in LLM decision: " + m + ". Defaulting to ADD.", BestScore(similar), now)
  }

  method LlmJudge(similar: seq<SimilarRun>, reply: Llm.Reply, loads: string -> Result<Json>, now: string)
    returns (d: MemoryDecision)
    ensures d == JudgeSpec(similar, reply, loads, now)
  {
    if reply.Raised? {
      return MemoryDecision("", Add, None, "Error calling LLM: " + reply.message + ". Defaulting to ADD.", BestScore(similar), now);
    }
    var cleaned := CleanResponse(reply.text);
    var parsed := ExtractDecisionData(cleaned, loads);
    var verdict := if parsed.Ok? then Interpret(parsed.value, similar, now) else Err(parsed.message);
    assert verdict == Verdict(reply.text, similar, loads, now);
    if verdict.Ok? {
      return verdict.value;
    }
    return MemoryDecision("", Add, None, "Error in LLM decision: " + verdict.message + ". Defaulting to ADD.", BestScore(similar), now);
  }

  /** REPLACE and MERGE never come out of the judge without a target. */
  lemma JudgeTargets(similar: seq<SimilarRun>, reply: Llm.Reply, loads: string -> Result<Json>, now: string)
    ensures var d := JudgeSpec(similar, reply, loads, now);
      d.kind == Replace || d.kind == Merge ==> d.target.Some?
  {
  }

  /** A REPLACE or MERGE whose target is absent or falsy takes the best candidate's run id,
      or becomes ADD with no target when there is no candidate. */
  lemma InterpretFillsTarget(data: Json, similar: seq<SimilarRun>, now: string)
    requires data.JObj? && DecisionName(data.fields).Ok?
    requires ParseKind(DecisionName(data.fields).value) in {Some(Replace), Some(Merge)}
    requires NoTarget(Get(data.fields, "target_run_id"))
    ensures var r := Interpret(data, similar, now);
      && (similar != [] && r.Ok? ==> Some(r.value.kind) == ParseKind(DecisionName(data.fields).value)
                                      && r.value.target == Some(similar[0].runId))
      && (similar == [] && r.Ok? ==> r.value.kind == Add && r.value.target.None?)
  {
  }

  /** A missing decision, or one that is not a verdict name once upper-cased, yields ADD. */
  lemma JudgeDefaultsToAdd(data: Json, similar: seq<SimilarRun>, now: string)
    requires data.JObj?
    requires Get(data.fields, "decision").None?
             || (Get(data.fields, "decision").Some? && Get(data.fields, "decision").value.JStr?
                 && ParseKind(Upper(Get(data.fields, "decision").value.s)).None?)
    ensures Interpret(data, similar, now).Ok? ==> Interpret(data, similar, now).value.kind == Add
  {
  }

  /** The judge fails closed: a provider error or a reply that cannot be parsed or
      validated yields ADD with no target, and the score is always the best candidate's. */
  lemma JudgeFailsClosed(similar: seq<SimilarRun>, reply: Llm.Reply, loads: string -> Result<Json>, now: string)
    ensures var d := JudgeSpec(similar, reply, loads, now);
      && (reply.Raised? ==> d.kind == Add && d.target.None? && StartsWith(d.reason, "Error calling LLM: "))
      && (reply.Returned? && Verdict(reply.text, similar, loads, now).Err? ==>
            d.kind == Add && d.target.None? && StartsWith(d.reason, "Error in LLM decision: "))
      && d.score == BestScore(similar)
  {
    match reply
    case Raised(e) =>
      PrefixOfJoin("Error calling LLM: ", e, ". Defaulting to ADD.");
    case Returned(text) =>
      match Verdict(text, similar, loads, now)
      case Ok(v) =>
      case Err(m) =>
        PrefixOfJoin("Error in LLM decision: ", m, ". Defaulting to ADD.");
  }

  lemma PrefixOfJoin(p: string, m: string, q: string)
    ensures StartsWith(p + m + q, p)
  {
    assert (p + m + q)[..|p|] == p;
  }

  // ---------------------------------------------------------------- decide and store

  /** `decide`: the candidates (top 3), then the pre-filter's verdict if it has one, else
      the judge's; either way stamped with the caller's run id. `judge` stands for the
      provider answering a prompt built from the candidates. */
  function DecideSpec(s: GraphState, runId: string, q: seq<real>, sim: (seq<real>, seq<real>) -> real,
                      fmt: real -> string, judge: seq<SimilarRun> -> Llm.Reply,
                      loads: string -> Result<Json>, now: string): (d: MemoryDecision)
    ensures d.runId == runId
  {
    var similar := SimilarRuns(s, q, sim, 3);
    match DeterministicFilter(similar, fmt, now)
    case Some(early) => early.(runId := runId)
    case None => JudgeSpec(similar, judge(similar), loads, now).(runId := runId)
  }

  /** The judge is consulted exactly when some candidate was found. */
  lemma DecideConsultsJudgeIffCandidates(s: GraphState, runId: string, q: seq<real>, sim: (seq<real>, seq<real>) -> real,
                                         fmt: real -> string, judge: seq<SimilarRun> -> Llm.Reply,
                                         loads: string -> Result<Json>, now: string)
    ensures var similar := SimilarRuns(s, q, sim, 3);
      && (similar == [] ==> DecideSpec(s, runId, q, sim, fmt, judge, loads, now)
                              == MemoryDecision(runId, Add, None, "No similar runs found in memory", None, now))
      && (similar != [] ==> DecideSpec(s, runId, q, sim, fmt, judge, loads, now)
                              == JudgeSpec(similar, judge(similar), loads, now).(runId := runId))
  {
    FilterDefersIffCandidates(s, q, sim, 3, fmt, now);
  }

  method Decide(g: Graph, runId: string, q: seq<real>, sim: (seq<real>, seq<real>) -> real,
                fmt: real -> string, judge: seq<SimilarRun> -> Llm.Reply,
                loads: string -> Result<Json>, now: string) returns (d: MemoryDecision)
    ensures d == DecideSpec(g.State(), runId, q, sim, fmt, judge, loads, now)
  {
    var similar := FindSimilarRuns(g, q, sim, 3);
    var early := DeterministicFilter(similar, fmt, now);
    if early.Some? {
      return early.value.(runId := runId);
    }
    d := LlmJudge(similar, judge(similar), loads, now);
    d := d.(runId := runId);
  }

  /** The stored form of a decision. */
  function Record(d: MemoryDecision): DecisionNode {
    DecisionNode(KindName(d.kind), d.target, d.reason, d.score, d.timestamp)
  }

  /** `store_decision`: upsert of the record keyed by the run id. */
  method StoreDecision(g: Graph, d: MemoryDecision)
    requires g.Valid()
    modifies g
    ensures g.Valid() && g.State() == WithDecision(old(g.State()), d.runId, Record(d))
  {
    g.MergeDecision(d.runId, Record(d));
  }

  /** Storing decisions is keyed by run id: the last decision for a run wins, storing the
      same decision twice is storing it once, and other runs' records are untouched. */
  lemma StoreDecisionUpsert(s: GraphState, d: MemoryDecision, e: MemoryDecision)
    ensures WithDecision(WithDecision(s, d.runId, Record(d)), d.runId, Record(d)) == WithDecision(s, d.runId, Record(d))
    ensures d.runId == e.runId ==>
              WithDecision(WithDecision(s, d.runId, Record(d)), e.runId, Record(e)) == WithDecision(s, e.runId, Record(e))
    ensures var t := WithDecision(s, d.runId, Record(d)).decisions;
      t[d.runId] == Record(d) && forall k :: k != d.runId ==> (k in t <==> k in s.decisions) && (k in s.decisions ==> t[k] == s.decisions[k])
  {
  }
}
