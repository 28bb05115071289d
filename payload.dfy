/** The run payload a finished agent run is submitted as (models/run.py), in either of its
    two shapes: the structured run log (`user_task`, `steps`, `status`, ...) or the older
    shape (`task_text`, `run_tree`, `outcome`, `created_at`), and the accessors that
    reconcile the two. */
module Payload {
  import opened Wrappers
  import opened Strs
  import opened Json

  /** `Literal["success", "failure", "partial"]`. */
  predicate IsOutcome(s: string) {
    s == "success" || s == "failure" || s == "partial"
  }

  type OutcomeLabel = s: string | IsOutcome(s) witness "partial"

  /** A parsed `datetime`, kept as the text its `isoformat()` gives. */
  datatype DateTime = DateTime(iso: string)

  datatype RunPayload = RunPayload(
    id: Option<string>,
    runId: string,
    startTimestamp: Option<string>,
    agentId: string,
    userTask: Option<string>,
    metadata: Option<Dict>,
    steps: Option<seq<Dict>>,
    finalOutput: Option<string>,
    duration: Option<int>,
    status: Option<string>,
    agentPrompt: Option<string>,
    endTimestamp: Option<string>,
    taskText: Option<string>,
    runTree: Option<Dict>,
    outcome: Option<OutcomeLabel>,
    createdAt: Option<DateTime>)

  /** `self.user_task or self.task_text or ""`. */
  function GetTaskText(p: RunPayload): (r: string)
    ensures Given(p.userTask) ==> r == p.userTask.value
    ensures !Given(p.userTask) && Given(p.taskText) ==> r == p.taskText.value
    ensures r == "" <==> !Given(p.userTask) && !Given(p.taskText)
  {
    if Given(p.userTask) then p.userTask.value
    else if Given(p.taskText) then p.taskText.value
    else ""
  }

  function StrOrNull(o: Option<string>): Json {
    match o
    case Some(s) => JStr(s)
    case None => JNull
  }

  function IntOrNull(o: Option<int>): Json {
    match o
    case Some(i) => JInt(i)
    case None => JNull
  }

  function DictOrNull(o: Option<Dict>): Json {
    match o
    case Some(d) => JObj(d)
    case None => JNull
  }

  /** The keys of the run log built from the structured fields, in their order. */
  const NewFormatKeys: seq<string> := ["id", "run_id", "start_timestamp", "agent_id", "user_task",
    "metadata", "steps", "final_output", "duration", "status", "agent_prompt", "end_timestamp"]

  /** The run log: a non-empty `run_tree` as given, otherwise one built from the structured fields. */
  function GetRunTree(p: RunPayload): (r: Dict)
    ensures p.runTree.Some? && p.runTree.value != [] ==> r == p.runTree.value
    ensures !(p.runTree.Some? && p.runTree.value != []) ==>
      && Keys(r) == NewFormatKeys
      && r[0].1 == StrOrNull(p.id) && r[2].1 == StrOrNull(p.startTimestamp)
      && r[7].1 == StrOrNull(p.finalOutput) && r[10].1 == StrOrNull(p.agentPrompt)
      && r[11].1 == StrOrNull(p.endTimestamp)
      && r[1].1 == JStr(p.runId) && r[3].1 == JStr(p.agentId)
      && r[4].1 == StrOrNull(p.userTask) && r[5].1 == DictOrNull(p.metadata)
      && r[6].1 == JList(Steps(p.steps)) && r[8].1 == IntOrNull(p.duration)
      && r[9].1 == StrOrNull(p.status)
  {
    if p.runTree.Some? && p.runTree.value != [] then p.runTree.value
    else
      var r := [("id", StrOrNull(p.id)),
       ("run_id", JStr(p.runId)),
       ("start_timestamp", StrOrNull(p.startTimestamp)),
       ("agent_id", JStr(p.agentId)),
       ("user_task", StrOrNull(p.userTask)),
       ("metadata", DictOrNull(p.metadata)),
       ("steps", JList(Steps(p.steps))),
       ("final_output", StrOrNull(p.finalOutput)),
       ("duration", IntOrNull(p.duration)),
       ("status", StrOrNull(p.status)),
       ("agent_prompt", StrOrNull(p.agentPrompt)),
       ("end_timestamp", StrOrNull(p.endTimestamp))];
      assert Keys(r) == NewFormatKeys by {
        assert forall i :: 0 <= i < |r| ==> Keys(r)[i] == r[i].0 == NewFormatKeys[i];
      }
      r
  }

  /** `self.steps or []`, each step a dict. */
  function Steps(steps: Option<seq<Dict>>): (r: seq<Json>)
    ensures steps.None? ==> r == []
    ensures steps.Some? ==> |r| == |steps.value| && forall i :: 0 <= i < |r| ==> r[i] == JObj(steps.value[i])
  {
    match steps
    case None => []
    case Some(ds) => seq(|ds|, i requires 0 <= i < |ds| => JObj(ds[i]))
  }

  /** The built run log is never empty, so it is always the run log the rest of the
      service sees; and its `steps` entry is the payload's steps, `[]` when absent. */
  lemma RunTreeSteps(p: RunPayload)
    requires !(p.runTree.Some? && p.runTree.value != [])
    ensures GetRunTree(p) != []
    ensures Get(GetRunTree(p), "steps") == Some(JList(Steps(p.steps)))
  {
    var r := GetRunTree(p);
    assert r[0].0 == "id" && r[1].0 == "run_id" && r[2].0 == "start_timestamp";
    assert r[3].0 == "agent_id" && r[4].0 == "user_task" && r[5].0 == "metadata";
    assert r[6] == ("steps", JList(Steps(p.steps)));
  }

  /** The lower-cased status mapped to an outcome. */
  function StatusOutcome(status: string): (r: OutcomeLabel)
    ensures r == "success" <==> Lower(status) == "complete" || Lower(status) == "success"
    ensures r == "failure" <==> Lower(status) == "failure"
  {
    var l := Lower(status);
    if l == "complete" || l == "success" then "success"
    else if l == "failure" then "failure"
    else "partial"
  }

  /** The explicit outcome if set, otherwise the outcome the status implies, otherwise partial. */
  function GetOutcome(p: RunPayload): (r: OutcomeLabel)
    ensures p.outcome.Some? ==> r == p.outcome.value
    ensures p.outcome.None? && Given(p.status) ==> r == StatusOutcome(p.status.value)
    ensures p.outcome.None? && !Given(p.status) ==> r == "partial"
  {
    if p.outcome.Some? then p.outcome.value
    else if Given(p.status) then StatusOutcome(p.status.value)
    else "partial"
  }

  /** The status is read without regard to ASCII case: "COMPLETE", "Success" and
      "FAILURE" map like their lower-case spellings. */
  lemma {:induction false} OutcomeIgnoresCase(p: RunPayload, status: string)
    requires p.outcome.None? && status != ""
    ensures GetOutcome(p.(status := Some(Upper(status)))) == GetOutcome(p.(status := Some(status)))
  {
    LowerOfUpper(status);
    assert Upper(status) != "";
  }

  /** Every spelling of the three statuses the service knows, and nothing else, maps away from partial. */
  lemma StatusOutcomeCases(status: string)
    ensures StatusOutcome(status) == "partial" <==>
      Lower(status) != "complete" && Lower(status) != "success" && Lower(status) != "failure"
  {
  }

  /** `self.created_at`, else `isoparse(self.start_timestamp)` with any parse failure
      swallowed into None, else None. */
  function GetCreatedAt(p: RunPayload, isoparse: string -> Option<DateTime>): (r: Option<DateTime>)
    ensures p.createdAt.Some? ==> r == p.createdAt
    ensures p.createdAt.None? && Given(p.startTimestamp) ==> r == isoparse(p.startTimestamp.value)
    ensures p.createdAt.None? && !Given(p.startTimestamp) ==> r.None?
  {
    if p.createdAt.Some? then p.createdAt
    else if Given(p.startTimestamp) then isoparse(p.startTimestamp.value)
    else None
  }
}
