/** How the memory builder turns a run log into Reference and Artifact nodes
    (memory_builder.py): content-addressed ids, the rules over the `steps` list, and the
    fallback walk over the whole log that runs only when those rules find nothing. */
module Extraction {
  import opened Wrappers
  import opened Strs
  import opened Json
  import opened Payload
  import Embedding

  predicate IsHexDigit(c: char) {
    '0' <= c <= '9' || 'a' <= c <= 'f'
  }

  /** A SHA-256 digest as `hexdigest()` spells it: 64 lower-case hex digits. */
  predicate IsDigest(d: string) {
    |d| == 64 && forall i :: 0 <= i < |d| ==> IsHexDigit(d[i])
  }

  type Digest = d: string | IsDigest(d) witness seq(64, _ => '0')

  /** What the builder calls out to, each as a function of its input:
      `embed` is the embedding provider, given the stripped non-blank text, with Err for
      an exception it raises;
      `sim` the cosine similarity of two vectors of one length;
      `sha` SHA-256 of the UTF-8 text, as a hex digest;
      `dumpsSorted` and `dumps` are `json.dumps` with and without `sort_keys=True`;
      `text` is `str()` of a list or dict;
      `summarize` is the LLM's reply to the summary prompt for a formatted run log and its
      outcome, with Err for an exception the client raises;
      `isoparse` is the ISO-8601 parser, None where it raises;
      `now` is the clock's `utcnow()`; `threshold` is `SIMILARITY_THRESHOLD`. */
  datatype Services = Services(
    embed: string -> Result<seq<real>>,
    sim: (seq<real>, seq<real>) -> real,
    sha: string -> Digest,
    dumpsSorted: Json -> string,
    dumps: Json -> string,
    text: Json -> string,
    summarize: (string, string) -> Result<string>,
    isoparse: string -> Option<DateTime>,
    now: DateTime,
    threshold: real)

  // ---------------------------------------------------------------- ids

  /** `_generate_id`: the prefix, an underscore and the first 16 hex digits of the content's SHA-256. */
  function GenerateId(prefix: string, content: string, sha: string -> Digest): (r: string)
    ensures |r| == |prefix| + 17
    ensures r[..|prefix|] == prefix && r[|prefix|] == '_'
    ensures r[|prefix| + 1..] == sha(content)[..16]
  {
    prefix + "_" + sha(content)[..16]
  }

  /** Ids are content addresses: two contents get the same id under a prefix exactly when
      their digests share the first 16 hex digits, and the id ends in hex digits only. */
  lemma GenerateIdAddresses(prefix: string, a: string, b: string, sha: string -> Digest)
    ensures GenerateId(prefix, a, sha) == GenerateId(prefix, b, sha) <==> sha(a)[..16] == sha(b)[..16]
    ensures forall i :: |prefix| < i < |prefix| + 17 ==> IsHexDigit(GenerateId(prefix, a, sha)[i])
  {
    var x, y := GenerateId(prefix, a, sha), GenerateId(prefix, b, sha);
    if x == y {
      assert x[|prefix| + 1..] == y[|prefix| + 1..];
    }
    forall i | |prefix| < i < |prefix| + 17
      ensures IsHexDigit(x[i])
    {
      assert x[i] == x[|prefix| + 1..][i - |prefix| - 1] == sha(a)[i - |prefix| - 1];
    }
  }

  /** The item extracted from a run log. */
  datatype Reference = Reference(id: string, kind: string, embedding: seq<real>, sourceRef: string)

  datatype Artifact = Artifact(id: string, kind: string, embedding: seq<real>, hash: Digest)

  /** A Reference for `content`: embedded first, then its `source_ref` validated. */
  function NewReference(content: string, kind: string, source: Result<string>, svc: Services): (r: Result<Reference>)
    ensures r.Ok? ==> r.value.id == GenerateId("ref", content, svc.sha) && r.value.kind == kind
    ensures r.Ok? ==> |r.value.id| == 20 && r.value.id[..4] == "ref_"
    ensures r.Ok? ==> source == Ok(r.value.sourceRef) && Embedding.Embed(content, svc.embed) == Ok(r.value.embedding)
    ensures r.Err? <==> Embedding.Embed(content, svc.embed).Err? || source.Err?
  {
    var embedding :- Embedding.Embed(content, svc.embed);
    var sourceRef :- source;
    Ok(Reference(GenerateId("ref", content, svc.sha), kind, embedding, sourceRef))
  }

  /** An Artifact for `content`, its hash the content's digest: embedded first, then typed. */
  function NewArtifact(content: string, kind: Result<string>, svc: Services): (r: Result<Artifact>)
    ensures r.Ok? ==> r.value.hash == svc.sha(content) && r.value.id == "artifact_" + r.value.hash[..16]
    ensures r.Ok? ==> kind == Ok(r.value.kind) && Embedding.Embed(content, svc.embed) == Ok(r.value.embedding)
    ensures r.Err? <==> Embedding.Embed(content, svc.embed).Err? || kind.Err?
  {
    var embedding :- Embedding.Embed(content, svc.embed);
    var k :- kind;
    Ok(Artifact(GenerateId("artifact", content, svc.sha), k, embedding, svc.sha(content)))
  }

  /** `acc` in front of the items of `r`, or `r`'s error. */
  function Prepend<T>(acc: seq<T>, r: Result<seq<T>>): Result<seq<T>> {
    match r
    case Ok(v) => Ok(acc + v)
    case Err(e) => Err(e)
  }

  lemma PrependNothing<T>(r: Result<seq<T>>)
    ensures Prepend([], r) == r
  {
    if r.Ok? {
      assert [] + r.value == r.value;
    }
  }

  lemma PrependTwice<T>(a: seq<T>, b: seq<T>, r: Result<seq<T>>)
    ensures Prepend(a, Prepend(b, r)) == Prepend(a + b, r)
  {
    if r.Ok? {
      assert a + (b + r.value) == (a + b) + r.value;
    }
  }

  // ---------------------------------------------------------------- the fallback walk

  /** A dict met by the walk whose `type` is one of the wanted kinds, with its path. */
  datatype Found = Found(node: Dict, kind: string, path: string)

  const ReferenceKinds: set<string> := {"schema", "document", "api_response", "prior_run"}
  const ArtifactKinds: set<string> := {"schema", "plan", "report", "code"}

  /** The path of the value under `key`: dotted, with no leading dot at the root. */
  function KeyPath(path: string, key: string): string {
    if path == "" then key else path + "." + key
  }

  /** The path of the `i`-th item of a list. */
  function IndexPath(path: string, i: nat): string {
    path + "[" + NatToString(i) + "]"
  }

  /** The dict itself, when its `type` is a wanted kind. */
  function Here(fs: Dict, path: string, kinds: set<string>): (r: seq<Found>)
    ensures |r| <= 1
    ensures r != [] <==> exists t :: t in kinds && Get(fs, "type") == Some(JStr(t))
    ensures r != [] ==> r[0].node == fs && r[0].path == path && Get(fs, "type") == Some(JStr(r[0].kind))
  {
    match Get(fs, "type")
    case Some(JStr(t)) => if t in kinds then [Found(fs, t, path)] else []
    case _ => []
  }

  /** What the walk collects from `node`, in pre-order: a dict before its values, values in
      key order, list items in index order, and nothing under a key named "steps". */
  function FoundIn(node: Json, path: string, kinds: set<string>): seq<Found>
    decreases node, 2, 0
  {
    match node
    case JObj(fs) => Here(fs, path, kinds) + FoundInFields(fs, 0, path, kinds)
    case JList(xs) => FoundInItems(xs, 0, path, kinds)
    case _ => []
  }

  function FoundInFields(fs: Dict, i: nat, path: string, kinds: set<string>): seq<Found>
    requires i <= |fs|
    decreases JObj(fs), 1, |fs| - i
  {
    if i == |fs| then []
    else
      (if fs[i].0 != "steps" then FoundIn(fs[i].1, KeyPath(path, fs[i].0), kinds) else [])
      + FoundInFields(fs, i + 1, path, kinds)
  }

  function FoundInItems(xs: seq<Json>, i: nat, path: string, kinds: set<string>): seq<Found>
    requires i <= |xs|
    decreases JList(xs), 1, |xs| - i
  {
    if i == |xs| then []
    else FoundIn(xs[i], IndexPath(path, i), kinds) + FoundInItems(xs, i + 1, path, kinds)
  }

  /** The nested `traverse` closure: walks `node` and appends what it finds to `acc`. */
  method Traverse(node: Json, path: string, kinds: set<string>, acc: seq<Found>) returns (r: seq<Found>)
    ensures r == acc + FoundIn(node, path, kinds)
    decreases node, 2
  {
    match node {
      case JObj(fs) =>
        r := TraverseFields(fs, path, kinds, acc + Here(fs, path, kinds));
        Regroup(acc, Here(fs, path, kinds), FoundInFields(fs, 0, path, kinds));
      case JList(xs) =>
        r := TraverseItems(xs, path, kinds, acc);
      case _ =>
        r := acc;
    }
  }

  /** `for key, value in node.items(): if key != "steps": traverse(value, ...)`. */
  method TraverseFields(fs: Dict, path: string, kinds: set<string>, acc: seq<Found>) returns (r: seq<Found>)
    ensures r == acc + FoundInFields(fs, 0, path, kinds)
    decreases JObj(fs), 1
  {
    r := acc;
    var i := 0;
    ghost var total := acc + FoundInFields(fs, 0, path, kinds);
    while i < |fs|
      invariant 0 <= i <= |fs|
      invariant r + FoundInFields(fs, i, path, kinds) == total
    {
      ghost var before := r;
      r := TraverseField(fs, i, path, kinds, r);
      Regroup(before, FieldFound(fs, i, path, kinds), FoundInFields(fs, i + 1, path, kinds));
      i := i + 1;
    }
  }

  /** What the walk finds under the `i`-th key of a dict: nothing under "steps". */
  function FieldFound(fs: Dict, i: nat, path: string, kinds: set<string>): (r: seq<Found>)
    requires i < |fs|
    ensures FoundInFields(fs, i, path, kinds) == r + FoundInFields(fs, i + 1, path, kinds)
  {
    if fs[i].0 != "steps" then FoundIn(fs[i].1, KeyPath(path, fs[i].0), kinds) else []
  }

  /** One turn of the loop over a dict's items. */
  method TraverseField(fs: Dict, i: nat, path: string, kinds: set<string>, acc: seq<Found>) returns (r: seq<Found>)
    requires i < |fs|
    ensures r == acc + FieldFound(fs, i, path, kinds)
    decreases JObj(fs), 0
  {
    if fs[i].0 != "steps" {
      r := Traverse(fs[i].1, KeyPath(path, fs[i].0), kinds, acc);
    } else {
      r := acc;
      assert acc + [] == acc;
    }
  }

  /** `for i, item in enumerate(node): traverse(item, f"{path}[{i}]")`. */
  method TraverseItems(xs: seq<Json>, path: string, kinds: set<string>, acc: seq<Found>) returns (r: seq<Found>)
    ensures r == acc + FoundInItems(xs, 0, path, kinds)
    decreases JList(xs), 1
  {
    r := acc;
    var i := 0;
    while i < |xs|
      invariant 0 <= i <= |xs|
      invariant r + FoundInItems(xs, i, path, kinds) == acc + FoundInItems(xs, 0, path, kinds)
    {
      ghost var before := r;
      r := Traverse(xs[i], IndexPath(path, i), kinds, r);
      Regroup(before, FoundIn(xs[i], IndexPath(path, i), kinds), FoundInItems(xs, i + 1, path, kinds));
      i := i + 1;
    }
  }

  lemma Regroup<T>(a: seq<T>, b: seq<T>, c: seq<T>)
    ensures a + (b + c) == (a + b) + c
  {
  }

  /** Every dict found carries a wanted kind, as its own `type`. */
  predicate OfKinds(ms: seq<Found>, kinds: set<string>) {
    forall m :: m in ms ==> m.kind in kinds && Get(m.node, "type") == Some(JStr(m.kind))
  }

  lemma {:induction false} FoundInKinds(node: Json, path: string, kinds: set<string>)
    ensures OfKinds(FoundIn(node, path, kinds), kinds)
    decreases node, 2, 0
  {
    match node
    case JObj(fs) =>
      FoundInFieldsKinds(fs, 0, path, kinds);
    case JList(xs) =>
      FoundInItemsKinds(xs, 0, path, kinds);
    case _ =>
  }

  lemma {:induction false} FoundInFieldsKinds(fs: Dict, i: nat, path: string, kinds: set<string>)
    requires i <= |fs|
    ensures OfKinds(FoundInFields(fs, i, path, kinds), kinds)
    decreases JObj(fs), 1, |fs| - i
  {
    if i < |fs| {
      if fs[i].0 != "steps" {
        FoundInKinds(fs[i].1, KeyPath(path, fs[i].0), kinds);
      }
      FoundInFieldsKinds(fs, i + 1, path, kinds);
    }
  }

  lemma {:induction false} FoundInItemsKinds(xs: seq<Json>, i: nat, path: string, kinds: set<string>)
    requires i <= |xs|
    ensures OfKinds(FoundInItems(xs, i, path, kinds), kinds)
    decreases JList(xs), 1, |xs| - i
  {
    if i < |xs| {
      FoundInKinds(xs[i], IndexPath(path, i), kinds);
      FoundInItemsKinds(xs, i + 1, path, kinds);
    }
  }

  /** Two dicts with the same keys in the same order that differ at most in the values
      of keys named "steps". */
  predicate SameButSteps(a: Dict, b: Dict) {
    |a| == |b| && forall i :: 0 <= i < |a| ==> a[i].0 == b[i].0 && (a[i].0 != "steps" ==> a[i].1 == b[i].1)
  }

  /** The walk never looks under "steps": below a dict, it finds the same things whatever
      the dict holds there. */
  lemma {:induction false} StepsNotVisited(a: Dict, b: Dict, i: nat, path: string, kinds: set<string>)
    requires SameButSteps(a, b) && i <= |a|
    ensures FoundInFields(a, i, path, kinds) == FoundInFields(b, i, path, kinds)
    decreases |a| - i
  {
    if i < |a| {
      StepsNotVisited(a, b, i + 1, path, kinds);
    }
  }

  // ---------------------------------------------------------------- references

  /** `source_ref=node.get("source", path)`: a `source` that is not a string fails validation. */
  function SourceRef(m: Found): (r: Result<string>)
    ensures !HasKey(m.node, "source") ==> r == Ok(m.path)
    ensures HasKey(m.node, "source") ==> (r.Ok? <==> Get(m.node, "source").value.JStr?)
    ensures r.Ok? && HasKey(m.node, "source") ==> Get(m.node, "source") == Some(JStr(r.value))
  {
    match Get(m.node, "source")
    case None => Ok(m.path)
    case Some(JStr(s)) => Ok(s)
    case Some(_) => Err("1 validation error for Reference: source_ref")
  }

  function FoundReference(m: Found, svc: Services): Result<Reference> {
    NewReference(svc.dumpsSorted(JObj(m.node)), m.kind, SourceRef(m), svc)
  }

  /** The References the walk makes of what it found, in order; the first failure wins. */
  function FoundReferences(ms: seq<Found>, svc: Services): (r: Result<seq<Reference>>)
    ensures r.Ok? ==> |r.value| == |ms|
  {
    MapResult(ms, m => FoundReference(m, svc))
  }

  /** The k-th Reference is the one made of the k-th found node. */
  lemma FoundReferenceAt(ms: seq<Found>, svc: Services, k: int)
    requires FoundReferences(ms, svc).Ok? && 0 <= k < |ms|
    ensures FoundReference(ms[k], svc) == Ok(FoundReferences(ms, svc).value[k])
  {
    MapResultAt(ms, m => FoundReference(m, svc), k);
  }


  /** `step.get('step_id', 'unknown')` as the f-string writes it. */
  function StepIdText(step: Dict, svc: Services): string {
    match Get(step, "step_id")
    case None => "unknown"
    case Some(v) => if IsScalar(v) then ScalarText(v) else svc.text(v)
  }

  /** The `emailData` entry of a step whose input has a `context` dict holding one. */
  function EmailData(step: Json): Option<Json> {
    if step.JObj? && HasKey(step.fields, "step_input") && Get(step.fields, "step_input").value.JObj? then
      var input := Get(step.fields, "step_input").value;
      if HasKey(input.fields, "context") && Get(input.fields, "context").value.JObj?
         && HasKey(Get(input.fields, "context").value.fields, "emailData")
      then Get(Get(input.fields, "context").value.fields, "emailData")
      else None
    else None
  }

  /** An `emailData` entry in the step input's `context` dict is an API response read by the
      step: exactly one Reference, addressed by the sorted dump of that entry. Without one the
      step yields nothing; a step without `step_input` fails the subscript. */
  function InputReference(step: Json, svc: Services): (r: Result<seq<Reference>>)
    ensures r.Ok? ==> step.JObj? && |r.value| <= 1 && forall x :: x in r.value ==>
      x.kind == "api_response" && x.sourceRef == "step_" + StepIdText(step.fields, svc) + ".emailData"
      && |x.id| == 20 && x.id[..4] == "ref_"
    ensures !(step.JObj? && HasKey(step.fields, "step_input")) ==> r.Err?
    ensures step.JObj? && HasKey(step.fields, "step_input") && EmailData(step).None? ==> r == Ok([])
    ensures EmailData(step).Some? ==>
      var content := svc.dumpsSorted(EmailData(step).value);
      && (r.Err? <==> Embedding.Embed(content, svc.embed).Err?)
      && (r.Ok? ==> |r.value| == 1 && r.value[0].id == GenerateId("ref", content, svc.sha)
                    && Embedding.Embed(content, svc.embed) == Ok(r.value[0].embedding))
  {
    var input :- Subscript(step, "step_input");
    if input.JObj? && HasKey(input.fields, "context") && Get(input.fields, "context").value.JObj?
       && HasKey(Get(input.fields, "context").value.fields, "emailData")
    then
      var data := Get(Get(input.fields, "context").value.fields, "emailData").value;
      var ref :- NewReference(svc.dumpsSorted(data), "api_response",
                              Ok("step_" + StepIdText(step.fields, svc) + ".emailData"), svc);
      Ok([ref])
    else Ok([])
  }

  /** The `data` dict of a step's output dict, when it has an `id` or a `messageId`. */
  function OutputData(step: Json): Option<Json> {
    if step.JObj? && HasKey(step.fields, "step_output") && Get(step.fields, "step_output").value.JObj? then
      var output := Get(step.fields, "step_output").value;
      if HasKey(output.fields, "data") && Get(output.fields, "data").value.JObj?
         && (HasKey(Get(output.fields, "data").value.fields, "id")
             || HasKey(Get(output.fields, "data").value.fields, "messageId"))
      then Get(output.fields, "data")
      else None
    else None
  }

  /** A `data` dict with an `id` or `messageId` in the step output is an API response too:
      exactly one Reference, addressed by the sorted dump of that dict. */
  function OutputReference(step: Json, svc: Services): (r: Result<seq<Reference>>)
    ensures r.Ok? ==> step.JObj? && |r.value| <= 1 && forall x :: x in r.value ==>
      x.kind == "api_response" && x.sourceRef == "step_" + StepIdText(step.fields, svc) + ".output_data"
      && |x.id| == 20 && x.id[..4] == "ref_"
    ensures !(step.JObj? && HasKey(step.fields, "step_output")) ==> r.Err?
    ensures step.JObj? && HasKey(step.fields, "step_output") && OutputData(step).None? ==> r == Ok([])
    ensures OutputData(step).Some? ==>
      var content := svc.dumpsSorted(OutputData(step).value);
      && (r.Err? <==> Embedding.Embed(content, svc.embed).Err?)
      && (r.Ok? ==> |r.value| == 1 && r.value[0].id == GenerateId("ref", content, svc.sha)
                    && Embedding.Embed(content, svc.embed) == Ok(r.value[0].embedding))
  {
    var output :- Subscript(step, "step_output");
    if output.JObj? && HasKey(output.fields, "data") && Get(output.fields, "data").value.JObj? then
      var data := Get(output.fields, "data").value;
      if HasKey(data.fields, "id") || HasKey(data.fields, "messageId") then
        var ref :- NewReference(svc.dumpsSorted(data), "api_response",
                                Ok("step_" + StepIdText(step.fields, svc) + ".output_data"), svc);
        Ok([ref])
      else Ok([])
    else Ok([])
  }

  /** The two places a step-based Reference can come from. */
  function StepSources(step: Dict, svc: Services): set<string> {
    {"step_" + StepIdText(step, svc) + ".emailData", "step_" + StepIdText(step, svc) + ".output_data"}
  }

  /** One step's References: from its input, then from its output. A step that is not a
      dict fails the `in` test or the subscript the way Python does. */
  function StepReferences(step: Json, svc: Services): (r: Result<seq<Reference>>)
    ensures r.Ok? ==> |r.value| <= 2
    ensures r.Ok? ==> forall x :: x in r.value ==>
      x.kind == "api_response" && step.JObj? && x.sourceRef in StepSources(step.fields, svc)
      && |x.id| == 20 && x.id[..4] == "ref_"
  {
    var hasInput :- PyIn("step_input", step);
    var fromInput :- if hasInput then InputReference(step, svc) else Ok([]);
    var hasOutput :- PyIn("step_output", step);
    var fromOutput :- if hasOutput then OutputReference(step, svc) else Ok([]);
    Ok(fromInput + fromOutput)
  }

  /** A dict step's References fail exactly when embedding its `emailData` or its output
      `data` fails. */
  lemma StepReferencesOk(step: Json, svc: Services)
    requires step.JObj?
    ensures StepReferences(step, svc).Ok? <==>
      (EmailData(step).Some? ==> Embedding.Embed(svc.dumpsSorted(EmailData(step).value), svc.embed).Ok?)
      && (OutputData(step).Some? ==> Embedding.Embed(svc.dumpsSorted(OutputData(step).value), svc.embed).Ok?)
  {
    assert PyIn("step_input", step) == Ok(HasKey(step.fields, "step_input"));
    assert PyIn("step_output", step) == Ok(HasKey(step.fields, "step_output"));
    if InputPart(step, svc).Ok? && OutputPart(step, svc).Ok? {
      assert StepReferences(step, svc).Ok?;
    } else {
      assert StepReferences(step, svc).Err?;
    }
  }

  /** A dict step yields its `emailData` Reference, if any, followed by its output `data`
      Reference, if any. */
  lemma StepReferencesParts(step: Json, svc: Services)
    requires step.JObj? && StepReferences(step, svc).Ok?
    ensures var refs := StepReferences(step, svc).value;
      && |refs| == (if EmailData(step).Some? then 1 else 0) + (if OutputData(step).Some? then 1 else 0)
      && (EmailData(step).Some? ==>
            refs[0].sourceRef == "step_" + StepIdText(step.fields, svc) + ".emailData"
            && refs[0].id == GenerateId("ref", svc.dumpsSorted(EmailData(step).value), svc.sha))
      && (OutputData(step).Some? ==>
            refs[|refs| - 1].sourceRef == "step_" + StepIdText(step.fields, svc) + ".output_data"
            && refs[|refs| - 1].id == GenerateId("ref", svc.dumpsSorted(OutputData(step).value), svc.sha))
  {
    assert PyIn("step_input", step) == Ok(HasKey(step.fields, "step_input"));
    assert PyIn("step_output", step) == Ok(HasKey(step.fields, "step_output"));
    var a, b := InputPart(step, svc).value, OutputPart(step, svc).value;
    assert StepReferences(step, svc) == Ok(a + b);
    assert EmailData(step).Some? ==> (a + b)[0] == a[0];
    assert OutputData(step).Some? ==> (a + b)[|a + b| - 1] == b[0];
  }

  /** What `StepReferences` takes from a dict step's input. */
  function InputPart(step: Json, svc: Services): (r: Result<seq<Reference>>)
    requires step.JObj?
    ensures r.Ok? <==> (EmailData(step).Some? ==> Embedding.Embed(svc.dumpsSorted(EmailData(step).value), svc.embed).Ok?)
    ensures r.Ok? ==> |r.value| == if EmailData(step).Some? then 1 else 0
    ensures r.Ok? && EmailData(step).Some? ==>
      r.value[0].sourceRef == "step_" + StepIdText(step.fields, svc) + ".emailData"
      && r.value[0].id == GenerateId("ref", svc.dumpsSorted(EmailData(step).value), svc.sha)
  {
    if HasKey(step.fields, "step_input") then InputReference(step, svc) else Ok([])
  }

  /** What `StepReferences` takes from a dict step's output. */
  function OutputPart(step: Json, svc: Services): (r: Result<seq<Reference>>)
    requires step.JObj?
    ensures r.Ok? <==> (OutputData(step).Some? ==> Embedding.Embed(svc.dumpsSorted(OutputData(step).value), svc.embed).Ok?)
    ensures r.Ok? ==> |r.value| == if OutputData(step).Some? then 1 else 0
    ensures r.Ok? && OutputData(step).Some? ==>
      r.value[0].sourceRef == "step_" + StepIdText(step.fields, svc) + ".output_data"
      && r.value[0].id == GenerateId("ref", svc.dumpsSorted(OutputData(step).value), svc.sha)
  {
    if HasKey(step.fields, "step_output") then OutputReference(step, svc) else Ok([])
  }

  /** Every step's References, step after step, or the first step's error. */
  function StepsReferences(steps: seq<Json>, svc: Services): Result<seq<Reference>> {
    FlatMapResult(steps, step => StepReferences(step, svc))
  }

  /** `run_tree["steps"]` when it is there and is a list. */
  function TreeSteps(tree: Dict): (r: Option<seq<Json>>)
    ensures r.Some? <==> HasKey(tree, "steps") && Get(tree, "steps").value.JList?
    ensures r.Some? ==> Get(tree, "steps") == Some(JList(r.value))
  {
    if HasKey(tree, "steps") && Get(tree, "steps").value.JList? then Some(Get(tree, "steps").value.items) else None
  }

  /** What the rules over `run_tree["steps"]` give: nothing when there is no list of steps. */
  function ReferencesOfSteps(tree: Dict, svc: Services): Result<seq<Reference>> {
    match TreeSteps(tree)
    case Some(steps) => StepsReferences(steps, svc)
    case None => Ok([])
  }

  /** `_extract_references`: the step rules first; the walk over the whole log only when
      they found nothing. */
  function ReferencesSpec(tree: Dict, svc: Services): Result<seq<Reference>> {
    match ReferencesOfSteps(tree, svc)
    case Err(e) => Err(e)
    case Ok(fromSteps) =>
      if fromSteps != [] then Ok(fromSteps)
      else FoundReferences(FoundIn(JObj(tree), "", ReferenceKinds), svc)
  }

  method ReferencesFromSteps(steps: seq<Json>, svc: Services) returns (r: Result<seq<Reference>>)
    ensures r == StepsReferences(steps, svc)
  {
    var refs: seq<Reference> := [];
    var i := 0;
    assert steps[0..] == steps;
    PrependNothing(StepsReferences(steps, svc));
    while i < |steps|
      invariant 0 <= i <= |steps|
      invariant StepsReferences(steps, svc) == Prepend(refs, StepsReferences(steps[i..], svc))
    {
      assert steps[i..][0] == steps[i] && steps[i..][1..] == steps[i + 1..];
      var more := StepReferences(steps[i], svc);
      if more.Err? {
        return Err(more.message);
      }
      PrependTwice(refs, more.value, StepsReferences(steps[i + 1..], svc));
      refs := refs + more.value;
      i := i + 1;
    }
    assert steps[i..] == [];
    assert refs + [] == refs;
    return Ok(refs);
  }

  method ReferencesFromFound(ms: seq<Found>, svc: Services) returns (r: Result<seq<Reference>>)
    ensures r == FoundReferences(ms, svc)
  {
    var refs: seq<Reference> := [];
    var i := 0;
    assert ms[0..] == ms;
    PrependNothing(FoundReferences(ms, svc));
    while i < |ms|
      invariant 0 <= i <= |ms|
      invariant FoundReferences(ms, svc) == Prepend(refs, FoundReferences(ms[i..], svc))
    {
      assert ms[i..][0] == ms[i] && ms[i..][1..] == ms[i + 1..];
      var ref := FoundReference(ms[i], svc);
      if ref.Err? {
        return Err(ref.message);
      }
      PrependTwice(refs, [ref.value], FoundReferences(ms[i + 1..], svc));
      refs := refs + [ref.value];
      i := i + 1;
    }
    assert ms[i..] == [];
    assert refs + [] == refs;
    return Ok(refs);
  }

  /** `_extract_references`. */
  method ExtractReferences(tree: Dict, svc: Services) returns (r: Result<seq<Reference>>)
    ensures r == ReferencesSpec(tree, svc)
  {
    var steps := TreeSteps(tree);
    var fromSteps: Result<seq<Reference>> := Ok([]);
    if steps.Some? {
      fromSteps := ReferencesFromSteps(steps.value, svc);
    }
    assert fromSteps == ReferencesOfSteps(tree, svc);
    if fromSteps.Err? || fromSteps.value != [] {
      return fromSteps;
    }
    var found := Traverse(JObj(tree), "", ReferenceKinds, []);
    assert found == FoundIn(JObj(tree), "", ReferenceKinds);
    r := ReferencesFromFound(found, svc);
  }

  // ---------------------------------------------------------------- artifacts

  /** The artifact type an `llm_call` step's name implies. A name that is not a string
      has no `lower()`. */
  function ArtifactKind(name: Json): (r: Result<string>)
    ensures r.Ok? <==> name.JStr?
    ensures r.Ok? ==> r.value in ArtifactKinds - {"schema"}
    ensures name.JStr? ==> var l := Lower(name.s);
      && (Contains(l, "summary") ==> r == Ok("report"))
      && (!Contains(l, "summary") && (Contains(l, "reply") || Contains(l, "generate")) ==> r == Ok("code"))
      && (r == Ok("plan") <==>
            Contains(l, "reasoning") && !Contains(l, "summary") && !Contains(l, "reply") && !Contains(l, "generate"))
  {
    match name
    case JStr(s) =>
      var l := Lower(s);
      if Contains(l, "summary") then Ok("report")
      else if Contains(l, "reply") || Contains(l, "generate") then Ok("code")
      else if Contains(l, "reasoning") then Ok("plan")
      else Ok("report")
    case _ => Err("'" + TypeName(name) + "' object has no attribute 'lower'")
  }

  /** The name's case does not matter. */
  lemma ArtifactKindIgnoresCase(s: string)
    ensures ArtifactKind(JStr(Upper(s))) == ArtifactKind(JStr(s))
  {
    LowerOfUpper(s);
  }

  /** Every artifact is of a known kind and is addressed by its own hash. */
  predicate WellMade(arts: seq<Artifact>) {
    forall x :: x in arts ==> x.kind in ArtifactKinds && x.id == "artifact_" + x.hash[..16]
  }

  /** `step.get("step_name", "")`, the name an `llm_call` step's artifact is typed by. */
  function StepName(step: Dict): Json {
    Get(step, "step_name").GetOr(JStr(""))
  }

  /** The `data` of an `llm_call` step whose output is a dict holding one. */
  function LlmData(step: Dict): Option<Json> {
    var output := Get(step, "step_output").GetOr(JObj([]));
    if Get(step, "step_type").GetOr(JStr("")) == JStr("llm_call") && output.JObj? && HasKey(output.fields, "data")
    then Get(output.fields, "data")
    else None
  }

  /** An `llm_call` step whose dict output has `data` produced that data: exactly one
      Artifact, hashed from the sorted dump of the data and typed by the step's name.
      Any other step yields nothing from its output. */
  function OutputArtifact(step: Dict, svc: Services): (r: Result<seq<Artifact>>)
    ensures r.Ok? ==> |r.value| <= 1 && WellMade(r.value)
    ensures LlmData(step).None? ==> r == Ok([])
    ensures LlmData(step).Some? ==>
      var content := svc.dumpsSorted(LlmData(step).value);
      && (r.Err? <==> Embedding.Embed(content, svc.embed).Err? || ArtifactKind(StepName(step)).Err?)
      && (r.Ok? ==> |r.value| == 1 && Ok(r.value[0].kind) == ArtifactKind(StepName(step))
                    && r.value[0].hash == svc.sha(content))
  {
    var name := Get(step, "step_name").GetOr(JStr(""));
    var kind := Get(step, "step_type").GetOr(JStr(""));
    var output := Get(step, "step_output").GetOr(JObj([]));
    if kind == JStr("llm_call") && output.JObj? && HasKey(output.fields, "data") then
      var art :- NewArtifact(svc.dumpsSorted(Get(output.fields, "data").value), ArtifactKind(name), svc);
      Ok([art])
    else Ok([])
  }

  /** A step's input dict, when it holds a `reply` or a `summary`. */
  function GeneratedInput(step: Dict): Option<Json> {
    if HasKey(step, "step_input") && Get(step, "step_input").value.JObj?
       && (HasKey(Get(step, "step_input").value.fields, "reply") || HasKey(Get(step, "step_input").value.fields, "summary"))
    then Get(step, "step_input")
    else None
  }

  /** A step input holding a `reply` or a `summary` is content an earlier step generated:
      exactly one report Artifact, hashed from the sorted dump of the whole input. */
  function InputArtifact(step: Dict, svc: Services): (r: Result<seq<Artifact>>)
    ensures r.Ok? ==> |r.value| <= 1 && WellMade(r.value) && forall a :: a in r.value ==> a.kind == "report"
    ensures GeneratedInput(step).None? ==> r == Ok([])
    ensures GeneratedInput(step).Some? ==>
      var content := svc.dumpsSorted(GeneratedInput(step).value);
      && (r.Err? <==> Embedding.Embed(content, svc.embed).Err?)
      && (r.Ok? ==> |r.value| == 1 && r.value[0].hash == svc.sha(content))
  {
    if HasKey(step, "step_input") && Get(step, "step_input").value.JObj? then
      var input := Get(step, "step_input").value;
      if HasKey(input.fields, "reply") || HasKey(input.fields, "summary") then
        var art :- NewArtifact(svc.dumpsSorted(input), Ok("report"), svc);
        Ok([art])
      else Ok([])
    else Ok([])
  }

  /** One step's Artifacts: from its output, then from its input. `step.get` fails on a
      step that is not a dict. */
  function StepArtifacts(step: Json, svc: Services): (r: Result<seq<Artifact>>)
    ensures !step.JObj? ==> r == Err("'" + TypeName(step) + "' object has no attribute 'get'")
    ensures r.Ok? ==> |r.value| <= 2 && WellMade(r.value)
    ensures step.JObj? ==>
      && (r.Ok? <==> OutputArtifact(step.fields, svc).Ok? && InputArtifact(step.fields, svc).Ok?)
      && (r.Ok? ==> r.value == OutputArtifact(step.fields, svc).value + InputArtifact(step.fields, svc).value)
  {
    if !step.JObj? then Err("'" + TypeName(step) + "' object has no attribute 'get'")
    else
      var fromOutput :- OutputArtifact(step.fields, svc);
      var fromInput :- InputArtifact(step.fields, svc);
      Ok(fromOutput + fromInput)
  }

  /** Every step's Artifacts, step after step, or the first step's error. */
  function StepsArtifacts(steps: seq<Json>, svc: Services): Result<seq<Artifact>> {
    FlatMapResult(steps, step => StepArtifacts(step, svc))
  }

  function FoundArtifact(m: Found, svc: Services): Result<Artifact> {
    NewArtifact(svc.dumpsSorted(JObj(m.node)), Ok(m.kind), svc)
  }

  function FoundArtifacts(ms: seq<Found>, svc: Services): (r: Result<seq<Artifact>>)
    ensures r.Ok? ==> |r.value| == |ms|
  {
    MapResult(ms, m => FoundArtifact(m, svc))
  }

  /** The k-th Artifact is the one made of the k-th found node. */
  lemma FoundArtifactAt(ms: seq<Found>, svc: Services, k: int)
    requires FoundArtifacts(ms, svc).Ok? && 0 <= k < |ms|
    ensures FoundArtifact(ms[k], svc) == Ok(FoundArtifacts(ms, svc).value[k])
  {
    MapResultAt(ms, m => FoundArtifact(m, svc), k);
  }


  /** What the rules over `run_tree["steps"]` give: nothing when there is no list of steps. */
  function ArtifactsOfSteps(tree: Dict, svc: Services): Result<seq<Artifact>> {
    match TreeSteps(tree)
    case Some(steps) => StepsArtifacts(steps, svc)
    case None => Ok([])
  }

  /** `_extract_artifacts`: the step rules first; the walk only when they found nothing. */
  function ArtifactsSpec(tree: Dict, svc: Services): Result<seq<Artifact>> {
    match ArtifactsOfSteps(tree, svc)
    case Err(e) => Err(e)
    case Ok(fromSteps) =>
      if fromSteps != [] then Ok(fromSteps)
      else FoundArtifacts(FoundIn(JObj(tree), "", ArtifactKinds), svc)
  }

  method ArtifactsFromSteps(steps: seq<Json>, svc: Services) returns (r: Result<seq<Artifact>>)
    ensures r == StepsArtifacts(steps, svc)
  {
    var arts: seq<Artifact> := [];
    var i := 0;
    assert steps[0..] == steps;
    PrependNothing(StepsArtifacts(steps, svc));
    while i < |steps|
      invariant 0 <= i <= |steps|
      invariant StepsArtifacts(steps, svc) == Prepend(arts, StepsArtifacts(steps[i..], svc))
    {
      assert steps[i..][0] == steps[i] && steps[i..][1..] == steps[i + 1..];
      var more := StepArtifacts(steps[i], svc);
      if more.Err? {
        return Err(more.message);
      }
      PrependTwice(arts, more.value, StepsArtifacts(steps[i + 1..], svc));
      arts := arts + more.value;
      i := i + 1;
    }
    assert steps[i..] == [];
    assert arts + [] == arts;
    return Ok(arts);
  }

  method ArtifactsFromFound(ms: seq<Found>, svc: Services) returns (r: Result<seq<Artifact>>)
    ensures r == FoundArtifacts(ms, svc)
  {
    var arts: seq<Artifact> := [];
    var i := 0;
    assert ms[0..] == ms;
    PrependNothing(FoundArtifacts(ms, svc));
    while i < |ms|
      invariant 0 <= i <= |ms|
      invariant FoundArtifacts(ms, svc) == Prepend(arts, FoundArtifacts(ms[i..], svc))
    {
      assert ms[i..][0] == ms[i] && ms[i..][1..] == ms[i + 1..];
      var art := FoundArtifact(ms[i], svc);
      if art.Err? {
        return Err(art.message);
      }
      PrependTwice(arts, [art.value], FoundArtifacts(ms[i + 1..], svc));
      arts := arts + [art.value];
      i := i + 1;
    }
    assert ms[i..] == [];
    assert arts + [] == arts;
    return Ok(arts);
  }

  /** `_extract_artifacts`. */
  method ExtractArtifacts(tree: Dict, svc: Services) returns (r: Result<seq<Artifact>>)
    ensures r == ArtifactsSpec(tree, svc)
  {
    var steps := TreeSteps(tree);
    var fromSteps: Result<seq<Artifact>> := Ok([]);
    if steps.Some? {
      fromSteps := ArtifactsFromSteps(steps.value, svc);
    }
    assert fromSteps == ArtifactsOfSteps(tree, svc);
    if fromSteps.Err? || fromSteps.value != [] {
      return fromSteps;
    }
    var found := Traverse(JObj(tree), "", ArtifactKinds, []);
    assert found == FoundIn(JObj(tree), "", ArtifactKinds);
    r := ArtifactsFromFound(found, svc);
  }

  // ---------------------------------------------------------------- what extraction guarantees

  lemma {:induction false} StepsReferencesFromSteps(steps: seq<Json>, svc: Services)
    ensures StepsReferences(steps, svc).Ok? ==> forall x :: x in StepsReferences(steps, svc).value ==>
      && x.kind == "api_response" && |x.id| == 20 && x.id[..4] == "ref_"
      && exists j :: 0 <= j < |steps| && steps[j].JObj? && x.sourceRef in StepSources(steps[j].fields, svc)
  {
    if steps != [] {
      StepsReferencesFromSteps(steps[1..], svc);
      var r := StepsReferences(steps, svc);
      if r.Ok? {
        var first := StepReferences(steps[0], svc).value;
        var rest := StepsReferences(steps[1..], svc).value;
        assert r.value == first + rest;
        forall x | x in r.value
          ensures x.kind == "api_response" && |x.id| == 20 && x.id[..4] == "ref_"
          ensures exists j :: 0 <= j < |steps| && steps[j].JObj? && x.sourceRef in StepSources(steps[j].fields, svc)
        {
          if x in first {
            assert steps[0].JObj? && x.sourceRef in StepSources(steps[0].fields, svc);
          } else {
            assert x in rest;
            var j :| 0 <= j < |steps[1..]| && steps[1..][j].JObj? && x.sourceRef in StepSources(steps[1..][j].fields, svc);
            assert steps[j + 1] == steps[1..][j];
          }
        }
      }
    }
  }

  /** Every Reference is an API response read by a step, or a dict of a reference kind
      found by the walk, whose `source` (else its path) is the Reference's source. */
  lemma ReferencesProperties(tree: Dict, svc: Services)
    requires ReferencesSpec(tree, svc).Ok?
    ensures forall x :: x in ReferencesSpec(tree, svc).value ==>
      x.kind in ReferenceKinds && |x.id| == 20 && x.id[..4] == "ref_"
    ensures ReferencesOfSteps(tree, svc) != Ok([]) ==>
      ReferencesOfSteps(tree, svc) == ReferencesSpec(tree, svc)
      && TreeSteps(tree).Some?
      && forall x :: x in ReferencesSpec(tree, svc).value ==>
        && x.kind == "api_response"
        && exists j :: 0 <= j < |TreeSteps(tree).value| &&
             TreeSteps(tree).value[j].JObj? && x.sourceRef in StepSources(TreeSteps(tree).value[j].fields, svc)
    ensures ReferencesOfSteps(tree, svc) == Ok([]) ==>
      var found := FoundIn(JObj(tree), "", ReferenceKinds);
      var refs := ReferencesSpec(tree, svc).value;
      |refs| == |found| && forall k :: 0 <= k < |found| ==>
        refs[k].kind == found[k].kind && Get(found[k].node, "type") == Some(JStr(refs[k].kind))
        && SourceRef(found[k]) == Ok(refs[k].sourceRef)
  {
    if ReferencesOfSteps(tree, svc) != Ok([]) {
      StepReferencesProperties(tree, svc);
    } else {
      FallbackReferencesProperties(tree, svc);
    }
  }

  /** What one step of the list yields is part of what the whole list yields. */
  lemma StepsReferencesInclude(steps: seq<Json>, svc: Services, k: int)
    requires StepsReferences(steps, svc).Ok? && 0 <= k < |steps|
    ensures StepReferences(steps[k], svc).Ok?
    ensures forall x :: x in StepReferences(steps[k], svc).value ==> x in StepsReferences(steps, svc).value
  {
    FlatMapResultIncludes(steps, step => StepReferences(step, svc), k);
  }

  /** A step whose input context holds `emailData` is never lost: the extracted References
      include one addressed by the dump of that data. */
  lemma EmailStepYieldsReference(tree: Dict, svc: Services, k: int)
    requires ReferencesSpec(tree, svc).Ok? && TreeSteps(tree).Some?
    requires 0 <= k < |TreeSteps(tree).value| && EmailData(TreeSteps(tree).value[k]).Some?
    ensures var step := TreeSteps(tree).value[k];
      exists x :: x in ReferencesSpec(tree, svc).value && x.kind == "api_response"
        && x.id == GenerateId("ref", svc.dumpsSorted(EmailData(step).value), svc.sha)
        && x.sourceRef == "step_" + StepIdText(step.fields, svc) + ".emailData"
  {
    var steps := TreeSteps(tree).value;
    StepsReferencesInclude(steps, svc, k);
    StepReferencesParts(steps[k], svc);
    var x := StepReferences(steps[k], svc).value[0];
    assert x in StepReferences(steps[k], svc).value;
    assert ReferencesSpec(tree, svc) == StepsReferences(steps, svc);
  }

  lemma StepReferencesProperties(tree: Dict, svc: Services)
    requires ReferencesSpec(tree, svc).Ok? && ReferencesOfSteps(tree, svc) != Ok([])
    ensures ReferencesOfSteps(tree, svc) == ReferencesSpec(tree, svc) && TreeSteps(tree).Some?
    ensures forall x :: x in ReferencesSpec(tree, svc).value ==>
      && x.kind == "api_response" && |x.id| == 20 && x.id[..4] == "ref_"
      && exists j :: 0 <= j < |TreeSteps(tree).value| &&
           TreeSteps(tree).value[j].JObj? && x.sourceRef in StepSources(TreeSteps(tree).value[j].fields, svc)
  {
    StepsReferencesFromSteps(TreeSteps(tree).value, svc);
  }

  lemma FallbackReferencesProperties(tree: Dict, svc: Services)
    requires ReferencesSpec(tree, svc).Ok? && ReferencesOfSteps(tree, svc) == Ok([])
    ensures var found := FoundIn(JObj(tree), "", ReferenceKinds);
      var refs := ReferencesSpec(tree, svc).value;
      && |refs| == |found|
      && (forall k :: 0 <= k < |found| ==>
            refs[k].kind == found[k].kind && Get(found[k].node, "type") == Some(JStr(refs[k].kind))
            && SourceRef(found[k]) == Ok(refs[k].sourceRef))
      && forall x :: x in refs ==> x.kind in ReferenceKinds && |x.id| == 20 && x.id[..4] == "ref_"
  {
    var refs := ReferencesSpec(tree, svc).value;
    var found := FoundIn(JObj(tree), "", ReferenceKinds);
    assert FoundReferences(found, svc) == Ok(refs);
    FoundInKinds(JObj(tree), "", ReferenceKinds);
    forall k | 0 <= k < |found|
      ensures refs[k].kind == found[k].kind && SourceRef(found[k]) == Ok(refs[k].sourceRef)
      ensures refs[k].kind in ReferenceKinds && |refs[k].id| == 20 && refs[k].id[..4] == "ref_"
    {
      var m := found[k];
      FoundReferenceAt(found, svc, k);
      assert m in found;
    }
  }

  lemma {:induction false} StepsArtifactsWellMade(steps: seq<Json>, svc: Services)
    ensures StepsArtifacts(steps, svc).Ok? ==> WellMade(StepsArtifacts(steps, svc).value)
  {
    if steps != [] {
      StepsArtifactsWellMade(steps[1..], svc);
    }
  }

  lemma {:induction false} FoundArtifactsWellMade(ms: seq<Found>, kinds: set<string>, svc: Services)
    requires OfKinds(ms, kinds) && kinds <= ArtifactKinds
    ensures FoundArtifacts(ms, svc).Ok? ==> WellMade(FoundArtifacts(ms, svc).value)
  {
    if ms != [] {
      FoundArtifactsWellMade(ms[1..], kinds, svc);
      assert ms[0] in ms;
    }
  }

  /** What one step of the list yields is part of what the whole list yields. */
  lemma StepsArtifactsInclude(steps: seq<Json>, svc: Services, k: int)
    requires StepsArtifacts(steps, svc).Ok? && 0 <= k < |steps|
    ensures StepArtifacts(steps[k], svc).Ok?
    ensures forall a :: a in StepArtifacts(steps[k], svc).value ==> a in StepsArtifacts(steps, svc).value
  {
    FlatMapResultIncludes(steps, step => StepArtifacts(step, svc), k);
  }

  /** An `llm_call` step with output `data` is never lost: the extracted Artifacts include
      one hashed from that data and typed by the step's name. */
  lemma LlmStepYieldsArtifact(tree: Dict, svc: Services, k: int)
    requires ArtifactsSpec(tree, svc).Ok? && TreeSteps(tree).Some?
    requires 0 <= k < |TreeSteps(tree).value| && TreeSteps(tree).value[k].JObj?
    requires LlmData(TreeSteps(tree).value[k].fields).Some?
    ensures var step := TreeSteps(tree).value[k].fields;
      exists a :: a in ArtifactsSpec(tree, svc).value && Ok(a.kind) == ArtifactKind(StepName(step))
        && a.hash == svc.sha(svc.dumpsSorted(LlmData(step).value))
  {
    var steps := TreeSteps(tree).value;
    StepsArtifactsInclude(steps, svc, k);
    var a := OutputArtifact(steps[k].fields, svc).value[0];
    assert a in StepArtifacts(steps[k], svc).value;
    assert ArtifactsSpec(tree, svc) == StepsArtifacts(steps, svc);
  }

  /** Every Artifact is of one of the four artifact kinds, and its id is "artifact_"
      followed by the first 16 hex digits of its own hash. */
  lemma ArtifactsProperties(tree: Dict, svc: Services)
    requires ArtifactsSpec(tree, svc).Ok?
    ensures WellMade(ArtifactsSpec(tree, svc).value)
    ensures ArtifactsOfSteps(tree, svc) != Ok([]) ==> ArtifactsOfSteps(tree, svc) == ArtifactsSpec(tree, svc)
    ensures ArtifactsOfSteps(tree, svc) == Ok([]) ==>
      |ArtifactsSpec(tree, svc).value| == |FoundIn(JObj(tree), "", ArtifactKinds)|
  {
    if ArtifactsOfSteps(tree, svc) != Ok([]) {
      StepsArtifactsWellMade(TreeSteps(tree).value, svc);
    } else {
      FoundInKinds(JObj(tree), "", ArtifactKinds);
      FoundArtifactsWellMade(FoundIn(JObj(tree), "", ArtifactKinds), ArtifactKinds, svc);
    }
  }
}
