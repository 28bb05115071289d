/** The deterministic parts of the LLM service (services/llm.py): the rendering of a run
    tree into the summarisation prompt, the Gemini model-name prefix, and how
    `make_decision` reports what the provider did. The provider itself is not modelled. */
module Llm {
  import opened Wrappers
  import opened Strs
  import opened Json

  /** `"  " * n`. */
  function Indent(n: nat): (r: string)
    ensures |r| == 2 * n && forall i :: 0 <= i < |r| ==> r[i] == ' '
  {
    if n == 0 then "" else "  " + Indent(n - 1)
  }

  /** A scalar value as the prompt shows it: kept when at most 200 characters long,
      otherwise its first 200 characters followed by "...". */
  function Clip(text: string): (r: string)
    ensures |text| <= 200 ==> r == text
    ensures |text| > 200 ==> |r| == 203 && StartsWith(r, text[..200]) && EndsWith(r, "...")
  {
    if |text| > 200 then text[..200] + "..." else text
  }

  /** The outcome of rendering `rest` after the lines `done` were already produced. */
  function Then(done: seq<string>, rest: Result<seq<string>>): Result<seq<string>> {
    match rest
    case Ok(more) => Ok(done + more)
    case Err(m) => Err(m)
  }

  lemma ThenNothing(rest: Result<seq<string>>)
    ensures Then([], rest) == rest
  {
    if rest.Ok? {
      assert [] + rest.value == rest.value;
    }
  }

  lemma ThenThen(a: seq<string>, b: seq<string>, rest: Result<seq<string>>)
    ensures Then(a, Then(b, rest)) == Then(a + b, rest)
  {
    if rest.Ok? {
      assert a + (b + rest.value) == (a + b) + rest.value;
    }
  }

  /** `_format_run_tree(d, indent)`: the lines of every item of `d`, joined by newlines.
      Fails as Python does when a listed item to expand is not a dict. */
  function Render(d: Dict, indent: nat): Result<string>
    decreases JObj(d), 1, 0
  {
    var lines :- RenderItems(d, 0, indent);
    Ok(Join(lines, "\n"))
  }

  /** The lines of the items of `d` from position `i` on. */
  function RenderItems(d: Dict, i: nat, indent: nat): Result<seq<string>>
    decreases JObj(d), 0, if i <= |d| then |d| - i else 0
  {
    if i >= |d| then Ok([])
    else
      var block :- RenderItem(d[i].0, d[i].1, indent);
      Then(block, RenderItems(d, i + 1, indent))
  }

  /** The lines of one `key: value` item: a dict opens a nested block one level deeper,
      a list shows its length and expands up to three dict items two levels deeper,
      anything else shows its clipped text. */
  function RenderItem(key: string, value: Json, indent: nat): Result<seq<string>>
    decreases value, 2, 0
  {
    match value
    case JObj(fs) =>
      var inner :- Render(fs, indent + 1);
      Ok([Indent(indent) + key + ":", inner])
    case JList(xs) =>
      var head := Indent(indent) + key + ": [list with " + NatToString(|xs|) + " items]";
      if xs != [] && xs[0].JObj? then Then([head], RenderListItems(xs, 0, indent)) else Ok([head])
    case _ => Ok([Indent(indent) + key + ": " + Clip(ScalarText(value))])
  }

  /** The expansion of the items of `value[:3]` from position `i` on. */
  function RenderListItems(xs: seq<Json>, i: nat, indent: nat): Result<seq<string>>
    decreases JList(xs), 1, if i <= |xs| then |xs| - i else 0
  {
    if i >= |xs| || i >= 3 then Ok([])
    else match xs[i]
      case JObj(fs) =>
        var inner :- Render(fs, indent + 2);
        Then([Indent(indent) + "  [" + NatToString(i) + "]:", inner], RenderListItems(xs, i + 1, indent))
      case _ => Err("'" + TypeName(xs[i]) + "' object has no attribute 'items'")
  }

  /** `_format_run_tree`, appending to a list of lines item by item and recursing into nested dicts. */
  method FormatRunTree(runTree: Dict, indent: nat) returns (r: Result<string>)
    decreases JObj(runTree)
    ensures r == Render(runTree, indent)
  {
    var lines: seq<string> := [];
    var prefix := Indent(indent);
    ThenNothing(RenderItems(runTree, 0, indent));
    var i := 0;
    while i < |runTree|
      invariant 0 <= i <= |runTree|
      invariant RenderItems(runTree, 0, indent) == Then(lines, RenderItems(runTree, i, indent))
    {
      var key, value := runTree[i].0, runTree[i].1;
      var block: seq<string>;
      match value {
        case JObj(fs) =>
          var inner := FormatRunTree(fs, indent + 1);
          if inner.Err? {
            return Err(inner.message);
          }
          block := [prefix + key + ":", inner.value];
        case JList(xs) =>
          block := [prefix + key + ": [list with " + NatToString(|xs|) + " items]"];
          if xs != [] && xs[0].JObj? {
            var expanded := ExpandItems(xs, indent);
            if expanded.Err? {
              return Err(expanded.message);
            }
            block := block + expanded.value;
          }
        case _ =>
          block := [prefix + key + ": " + Clip(ScalarText(value))];
      }
      assert RenderItem(key, value, indent) == Ok(block);
      ThenThen(lines, block, RenderItems(runTree, i + 1, indent));
      lines := lines + block;
      i := i + 1;
    }
    assert lines + [] == lines;
    return Ok(Join(lines, "\n"));
  }

  /** The loop over `enumerate(value[:3])` of `_format_run_tree`. */
  method ExpandItems(xs: seq<Json>, indent: nat) returns (r: Result<seq<string>>)
    decreases JList(xs)
    ensures r == RenderListItems(xs, 0, indent)
  {
    var lines: seq<string> := [];
    var j := 0;
    ThenNothing(RenderListItems(xs, 0, indent));
    while j < |xs| && j < 3
      invariant 0 <= j <= |xs|
      invariant RenderListItems(xs, 0, indent) == Then(lines, RenderListItems(xs, j, indent))
    {
      match xs[j] {
        case JObj(fs) =>
          var inner := FormatRunTree(fs, indent + 2);
          if inner.Err? {
            return Err(inner.message);
          }
          var two := [Indent(indent) + "  [" + NatToString(j) + "]:", inner.value];
          ThenThen(lines, two, RenderListItems(xs, j + 1, indent));
          lines := lines + two;
        case _ =>
          return Err("'" + TypeName(xs[j]) + "' object has no attribute 'items'");
      }
      j := j + 1;
    }
    assert lines + [] == lines;
    return Ok(lines);
  }

  /** A run tree renders unless some list that gets expanded (its first item is a dict)
      has an item that is not a dict among its first three. */
  predicate Renderable(j: Json)
    decreases j
  {
    match j
    case JObj(fs) => forall i :: 0 <= i < |fs| ==> Renderable(fs[i].1)
    case JList(xs) =>
      xs != [] && xs[0].JObj? ==> forall k :: 0 <= k < |xs| && k < 3 ==> xs[k].JObj? && Renderable(xs[k])
    case _ => true
  }

  /** Rendering fails exactly on the trees that are not renderable. */
  lemma {:induction false} RenderOkIff(d: Dict, indent: nat)
    decreases JObj(d), 1, 0
    ensures Render(d, indent).Ok? <==> Renderable(JObj(d))
  {
    ItemsOkIff(d, 0, indent);
  }

  lemma {:induction false} ItemsOkIff(d: Dict, i: nat, indent: nat)
    requires i <= |d|
    decreases JObj(d), 0, |d| - i
    ensures RenderItems(d, i, indent).Ok? <==> forall k :: i <= k < |d| ==> Renderable(d[k].1)
  {
    if i < |d| {
      ItemOkIff(d[i].0, d[i].1, indent);
      ItemsOkIff(d, i + 1, indent);
    }
  }

  lemma {:induction false} ItemOkIff(key: string, value: Json, indent: nat)
    decreases value, 2, 0
    ensures RenderItem(key, value, indent).Ok? <==> Renderable(value)
  {
    match value
    case JObj(fs) => RenderOkIff(fs, indent + 1);
    case JList(xs) =>
      if xs != [] && xs[0].JObj? {
        ListOkIff(xs, 0, indent);
      }
    case _ =>
  }

  lemma {:induction false} ListOkIff(xs: seq<Json>, i: nat, indent: nat)
    requires i <= |xs|
    decreases JList(xs), 1, |xs| - i
    ensures RenderListItems(xs, i, indent).Ok? <==> forall k :: i <= k < |xs| && k < 3 ==> xs[k].JObj? && Renderable(xs[k])
  {
    if i < |xs| && i < 3 {
      match xs[i]
      case JObj(fs) =>
        RenderOkIff(fs, indent + 2);
        ListOkIff(xs, i + 1, indent);
      case _ =>
    }
  }

  /** The lines of `a` followed by those of `b`, failing with the first failure. */
  function Concat(a: Result<seq<string>>, b: Result<seq<string>>): Result<seq<string>> {
    match a
    case Ok(x) => Then(x, b)
    case Err(m) => Err(m)
  }

  /** Items render one after another in insertion order: the lines of `d1 + d2` are
      the lines of `d1` followed by the lines of `d2`. */
  lemma {:induction false} RenderAppend(d1: Dict, d2: Dict, indent: nat)
    ensures RenderItems(d1 + d2, 0, indent) == Concat(RenderItems(d1, 0, indent), RenderItems(d2, 0, indent))
  {
    AppendFrom(d1, d2, 0, indent);
  }

  lemma {:induction false} AppendFrom(d1: Dict, d2: Dict, i: nat, indent: nat)
    requires i <= |d1|
    decreases |d1| - i
    ensures RenderItems(d1 + d2, i, indent) == Concat(RenderItems(d1, i, indent), RenderItems(d2, 0, indent))
  {
    if i == |d1| {
      Shifted(d1, d2, 0, indent);
      ThenNothing(RenderItems(d2, 0, indent));
    } else {
      assert (d1 + d2)[i] == d1[i];
      AppendFrom(d1, d2, i + 1, indent);
      var block := RenderItem(d1[i].0, d1[i].1, indent);
      if block.Ok? && RenderItems(d1, i + 1, indent).Ok? {
        ThenThen(block.value, RenderItems(d1, i + 1, indent).value, RenderItems(d2, 0, indent));
      }
    }
  }

  lemma {:induction false} Shifted(d1: Dict, d2: Dict, k: nat, indent: nat)
    requires k <= |d2|
    decreases |d2| - k
    ensures RenderItems(d1 + d2, |d1| + k, indent) == RenderItems(d2, k, indent)
  {
    if k < |d2| {
      assert (d1 + d2)[|d1| + k] == d2[k];
      Shifted(d1, d2, k + 1, indent);
    }
  }

  /** One scalar item renders as the single line "key: text". */
  lemma ScalarItem(key: string, value: Json, indent: nat)
    requires IsScalar(value)
    ensures Render([(key, value)], indent) == Ok(Indent(indent) + key + ": " + Clip(ScalarText(value)))
  {
    var line := Indent(indent) + key + ": " + Clip(ScalarText(value));
    var d := [(key, value)];
    assert d[0].0 == key && d[0].1 == value;
    assert RenderItem(key, value, indent) == Ok([line]);
    assert RenderItems(d, 1, indent) == Ok([]);
    assert [line] + [] == [line];
    assert RenderItems(d, 0, indent) == Ok([line]);
  }

  /** One dict item renders as the line "key:" followed by the nested dict's rendering
      one level deeper, and fails when that rendering fails. */
  lemma DictItem(key: string, fs: Dict, indent: nat)
    ensures Render(fs, indent + 1).Ok? ==>
      Render([(key, JObj(fs))], indent) == Ok(Indent(indent) + key + ":" + "\n" + Render(fs, indent + 1).value)
    ensures Render(fs, indent + 1).Err? ==> Render([(key, JObj(fs))], indent).Err?
  {
    var d := [(key, JObj(fs))];
    assert d[0].0 == key && d[0].1 == JObj(fs);
    assert RenderItems(d, 1, indent) == Ok([]);
    var inner := Render(fs, indent + 1);
    if inner.Ok? {
      var lines := [Indent(indent) + key + ":", inner.value];
      assert RenderItem(key, JObj(fs), indent) == Ok(lines);
      assert lines + [] == lines;
      assert RenderItems(d, 0, indent) == Ok(lines);
      assert lines[1..] == [inner.value];
      assert Join(lines, "\n") == lines[0] + "\n" + Join([inner.value], "\n");
    } else {
      assert RenderItem(key, JObj(fs), indent).Err?;
      assert RenderItems(d, 0, indent).Err?;
    }
  }

  /** At most three, and at most |xs|: how many items of a list are expanded. */
  function Expanded(xs: seq<Json>): (n: nat)
    ensures n <= 3 && n <= |xs| && (n == 3 || n == |xs|)
  {
    if |xs| < 3 then |xs| else 3
  }

  /** One list item renders as "key: [list with N items]"; when its first element is a
      dict, each of the first three elements follows as the line "  [i]:" and its
      rendering two levels deeper. */
  lemma ListItem(key: string, xs: seq<Json>, indent: nat)
    ensures var head := Indent(indent) + key + ": [list with " + NatToString(|xs|) + " items]";
      !(xs != [] && xs[0].JObj?) ==> RenderItem(key, JList(xs), indent) == Ok([head])
    ensures var head := Indent(indent) + key + ": [list with " + NatToString(|xs|) + " items]";
      xs != [] && xs[0].JObj?
      && (forall i :: 0 <= i < Expanded(xs) ==> xs[i].JObj? && Render(xs[i].fields, indent + 2).Ok?) ==>
        && RenderItem(key, JList(xs), indent).Ok?
        && var lines := RenderItem(key, JList(xs), indent).value;
        && |lines| == 1 + 2 * Expanded(xs) && lines[0] == head
        && forall i :: 0 <= i < Expanded(xs) ==>
             lines[1 + 2 * i] == Indent(indent) + "  [" + NatToString(i) + "]:"
             && lines[2 + 2 * i] == Render(xs[i].fields, indent + 2).value
  {
    var head := Indent(indent) + key + ": [list with " + NatToString(|xs|) + " items]";
    if xs != [] && xs[0].JObj? && (forall i :: 0 <= i < Expanded(xs) ==> xs[i].JObj? && Render(xs[i].fields, indent + 2).Ok?) {
      ListItemsLines(xs, 0, indent);
      var more := RenderListItems(xs, 0, indent).value;
      var lines := [head] + more;
      assert RenderItem(key, JList(xs), indent) == Ok(lines);
      forall i | 0 <= i < Expanded(xs)
        ensures lines[1 + 2 * i] == Indent(indent) + "  [" + NatToString(i) + "]:"
        ensures lines[2 + 2 * i] == Render(xs[i].fields, indent + 2).value
      {
        assert lines[1 + 2 * i] == more[2 * i] && lines[2 + 2 * i] == more[2 * i + 1];
      }
    }
  }

  /** The expansion from position j on: two lines per expanded element. */
  lemma {:induction false} ListItemsLines(xs: seq<Json>, j: nat, indent: nat)
    requires j <= Expanded(xs)
    requires forall i :: j <= i < Expanded(xs) ==> xs[i].JObj? && Render(xs[i].fields, indent + 2).Ok?
    ensures RenderListItems(xs, j, indent).Ok?
    ensures var more := RenderListItems(xs, j, indent).value;
      && |more| == 2 * (Expanded(xs) - j)
      && forall i :: j <= i < Expanded(xs) ==>
           more[2 * (i - j)] == Indent(indent) + "  [" + NatToString(i) + "]:"
           && more[2 * (i - j) + 1] == Render(xs[i].fields, indent + 2).value
    decreases Expanded(xs) - j
  {
    if j < Expanded(xs) {
      ListItemsLines(xs, j + 1, indent);
      var rest := RenderListItems(xs, j + 1, indent).value;
      var pair := [Indent(indent) + "  [" + NatToString(j) + "]:", Render(xs[j].fields, indent + 2).value];
      assert RenderListItems(xs, j, indent) == Ok(pair + rest);
    }
  }

  /** `summarize_run`: the provider's reply to a prompt holding the outcome and the rendered
      tree, stripped. `summarize` stands for the provider, Err where its client raises; the
      prompt's wording is not modelled. Neither a formatting error nor a client error is
      caught here. */
  function SummarizeRun(runTree: Dict, outcome: string, summarize: (string, string) -> Result<string>): (r: Result<string>)
    ensures !Renderable(JObj(runTree)) ==> r.Err?
    ensures Renderable(JObj(runTree)) ==>
      && Render(runTree, 0).Ok?
      && (var reply := summarize(Render(runTree, 0).value, outcome);
          && (reply.Err? ==> r == Err(reply.message))
          && (reply.Ok? ==> r == Ok(Strip(reply.value))))
    ensures r.Ok? ==> r.value == [] || (!IsSpace(r.value[0]) && !IsSpace(r.value[|r.value| - 1]))
  {
    RenderOkIff(runTree, 0);
    var tree :- Render(runTree, 0);
    var reply :- summarize(tree, outcome);
    Ok(Strip(reply))
  }

  /** The Gemini SDK's form of a model name: "models/" in front unless it is already there. */
  function GeminiModelName(model: string): (r: string)
    ensures StartsWith(r, "models/") && EndsWith(r, model)
    ensures r == model <==> StartsWith(model, "models/")
  {
    if StartsWith(model, "models/") then model else "models/" + model
  }

  lemma GeminiModelNameIdempotent(model: string)
    ensures GeminiModelName(GeminiModelName(model)) == GeminiModelName(model)
  {
  }

  /** What a provider call did: raised an exception with this text, or returned this text. */
  datatype Reply = Raised(message: string) | Returned(text: string)

  /** The rate-limit test of `make_decision`: "429" anywhere, or "quota" or "rate" in any case. */
  predicate IsRateLimit(error: string) {
    Contains(error, "429") || Contains(Lower(error), "quota") || Contains(Lower(error), "rate")
  }

  const RateLimitHead := "Gemini API rate limit exceeded."

  /** `make_decision` as its caller sees it, given what the provider did: a reply is
      stripped; a Gemini rate-limit error is re-raised as a rate-limit notice carrying at
      most 200 characters of the original text; every other error passes through. */
  function MakeDecision(provider: string, reply: Reply): (r: Reply)
    ensures reply.Returned? ==> r == Returned(Strip(reply.text))
    ensures reply.Raised? && provider == "gemini" && IsRateLimit(reply.message) ==>
              r.Raised? && StartsWith(r.message, RateLimitHead)
              && EndsWith(r.message, Take(reply.message, 200)) && |r.message| <= |RateLimitHead| + 237
    ensures reply.Raised? && !(provider == "gemini" && IsRateLimit(reply.message)) ==> r == reply
  {
    match reply
    case Returned(text) => Returned(Strip(text))
    case Raised(e) =>
      if provider == "gemini" && IsRateLimit(e) then Raised(RateLimitMessage(e)) else reply
  }

  /** The notice raised in place of a Gemini rate-limit error. */
  function RateLimitMessage(error: string): (m: string)
    ensures StartsWith(m, RateLimitHead) && EndsWith(m, Take(error, 200))
    ensures |m| <= |RateLimitHead| + 237
  {
    var tail := Take(error, 200);
    var m := RateLimitHead + (" Please wait before retrying. Error: " + tail);
    assert m[..|RateLimitHead|] == RateLimitHead;
    assert m[|m| - |tail|..] == tail;
    m
  }
}
