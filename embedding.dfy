/** The input handling of the embedding service (services/embedding.py): what `embed`
    accepts and sends, and which texts `embed_batch` sends. The provider is a parameter. */
module Embedding {
  import opened Wrappers
  import opened Strs
  import Llm

  /** The model name sent to the provider: Gemini's carries the "models/" prefix. */
  function ModelName(provider: string, model: string): (r: string)
    ensures provider == "gemini" ==> StartsWith(r, "models/") && EndsWith(r, model)
    ensures provider != "gemini" ==> r == model
  {
    if provider == "gemini" then Llm.GeminiModelName(model) else model
  }

  lemma ModelNameIdempotent(provider: string, model: string)
    ensures ModelName(provider, ModelName(provider, model)) == ModelName(provider, model)
  {
    if provider == "gemini" {
      Llm.GeminiModelNameIdempotent(model);
    }
  }

  /** `embed(text)`: empty or whitespace-only text is rejected before the provider is
      called; otherwise the provider gets the stripped text, and whatever it raises is
      not caught, so its error is the result. */
  function Embed(text: string, provider: string -> Result<seq<real>>): (r: Result<seq<real>>)
    ensures IsBlank(text) ==> r == Err("Text cannot be empty")
    ensures !IsBlank(text) ==> r == provider(Strip(text))
  {
    if Strip(text) == [] then Err("Text cannot be empty") else provider(Strip(text))
  }

  /** Stripping the text first changes nothing: `embed` sees only the stripped text. */
  lemma EmbedOfStripped(text: string, provider: string -> Result<seq<real>>)
    ensures Embed(Strip(text), provider) == Embed(text, provider)
  {
    StripIdempotent(text);
  }

  /** `[t.strip() for t in texts if t and t.strip()]`. */
  function ValidTexts(texts: seq<string>): (r: seq<string>)
    ensures |r| <= |texts|
  {
    if texts == [] then []
    else if IsBlank(texts[0]) then ValidTexts(texts[1..])
    else [Strip(texts[0])] + ValidTexts(texts[1..])
  }

  /** Every text sent is non-blank and already stripped. */
  lemma {:induction false} ValidTextsStripped(texts: seq<string>)
    ensures forall x :: x in ValidTexts(texts) ==> !IsBlank(x) && Strip(x) == x
  {
    if texts != [] {
      ValidTextsStripped(texts[1..]);
      StripIdempotent(texts[0]);
    }
  }

  /** Nothing is sent exactly when every text is blank. */
  lemma {:induction false} ValidTextsEmptyIff(texts: seq<string>)
    ensures ValidTexts(texts) == [] <==> forall t :: t in texts ==> IsBlank(t)
  {
    if texts != [] {
      ValidTextsEmptyIff(texts[1..]);
      assert forall t :: t in texts ==> t == texts[0] || t in texts[1..];
    }
  }

  /** The filter keeps exactly the non-blank texts, stripped. */
  lemma {:induction false} ValidTextsExactly(texts: seq<string>)
    ensures forall t :: t in texts && !IsBlank(t) ==> Strip(t) in ValidTexts(texts)
    ensures forall x :: x in ValidTexts(texts) ==> exists t :: t in texts && !IsBlank(t) && x == Strip(t)
  {
    if texts != [] {
      ValidTextsExactly(texts[1..]);
      forall x | x in ValidTexts(texts) ensures exists t :: t in texts && !IsBlank(t) && x == Strip(t) {
        if x in ValidTexts(texts[1..]) {
          var t :| t in texts[1..] && !IsBlank(t) && x == Strip(t);
          assert t in texts;
        } else {
          assert x == Strip(texts[0]);
        }
      }
    }
  }

  /** The filter keeps the original order: filtering a concatenation concatenates the results. */
  lemma {:induction false} ValidTextsAppend(a: seq<string>, b: seq<string>)
    ensures ValidTexts(a + b) == ValidTexts(a) + ValidTexts(b)
  {
    if a == [] {
      assert a + b == b;
    } else {
      assert (a + b)[0] == a[0];
      assert (a + b)[1..] == a[1..] + b;
      ValidTextsAppend(a[1..], b);
    }
  }

  /** Filtering twice is filtering once. */
  lemma {:induction false} ValidTextsIdempotent(texts: seq<string>)
    ensures ValidTexts(ValidTexts(texts)) == ValidTexts(texts)
  {
    if texts != [] {
      ValidTextsIdempotent(texts[1..]);
      var rest := ValidTexts(texts[1..]);
      if !IsBlank(texts[0]) {
        var x := Strip(texts[0]);
        StripIdempotent(texts[0]);
        assert ([x] + rest)[0] == x && ([x] + rest)[1..] == rest;
      }
    }
  }

  /** `embed_batch(texts)`: no provider call and no vectors when the list is empty or
      every text is blank; otherwise the provider gets the filtered texts, and an error it
      raises is the result. */
  function EmbedBatch(texts: seq<string>, provider: seq<string> -> Result<seq<seq<real>>>): (r: Result<seq<seq<real>>>)
    ensures (forall t :: t in texts ==> IsBlank(t)) ==> r == Ok([])
    ensures ValidTexts(texts) != [] ==> r == provider(ValidTexts(texts))
  {
    ValidTextsEmptyIff(texts);
    if texts == [] then Ok([])
    else
      var valid := ValidTexts(texts);
      if valid == [] then Ok([]) else provider(valid)
  }
}
