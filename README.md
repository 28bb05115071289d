# Run-centric agent memory, modelled in Dafny

The service keeps a long-term memory of finished agent runs in a graph database.
A run arrives as a payload. The **memory builder** then:

- upserts the run's Task, reusing a stored task whose embedding is similar enough;
- has a language model summarise the run and embeds the summary;
- extracts the References the run read and the Artifacts it produced;
- records the Run with its TRIGGERED, READS, WRITES and ENDED_WITH relationships.

**Memory retrieval** embeds a query, ranks the active runs by cosine similarity and
expands each hit with its references, artifacts and outcome. It then derives up to
five observations and a confidence score. It can also list every active run, newest
first.

The **decision layer** ranks the stored runs against a new one. A deterministic
pre-filter decides ADD when nothing is similar. Otherwise it asks a language model to
choose ADD, NOT, REPLACE or MERGE, and parses that answer defensively. The
configuration, the embedding and LLM services, and the health route's URI masking
complete the core.

The model has one module per concern:

- `Store`: the graph as maps plus duplicate-free, ordered relationship lists.
  The class `Store.Graph` is updated in place, one `MERGE` per method.
- `Payload`: the payload and its accessors.
- `Extraction`: ids, reference and artifact extraction, and the recursive traversal.
- `Builder`: the builder pipeline.
- `Retrieval`: search, expansion, observations, confidence and listing.
- `Decision`: the decision layer.
- `Llm` and `Embedding`: the service wrappers.
- `Config` and `Api`: configuration and URI masking.
- `Ranking`: Python's stable sort and slicing.
- `Strs`, `Json` and `Wrappers`: Python strings, JSON values and dicts, and Option/Result.

Each method that changes the graph or loops is proved equal to a specification
function. The properties are proved about those functions as lemmas.

These become parameters, grouped in `Extraction.Services` or passed separately:

- the embedding provider and the language model;
- cosine similarity;
- SHA-256, which yields a 64-digit lower-case hex digest;
- `json.dumps`, `json.loads` and `dateutil.isoparse`;
- the clock;
- the number formatting in messages.

## Model

| member | source | states |
|---|---|---|
| Api.MaskUri | api.py:64-70 | A hosted URI is replaced by one of two fixed texts, chosen by whether the part before the host marker starts with the secure scheme. Otherwise the result is the text after the last '@', or "localhost" when there is no '@'. |
| Api.MaskHidesCredentials | api.py:66-70 | The masked URI never contains '@'. When it is taken from the URI, it is a suffix of the URI that starts after every credential. |
| Api.MaskHidesInstance | api.py:66-68 | For a hosted database the instance id never shows: the result is one of the two fixed masked texts. |
| Config.Load | config.py:13-55 | Every setting is tied to the environment: each string setting is the variable's value or its documented default, PROVIDER is lower-cased, and the two API keys and EMBEDDING_MODEL are None when unset. The dimension, threshold and port are the conversions of their variables or defaults. Loading fails exactly when one of those conversions fails. |
| Config.ProviderCaseInsensitive | config.py:18 | Upper-casing PROVIDER in the environment does not change the selected provider. |
| Config.GetEmbeddingConfig | config.py:40-51 | Gemini forces dimension 768, and any other provider uses EMBEDDING_DIMENSION. A set EMBEDDING_MODEL overrides the provider's default model. |
| Config.GeminiIgnoresDimension | config.py:42-46 | With Gemini selected, EMBEDDING_DIMENSION has no effect on the embedding configuration. |
| Config.DefaultProvider | config.py:18-51 | With nothing set, the service uses OpenAI's "text-embedding-3-small" at the parsed dimension. |
| Config.Validate | config.py:64-74 | Validation succeeds iff a password is set and the selected provider's key is set. Each failure carries its own message, and the password is checked first. |
| Config.PasswordFirst | config.py:66-67 | Without a password the verdict is the same whatever the provider and keys. |
| Config.OtherKeyIgnored | config.py:69-74 | The key of the provider that is not selected never affects validation. |
| Config.ValidateLoaded | config.py:13-74 | On the loaded settings, validation passes iff NEO4J_PASSWORD is set and non-empty and the key of the lower-cased PROVIDER is set and non-empty. |
| Payload.GetTaskText | models/run.py:36-38 | The result is the user task if it is non-empty, else the legacy task text. It is empty iff neither is given. |
| Payload.GetRunTree | models/run.py:40-60 | A non-empty legacy run tree is returned as given. Otherwise the result is a dict with the twelve structured keys in order, each holding its payload field: the optional strings as a string or null, run_id and agent_id as strings, metadata as a dict or null, steps as a list, and duration as an int or null. |
| Payload.RunTreeSteps | models/run.py:43-60 | The built run log is never empty. Its "steps" entry is the payload's steps, or [] when they are absent. |
| Payload.StatusOutcome | models/run.py:67-74 | The result is success iff the lower-cased status is "complete" or "success", and failure iff it is "failure". Any other status gives partial. |
| Payload.GetOutcome | models/run.py:62-76 | An explicit outcome wins. Otherwise the status decides, and partial is the default. |
| Payload.OutcomeIgnoresCase | models/run.py:68-74 | An upper-cased status maps to the same outcome. |
| Payload.StatusOutcomeCases | models/run.py:69-74 | A status maps to partial exactly when its lower-case form is none of the three known statuses. |
| Payload.GetCreatedAt | models/run.py:78-90 | An explicit created_at wins. Otherwise the result is the parsed start timestamp, where a parse failure gives None, and None when no timestamp is given. |
| Embedding.ModelName | services/embedding.py:44-46 | For Gemini the name carries the "models/" prefix and ends with the configured model. Other providers use the model unchanged. |
| Embedding.ModelNameIdempotent | services/embedding.py:46 | Prefixing an already-prefixed name changes nothing. |
| Embedding.Embed | services/embedding.py:31-58 | A blank text fails with "Text cannot be empty" before the provider is called. Any other text is the provider's answer for the stripped text, including a provider exception, which is not caught. |
| Embedding.EmbedOfStripped | services/embedding.py:41-58 | Embedding the stripped text is the same as embedding the text. |
| Embedding.ValidTextsStripped | services/embedding.py:74 | Every text kept for a batch is non-blank and already stripped. |
| Embedding.ValidTextsEmptyIff | services/embedding.py:74-76 | Nothing is kept iff every input text is blank. |
| Embedding.ValidTextsExactly | services/embedding.py:74 | The kept texts are exactly the stripped forms of the non-blank inputs. |
| Embedding.ValidTextsAppend | services/embedding.py:74 | Filtering distributes over concatenation, so input order is kept. |
| Embedding.ValidTextsIdempotent | services/embedding.py:74 | Filtering the kept texts again changes nothing. |
| Embedding.EmbedBatch | services/embedding.py:60-95 | An all-blank batch gives [] without a provider call. Otherwise the result is the provider's answer for exactly the kept, stripped texts, including a provider exception. |
| Llm.Clip | services/llm.py:96-98 | A value longer than 200 characters becomes its first 200 characters plus "..."; a shorter value is kept. |
| Llm.FormatRunTree | services/llm.py:79-101 | The recursive formatter's loop computes the rendering function, including the failure on a list whose expanded items are not dicts. |
| Llm.ExpandItems | services/llm.py:90-93 | The loop over the first three items of a list computes the list rendering. |
| Llm.RenderOkIff | services/llm.py:79-101 | Formatting fails exactly on trees in which an expanded list, one whose first item is a dict, has a non-dict among its first three items. |
| Llm.ItemsOkIff | services/llm.py:84-99 | The entries from position i on render iff every value among them is renderable. |
| Llm.ItemOkIff | services/llm.py:85-99 | One entry renders iff its value is renderable. |
| Llm.ListOkIff | services/llm.py:88-93 | The items of a list render iff each of its first three is a renderable dict. |
| Llm.RenderAppend | services/llm.py:84-101 | Rendering two dicts joined is rendering each and joining the lines. |
| Llm.ScalarItem | services/llm.py:94-99 | A scalar entry renders as indent, key, ": " and the clipped value. |
| Llm.DictItem | services/llm.py:85-87 | A dict entry renders as indent, key and ":", then a newline and the nested dict rendered one level deeper. It fails when the nested rendering fails. |
| Llm.Expanded | services/llm.py:91 | At most three items of a list are expanded, and no more than it has. |
| Llm.ListItem | services/llm.py:88-93 | A list entry renders as indent, key and ": [list with N items]". When its first item is a dict and the expanded items render, the line "  [i]:" and item i rendered two levels deeper follow, for each of the first three items in order. |
| Llm.ListItemsLines | services/llm.py:90-93 | The expansion from item j on holds two lines per remaining expanded item: its "[i]:" header and its rendering. |
| Llm.SummarizeRun | services/llm.py:30-77 | A run tree that cannot be formatted fails. Otherwise a client exception is the result unchanged, and a reply becomes the summary stripped of surrounding whitespace. |
| Llm.GeminiModelName | services/llm.py:57 | The name starts with "models/" and ends with the model. It is unchanged iff it already had the prefix. |
| Llm.GeminiModelNameIdempotent | services/llm.py:114 | Prefixing twice is prefixing once. |
| Llm.MakeDecision | services/llm.py:103-144 | A reply is returned stripped. On Gemini, a rate-limit or quota error is re-raised as the rate-limit message. Any other error passes through unchanged. |
| Llm.RateLimitMessage | services/llm.py:128-131 | The message starts with the fixed rate-limit text, ends with the first 200 characters of the error, and is bounded in length. |
| Ranking.SortByCorrect | memory_retrieval.py:129 | Sorting by a total preorder gives a sorted permutation in which tied elements keep their input order, as Python's stable sort does. |
| Ranking.SortInPlace | memory_retrieval.py:129 | The in-place insertion sort of the array leaves exactly the stable sort of its old contents. |
| Ranking.PyTake | memory_retrieval.py:130 | `s[:k]` is a prefix whose length follows Python's rules, including a negative k. |
| Ranking.TopKProperties | services/decision.py:117-118 | Sort then slice keeps at most k elements and only elements of the input. The kept elements are sorted and stable, every dropped element ranks no higher than a kept one, and the result is empty only when the input is, k is 0, or a negative k cuts everything. |
| Store.AddOnce | memory_builder.py:183 | `MERGE` of a relationship adds it when missing and keeps the list free of duplicates. |
| Store.WithTask | memory_builder.py:137-141 | The task is upserted under its id. The rest of the graph is unchanged and well-formedness is kept. |
| Store.WithRun | memory_builder.py:163-177 | The run's properties are set and its status is kept. Every other run is untouched. |
| Store.WithRef | memory_builder.py:383-393 | The reference is upserted under its id and nothing else changes. |
| Store.WithArt | memory_builder.py:399-409 | The artifact is upserted under its id and nothing else changes. |
| Store.WithTriggered | memory_builder.py:180-184 | A TRIGGERED edge exists afterwards when both endpoints exist. Only that relationship list changes. |
| Store.WithReads | memory_builder.py:188-192 | A READS edge exists afterwards when both endpoints exist. Only that relationship list changes. |
| Store.WithWrites | memory_builder.py:196-200 | A WRITES edge exists afterwards when both endpoints exist. Only that relationship list changes. |
| Store.WithOutcome | memory_builder.py:204-208 | For an existing run, the outcome node and its ENDED_WITH edge exist afterwards. |
| Store.WithDecision | services/decision.py:401-415 | The decision record is upserted under the run id and nothing else changes. |
| Store.ReadEntries | memory_retrieval.py:141-166 | The collected references are exactly the run's READS targets with a non-empty id, each with its stored type and source. |
| Store.WriteEntries | memory_retrieval.py:142-167 | The collected artifacts are exactly the run's WRITES targets with a non-empty id, each with its stored type and hash. |
| Store.OutcomeLabel | memory_retrieval.py:143 | The optional ENDED_WITH match gives a label only when the run has that edge. |
| Store.OutcomeText | memory_retrieval.py:181 | The outcome shown is never empty: it is a linked label, or "unknown" when the run has none. |
| Store.Graph.MergeTask | memory_builder.py:137-141 | The graph's new state is the task upsert of its old state. |
| Store.Graph.MergeRun | memory_builder.py:163-177 | The graph's new state is the run upsert of its old state. |
| Store.Graph.MergeReference | memory_builder.py:383-393 | The graph's new state is the reference upsert of its old state. |
| Store.Graph.MergeArtifact | memory_builder.py:399-409 | The graph's new state is the artifact upsert of its old state. |
| Store.Graph.LinkTriggered | memory_builder.py:180-184 | The graph's new state is the TRIGGERED merge of its old state. |
| Store.Graph.LinkReads | memory_builder.py:188-192 | The graph's new state is the READS merge of its old state. |
| Store.Graph.LinkWrites | memory_builder.py:196-200 | The graph's new state is the WRITES merge of its old state. |
| Store.Graph.LinkOutcome | memory_builder.py:204-208 | The graph's new state is the outcome merge of its old state. |
| Store.Graph.MergeDecision | services/decision.py:401-415 | The graph's new state is the decision upsert of its old state. |
| Extraction.GenerateId | memory_builder.py:412-416 | An id is the prefix, "_", and the first 16 hex digits of the content's SHA-256. |
| Extraction.GenerateIdAddresses | memory_builder.py:412-416 | Two contents get the same id iff their digests agree on 16 digits, and the id's tail is hex. |
| Extraction.NewReference | memory_builder.py:231-239 | A reference's id is content-addressed with "ref_", and it keeps its type and source. Creation fails iff embedding the content fails, whether because it is blank or because the provider raises, or the source is not a string. |
| Extraction.NewArtifact | memory_builder.py:308-328 | An artifact's hash is the content digest and its id is "artifact_" plus 16 hash digits. Creation fails iff embedding the content fails, whether because it is blank or because the provider raises, or the type cannot be decided. |
| Extraction.Here | memory_builder.py:262 | A dict is reported iff its "type" is one of the looked-for kinds, with that kind and its path. |
| Extraction.Traverse | memory_builder.py:259-282 | The recursive traversal appends exactly the nodes the specification finds, in depth-first document order. |
| Extraction.TraverseFields | memory_builder.py:276-278 | The loop over a dict's entries appends what each non-"steps" entry holds, in order. |
| Extraction.TraverseItems | memory_builder.py:280-282 | The loop over a list appends what each item holds, with index paths. |
| Extraction.FoundInKinds | memory_builder.py:262 | Every node the traversal reports has one of the looked-for kinds. |
| Extraction.StepsNotVisited | memory_builder.py:276-278 | The contents of "steps" entries never affect the traversal. |
| Extraction.SourceRef | memory_builder.py:272 | The source is the node's "source" when present, which must be a string, else the path. |
| Extraction.FoundReferences | memory_builder.py:259-273 | The fallback yields one reference per found node. |
| Extraction.FoundReferenceAt | memory_builder.py:259-273 | The k-th fallback reference is the one made from the k-th found node, so the order is kept. |
| Extraction.InputReference | memory_builder.py:223-239 | A step whose input has a context dict with emailData yields exactly one api_response reference. Its id is GenerateId("ref", the sorted dump of emailData), its embedding is that dump's, and its source is "step_<id>.emailData". It fails exactly when that embedding fails. Any other step with step_input yields nothing. A step without step_input fails the subscript. |
| Extraction.InputPart | memory_builder.py:223-239 | The input half of a dict step: one reference exactly when emailData is present, and Err exactly when embedding its dump fails. |
| Extraction.OutputReference | memory_builder.py:242-256 | A step whose output has a data dict with id or messageId yields exactly one api_response reference. Its id is GenerateId("ref", the sorted dump of data), and its source is "step_<id>.output_data". It fails exactly when embedding fails. Any other step with step_output yields nothing. |
| Extraction.OutputPart | memory_builder.py:242-256 | The output half of a dict step: one reference exactly when such data is present, and Err exactly when embedding its dump fails. |
| Extraction.StepReferences | memory_builder.py:221-256 | Each step yields at most two references. All are api_response, sourced from that step. |
| Extraction.StepReferencesOk | memory_builder.py:221-256 | A dict step's references fail exactly when embedding its emailData or its output data fails. |
| Extraction.StepReferencesParts | memory_builder.py:221-256 | A dict step yields one reference per present source. The emailData reference comes first and the output-data reference last, each with its content-addressed id. |
| Extraction.StepsReferencesInclude | memory_builder.py:219-256 | Every reference of one step is among the references of the whole step list. |
| Extraction.EmailStepYieldsReference | memory_builder.py:219-239 | A step with emailData in its context always contributes its reference, with the content-addressed id, to the extracted references. |
| Extraction.TreeSteps | memory_builder.py:220 | The steps are read only when "steps" is a list. |
| Extraction.ReferencesFromSteps | memory_builder.py:220-256 | The loop over steps computes the step references, stopping at the first error. |
| Extraction.ReferencesFromFound | memory_builder.py:259-273 | The loop over found nodes computes the fallback references. |
| Extraction.ExtractReferences | memory_builder.py:212-288 | The result is the step references, or the whole-tree fallback when the steps gave none. |
| Extraction.StepsReferencesFromSteps | memory_builder.py:220-256 | Every step reference is a "ref_" api_response whose source names a step of the list. |
| Extraction.ReferencesProperties | memory_builder.py:212-288 | Every reference has a known kind and a "ref_" id. Step references win when there are any. Otherwise there is one reference per typed node, with its type and source. |
| Extraction.StepReferencesProperties | memory_builder.py:219-256 | When the steps give references, those are the result, and each is sourced from some step. |
| Extraction.FallbackReferencesProperties | memory_builder.py:258-286 | When the steps give none, the traversal's nodes map one-to-one onto the references. |
| Extraction.ArtifactKind | memory_builder.py:313-321 | The type is decided case-insensitively: "summary" gives report, then "reply" or "generate" gives code, then "reasoning" gives plan, else report. It is never schema. |
| Extraction.ArtifactKindIgnoresCase | memory_builder.py:314-319 | An upper-cased step name gets the same artifact type. |
| Extraction.OutputArtifact | memory_builder.py:305-328 | An llm_call step whose dict output has "data" yields exactly one artifact. Its kind is ArtifactKind(step_name) and its hash is the SHA-256 of the sorted dump of data. It fails exactly when embedding fails or the name is not a string. Any other step yields nothing from its output. |
| Extraction.InputArtifact | memory_builder.py:331-345 | A step input dict holding "reply" or "summary" yields exactly one report artifact, hashed from the sorted dump of the whole input. It fails exactly when embedding fails. Any other step yields nothing from its input. |
| Extraction.StepArtifacts | memory_builder.py:299-345 | A step that is not a dict fails with Python's attribute error. A dict step yields the output artifact followed by the input artifact, and fails iff either fails. |
| Extraction.StepsArtifactsInclude | memory_builder.py:297-345 | Every artifact of one step is among the artifacts of the whole step list. |
| Extraction.LlmStepYieldsArtifact | memory_builder.py:305-328 | An llm_call step with output data always contributes an artifact typed by its name and hashed from its data to the extracted artifacts. |
| Extraction.FoundArtifacts | memory_builder.py:348-363 | The fallback yields one artifact per found node. |
| Extraction.FoundArtifactAt | memory_builder.py:348-363 | The k-th fallback artifact is the one made from the k-th found node, so the order is kept. |
| Extraction.ArtifactsFromSteps | memory_builder.py:298-345 | The loop over steps computes the step artifacts. |
| Extraction.ArtifactsFromFound | memory_builder.py:348-363 | The loop over found nodes computes the fallback artifacts. |
| Extraction.ExtractArtifacts | memory_builder.py:290-378 | The result is the step artifacts, or the fallback when the steps gave none. |
| Extraction.StepsArtifactsWellMade | memory_builder.py:297-345 | Every step artifact is well-formed: its hash is its content digest, its id is derived from that hash, and its type is known. |
| Extraction.FoundArtifactsWellMade | memory_builder.py:347-363 | Every fallback artifact is well-formed. |
| Extraction.ArtifactsProperties | memory_builder.py:290-378 | All extracted artifacts are well-formed. Step artifacts win when there are any, else there is one artifact per typed node. |
| Retrieval.HitsExactly | memory_retrieval.py:95-126 | A hit is exactly an active run (matching the agent filter when one is given) with an embedding of the query's dimension, scored by cosine similarity. |
| Retrieval.HitsEmptyIff | memory_retrieval.py:95-126 | There are no hits iff no stored run is searchable. |
| Retrieval.SearchProperties | memory_retrieval.py:77-130 | The search returns at most top_k searchable runs, best first and stable. No dropped hit scores above a kept one. It is empty only when nothing is searchable or the slice keeps nothing. |
| Retrieval.VectorSearchRuns | memory_retrieval.py:77-130 | The scan loop and the in-place sort compute the search specification. |
| Retrieval.ParseTree | memory_retrieval.py:169-175 | A missing or empty run tree, or one that does not parse, gives None. Otherwise the result is the parsed value. |
| Retrieval.Expand | memory_retrieval.py:132-185 | A run expands iff it exists, with its stored fields and only its own READS and WRITES targets. The outcome is never empty: it is "unknown" without an ENDED_WITH edge. |
| Retrieval.RelatedFollowsHits | memory_retrieval.py:48-62 | The related runs follow the hits in order, skipping vanished runs, and carry each hit's similarity and the run's stored fields. |
| Retrieval.RelatedFailsIff | memory_retrieval.py:48-62 | Building the related runs fails iff some hit's stored run tree parses to something other than a dict. |
| Retrieval.CountOutcome | memory_retrieval.py:202-204 | The count is positive iff some run has that outcome, and it never exceeds the number of runs. |
| Retrieval.CountHigh | memory_retrieval.py:241 | The count is positive iff some run's similarity exceeds 0.9. |
| Retrieval.KindsExactly | memory_retrieval.py:219-233 | The collected reference and artifact types are exactly the types present. |
| Retrieval.SortedStrings | memory_retrieval.py:226 | `sorted(set)` lists every element once, in strictly increasing order. |
| Retrieval.SuccessFailureDiffer | memory_retrieval.py:207-216 | The success line and the failure line can never be equal. |
| Retrieval.LinesDiffer | memory_retrieval.py:207-246 | The five observation lines are pairwise different and differ from the no-runs line. |
| Retrieval.ReportProperties | memory_retrieval.py:207-246 | Each line appears iff its condition holds, and there are at most five. |
| Retrieval.ObservationsProperties | memory_retrieval.py:187-248 | No runs gives exactly the no-runs line. Otherwise each observation appears iff some run shows the pattern it reports. |
| Retrieval.KindsNonEmpty | memory_retrieval.py:219-235 | Type lists are non-empty iff some run has a reference or artifact. |
| Retrieval.OtherOutcomesIgnored | memory_retrieval.py:202-248 | Outcomes other than success and failure, partial included, never change the observations. |
| Retrieval.CollectKinds | memory_retrieval.py:219-233 | The nested loops collect exactly the reference or artifact types. |
| Retrieval.AnalyzePatterns | memory_retrieval.py:187-248 | The method computes exactly the observations. |
| Retrieval.SumSimilarityBounds | memory_retrieval.py:264 | The similarity sum lies between 0 and the number of runs when every score is in [0, 1]. |
| Retrieval.Confidence | memory_retrieval.py:250-281 | No runs gives 0. Scores in [0, 1] give a confidence in [0, 1]. Any non-empty result with non-negative scores gives at least 0.2. |
| Retrieval.QueryText | memory_retrieval.py:38 | The query is the context when it is non-empty, else the task text. |
| Retrieval.RetrieveProperties | memory_retrieval.py:20-75 | A blank query fails with the embedding error, and a provider exception on the query is the result. Otherwise the response embeds the stripped query and holds at most top_k related runs in hit order. Its observations and confidence are computed from those runs. |
| Retrieval.Retrieve | memory_retrieval.py:20-75 | The method computes the retrieval specification. |
| Retrieval.RelateHits | memory_retrieval.py:49-62 | The expansion loop computes the related runs. |
| Retrieval.ListedIds | memory_retrieval.py:296-305 | Exactly the active runs matching the agent filter are listed. |
| Retrieval.NewerFirstIsPreorder | memory_retrieval.py:325 | ORDER BY created_at DESC, with nulls first, is a total preorder. |
| Store.Labels | memory_retrieval.py:308 | The labels of a run's ENDED_WITH outcomes are exactly those of its relationships, each once. |
| Retrieval.RunRows | memory_retrieval.py:308-324 | Grouping by the plain key o.label gives a run one row per outcome label it ended with, or a single row with a null label when it has none. |
| Retrieval.GroupedRows | memory_retrieval.py:304-324 | The query's rows are exactly the rows of the listed runs. |
| Retrieval.NewerRowFirstIsPreorder | memory_retrieval.py:325 | ORDER BY created_at DESC on rows is a total preorder. |
| Retrieval.RowsNewestFirst | memory_retrieval.py:325-326 | The returned rows are newest first, and a positive LIMIT bounds the number of rows. |
| Retrieval.RowsComplete | memory_retrieval.py:301-326 | Without a limit every row of every listed run is returned. |
| Retrieval.RecordOf | memory_retrieval.py:336-367 | A listed row has the run's stored fields and only its own references and artifacts. Its outcome is the row's label, or "unknown" for a null or empty one. created_at is present iff it was stored. |
| Retrieval.RowsListed | memory_retrieval.py:294-333 | Every row the query returns belongs to an active run matching the filter, and carries one of that run's labels or null. |
| Retrieval.RecordsOfRows | memory_retrieval.py:335-367 | There is one record per returned row, in order, with the row's run and outcome. |
| Retrieval.RecordOfRow | memory_retrieval.py:301-367 | Without a limit, each row of a listed run appears as a record with that run and outcome. |
| Retrieval.RetrieveAllProperties | memory_retrieval.py:283-369 | Listing fails iff the limit is negative. Otherwise every record is a listed run with one of its outcome labels or "unknown", records are newest first, and a positive limit bounds their number. Without a limit, or with 0, every listed run appears once per non-empty outcome label it ended with, and once as "unknown" when it has none. |
| Retrieval.RetrieveAllNewestFirst | memory_retrieval.py:325-367 | The records are listed runs with one of their outcome labels or "unknown", ordered newest first, and a positive limit bounds how many there are. |
| Retrieval.RetrieveAllComplete | memory_retrieval.py:301-367 | Without a limit, or with limit 0, which Python treats as falsy, each listed run has a record for each non-empty outcome label, and an "unknown" one when it has no outcome. |
| Retrieval.SeveralOutcomesSeveralRows | memory_retrieval.py:308-326 | A run that ended with two different outcomes appears in two records, so it takes two of the rows a LIMIT allows. |
| Retrieval.RetrieveAll | memory_retrieval.py:283-369 | The method computes the listing specification. |
| Retrieval.ShapeRows | memory_retrieval.py:335-369 | The row loop shapes each returned row into its record, in order. |
| Decision.ParseKind | services/decision.py:293-294 | A name parses iff it is one of the four verdict names, and it parses to the verdict with that name. |
| Decision.Candidates | services/decision.py:91-114 | Each candidate is an active run with a same-dimension embedding, scored at or above 0.7, with the run's details. |
| Decision.SimilarRunsProperties | services/decision.py:72-118 | The result holds at most top_k qualifying runs, best first and stable. No dropped candidate scores higher. It is empty only when nothing qualifies or the slice keeps nothing. |
| Decision.FindSimilarRuns | services/decision.py:72-118 | The scan loop and the sort compute the similar runs. |
| Decision.BestScore | services/decision.py:311 | The score is the first candidate's similarity, or None when there are no candidates. |
| Decision.DeterministicFilter | services/decision.py:149-187 | No candidates gives ADD with its fixed reason. A best score below 0.7 gives ADD with the score. It defers iff the best score is at least 0.7. |
| Decision.FilterDefersIffCandidates | services/decision.py:157-187 | On ranked candidates the pre-filter defers exactly when there is one. |
| Decision.CleanResponse | services/decision.py:249-256 | The cleaned reply has no surrounding whitespace. |
| Decision.CleanJsonFence | services/decision.py:249-256 | A reply fenced with "```json" cleans to its stripped body. |
| Decision.CleanPlainFence | services/decision.py:249-256 | A reply fenced with "```" cleans to its stripped body. |
| Decision.CleanUnfenced | services/decision.py:249-256 | A stripped reply without fences is left as it is. |
| Decision.ScanBalanced | services/decision.py:264-275 | The brace scan stops at the first '}' where the braces since the first '{' balance. |
| Decision.ExtractedBalanced | services/decision.py:264-275 | The extracted text ends with '}' and holds as many '{' as '}'. |
| Decision.FindBalancedEnd | services/decision.py:264-275 | The scan loop with its running count computes the balanced end. |
| Decision.RegexSearch | services/decision.py:278 | A regex match found from position p starts at a '{' at or after p. It ends where the nested-brace scan, which allows one level of nesting, closes that brace. |
| Decision.RegexMatchBalanced | services/decision.py:277-280 | A regex match starts with '{', ends with '}', and is balanced. |
| Decision.ExtractDecisionData | services/decision.py:258-284 | The parse cascade (direct parse, then brace scan, then regex) computes its specification, with the two decode errors. |
| Decision.Interpret | services/decision.py:288-313 | A parsed verdict has an empty run id, the best score and the timestamp. REPLACE and MERGE always carry a target. |
| Decision.LlmJudge | services/decision.py:189-327 | The judge computes its specification, falling back to ADD on every failure. |
| Decision.JudgeTargets | services/decision.py:296-304 | REPLACE and MERGE never come out of the judge without a target. |
| Decision.InterpretFillsTarget | services/decision.py:296-304 | A missing target is filled with the best candidate's run id. It becomes ADD with no target when there is no candidate. |
| Decision.JudgeDefaultsToAdd | services/decision.py:288-294 | A missing or unknown decision name yields ADD. |
| Decision.JudgeFailsClosed | services/decision.py:226-327 | A provider error or an unparsable reply yields ADD with no target and the matching error reason. The score is always the best candidate's. |
| Decision.DecideSpec | services/decision.py:35-70 | Every decision is stamped with the caller's run id. |
| Decision.DecideConsultsJudgeIffCandidates | services/decision.py:51-70 | No candidates gives ADD without consulting the model. Otherwise the decision is the judge's. |
| Decision.Decide | services/decision.py:35-70 | The method computes the decision specification. |
| Decision.StoreDecision | services/decision.py:398-415 | The graph's new state is the decision upsert keyed by run id. |
| Decision.StoreDecisionUpsert | services/decision.py:398-415 | Storing is idempotent, the last decision for a run wins, and other runs' records are untouched. |
| Builder.ScanPicksFirstBest | memory_builder.py:117-126 | The scan picks the first task of highest similarity among those at or above the threshold and above 0. |
| Builder.ScanFailsOnMismatch | memory_builder.py:120-126 | The scan fails iff some stored task embedding has a different length, as numpy's dot product does. |
| Builder.ScanOverTasks | memory_builder.py:111-126 | Over the stored tasks, a match qualifies and no qualifying task beats it. No match means no task qualifies. A failure means some dimension differs. |
| Builder.UpsertTaskProperties | memory_builder.py:94-142 | Well-formedness is kept. A failure leaves the graph unchanged. A reused task qualifies and is best. Otherwise the task is created under its content id with its embedding. |
| Builder.UpsertTask | memory_builder.py:94-142 | The method computes the task-upsert specification on the graph. |
| Builder.UpsertReferences | memory_builder.py:57-60 | Upserting each reference gives the merged state and returns their ids in order. |
| Builder.UpsertArtifacts | memory_builder.py:64-67 | Upserting each artifact gives the merged state and returns their ids in order. |
| Builder.WithReferencesProperties | memory_builder.py:380-394 | After the upsert the references are the union, untouched ones are kept, and the last value per id wins. Repeating the upsert changes nothing. |
| Builder.WithArtifactsProperties | memory_builder.py:396-410 | After the upsert the artifacts are the union, untouched ones are kept, and the last value per id wins. Repeating the upsert changes nothing. |
| Builder.ReadsAll | memory_builder.py:187-192 | After the loop there is a READS edge to every existing listed reference, and no other new edges. |
| Builder.WritesAll | memory_builder.py:195-200 | After the loop there is a WRITES edge to every existing listed artifact, and no other new edges. |
| Builder.CreatedAt | memory_builder.py:156 | An explicit created_at wins. Otherwise a given start_timestamp is parsed, falling back to the clock when parsing fails. With neither, the clock is used. |
| Builder.CreateRunEffects | memory_builder.py:144-210 | The run is stored with its fields and linked to its task, references, artifacts and outcome. Other runs and the node maps are untouched, and new edges start at this run. |
| Builder.CreateRunIdempotent | memory_builder.py:144-210 | Creating the same run twice is creating it once. |
| Builder.CreateRun | memory_builder.py:144-210 | The method computes the run-creation specification and returns the payload's run id. |
| Builder.ProcessRun | memory_builder.py:25-92 | The pipeline computes its specification, turning any error into a failure result. |
| Builder.MissingTaskRefused | memory_builder.py:44-46 | A payload without task text fails with the ValueError message and leaves the graph unchanged. |
| Builder.ProviderErrorReported | memory_builder.py:47-53 | An exception from the LLM client while summarising, or from the embedding provider on the summary, makes process_run fail with its text. The Task written by the first step stays. |
| Builder.StoreEffects | memory_builder.py:62-86 | After the artifacts are stored and the run is created, every reference and artifact is stored and linked, and the counts are reported. |
| Builder.ProcessedEffects | memory_builder.py:25-86 | A processed run is stored, linked to its task, references, artifacts and outcome, and reports their counts. |

## Left out

- The graph database is a value held by `Store.Graph`. Rows come back in creation order. Rows that tie under `ORDER BY`, such as the rows of one run with several outcomes, keep creation and relationship order, which Neo4j leaves unspecified. Sessions, transactions, network errors and concurrent writers are not modelled.
- The embedding provider, the language model, cosine similarity, SHA-256, `json.dumps`/`json.loads`, `dateutil.isoparse` and the clock are parameters. Their internals are not modelled. The embedding provider and the language model may fail, as `Err`; cosine similarity, SHA-256 and `json.dumps` are taken to be total.
- The prompt wording of `summarize_run` and `_build_decision_prompt`, the debug prints and the tracebacks are not modelled.
- The Gemini branch of `embed_batch` embeds one text per call. The model makes one provider call over all kept texts, so the order and count of the results are the provider's.
- Floating-point numbers are `real`. JSON floats are outside the `Json` datatype.
- Case mapping covers ASCII letters only. String order compares code points, not Python's full Unicode rules.
- `int(...)` and `float(...)` on environment values are parameters.
- A dict with a repeated key is not modelled: `Get` returns the first entry.
- Pydantic validation errors carry a short text instead of pydantic's full message.
- In `_upsert_task`, `result.single()` on the exhausted cursor is taken to find no record, so a task without a match is created.
- Builder.UpsertTaskProperties: when a task with the empty id qualifies, the model states only that the new task is created. The source treats that id as falsy and creates the task.
- Builder.CreateRunIdempotent: holds for the same clock reading. With no timestamp, a second call would store a newer created_at.
- Retrieval.Confidence: states the value before `round(confidence, 2)`. Rounding to two decimals is not modelled, and the bounds hold for the rounded value as well.
- The HTTP routes other than the URI masking are not modelled. This includes the retrieve-all route, which passes a `user_id` argument that `retrieve_all` does not declare (api.py:148).
- `top_k` and the decision layer's 3 are parameters or constants. Request validation of `top_k` is not modelled.
