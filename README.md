# llm_ise relation-extraction core, in Dafny

llm_ise runs iterative set expansion. It searches the web for a query, splits
each page into sentences and extracts tuples of a target relation: 1
Schools_Attended, 2 Work_For, 3 Live_In or 4 Top_Member_Employees. The
extraction has two back ends. SpanBERT classifies candidate pairs in one
batch. GPT-3 is prompted once per candidate.

This project models the part of that pipeline that is plain logic:

- `CliArgs` (cli_args.dfy): the command-line validators `tValue`, `rValue`,
  `kValue` and `validate_LLM`.
- `RelationTables` (relation_tables.dfy): the configuration tables
  `ENTITIES_OF_INTEREST`, `RELATIONS`, `SEED_PROMPTS` and
  `SUBJ_OBJ_REQUIRED_ENTITIES`, with the facts that tie them to the validators.
- `CandidatePairs` (candidate_pairs.dfy): the type filter
  `filter_candidate_pairs` and the per-document collection
  `extract_candidate_pairs`. Both are imperative methods proved against
  specification functions.
- `GptOutput` (gpt_output.dfy): `parse_gpt_output` over an already decoded
  JSON object, and `construct_prompt`.
- `Predictors` (predictors.dfy): the SpanBERT and GPT-3 `get_relations`
  paths. The SpanBERT model and the completion endpoint are stand-in classes
  that record every call, so "the predictor is not called" can be stated.

A document is a sequence of `Sentence` values. Each holds the sentence text
and the entity pairs that spaCy's `create_entity_pairs` would produce. An
entity is its text and its type. A candidate dictionary becomes the datatype
`Candidate`. Its `"sentence"` key is an `Option`, absent until
`extract_candidate_pairs` sets it. The relation identifier `r` is the subset
type `RelationId` (1..4), the values `rValue` admits.

Points where the code behaves differently from what its own names and
docstrings suggest; the model follows the code:

- An answer keyed like the dictionary `parse_gpt_output` returns (`"subj"` and
  `"obj"`, EntityExtractor.py:308-313) is rejected, because the code looks the
  subject and object up under `SUBJ_OBJ_REQUIRED_ENTITIES[r]["SUBJ"][0]` and
  `["OBJ"][0]` (EntityExtractor.py:322-327), for example `"PERSON"` and
  `"ORGANIZATION"` for Work_For. `GptOutput.ParseExamplesWorkFor` shows both
  cases.
- The seed prompts are JSON lists (`["Alec Radford", "Work_For", "OpenAI"]`).
  The parser only accepts a JSON object, so a completion that imitates the
  seed format is always rejected.
- `PROMPT_AIDS` and `SEED_SENTENCES` are imported by EntityExtractor.py:8,10
  but lib/utils.py does not define them. They are parameters here.
- `gpt3Predictor.extract_candidate_pairs` never appends to its result, so
  `gpt3Predictor.get_relations` always returns `[]`. If the list were ever
  non-empty, `extract_entity_relations` would receive a list where it expects
  one candidate.

## Model

| member | source | states |
|---|---|---|
| CliArgs.TValue | utils.py:4-8 | `tValue` as written: it accepts exactly the finite values in [0, 1] and NaN, returns the value unchanged, and otherwise fails with the t-value message |
| CliArgs.TValueAcceptsNaN | utils.py:6 | NaN passes the range check, because both comparisons with NaN are false |
| CliArgs.TValueInRange | utils.py:4-8 | the intended check: success exactly for finite values in [0, 1], with the value unchanged |
| CliArgs.TValueInRangeDiffersOnlyOnNaN | utils.py:6 | the written and the intended check agree on every input except NaN |
| CliArgs.RValue | utils.py:11-15 | success exactly when 1 <= v <= 4, returning v; otherwise the r-value error |
| CliArgs.KValue | utils.py:18-22 | success exactly when v >= 1, returning v; otherwise the k-value error |
| CliArgs.ValidateLLM | utils.py:25-32 | success exactly when one of the two back-end flags is set; both set gives the "Cannot use both" parser error, neither gives the "Must use either" parser error |
| RelationTables.TablesCoverRelationIds | lib/utils.py:3-30 | every relation identifier 1..4 has an entry in all four tables |
| RelationTables.AcceptedRelationIsConfigured | lib/utils.py:46-50 | `rValue` accepts v exactly when v is a key of RELATIONS, and then v is a key of SEED_PROMPTS, SUBJ_OBJ_REQUIRED_ENTITIES and ENTITIES_OF_INTEREST |
| RelationTables.RequiredTypesAreOfInterest | lib/utils.py:3-30 | for each relation the SUBJ and OBJ lists are non-empty and every type in them is one of the relation's types of interest |
| RelationTables.SeedPromptNamesRelation | lib/utils.py:11-23 | each seed prompt is a quoted three-element list whose middle element is RELATIONS[r] |
| CandidatePairs.FilterCandidatePairs | EntityExtractor.py:75-98 | the two loops of `filter_candidate_pairs` return the type-filtered list of both orientations of every pair |
| CandidatePairs.BothOrientationsAt | EntityExtractor.py:81-87 | the intermediate list has length 2n; position 2i holds pair i with e1 as subject and position 2i+1 holds it with e2 as subject |
| CandidatePairs.BothOrientationsMembership | EntityExtractor.py:81-87 | a candidate is in the intermediate list exactly when it is one of the two orientations of some input pair |
| CandidatePairs.KeepMatchingMembership | EntityExtractor.py:89-95 | a candidate survives the type test loop exactly when it passes the SUBJ/OBJ test and was in the input |
| CandidatePairs.KeepMatchingCounts | EntityExtractor.py:89-95 | the type test keeps each passing candidate as many times as it occurs and drops every failing one |
| CandidatePairs.KeepMatchingIsSubsequence | EntityExtractor.py:89-95 | the survivors keep their input order, so the result is a subsequence no longer than the input |
| CandidatePairs.KeepMatchingIdempotent | EntityExtractor.py:89-95 | applying the type test to its own result changes nothing |
| CandidatePairs.FilteredCandidatesProvenance | EntityExtractor.py:82-94 | the filter result holds exactly the orientations of input pairs that pass the type test: tokens and entities come unaltered from one input pair |
| CandidatePairs.FilteredCandidatesShape | EntityExtractor.py:79-98 | the result has at most 2n candidates, is a subsequence of the intermediate list, each candidate passes the test and has no sentence yet, and an empty input gives an empty result |
| CandidatePairs.FilteredCandidatesAppend | EntityExtractor.py:81-95 | filtering a concatenation of pair lists equals concatenating the filtered parts |
| CandidatePairs.BothOrientationsAppend | EntityExtractor.py:81-87 | the intermediate list of a concatenation is the concatenation of the intermediate lists |
| CandidatePairs.FilterExampleSchoolsAttended | EntityExtractor.py:75-98 | for Schools_Attended and the pairs (Bezos, Amazon), (Bezos, Princeton), (Amazon, Princeton), the six orientations filter down to the two with a PERSON subject and an ORGANIZATION object, in order |
| CandidatePairs.ExtractCandidatePairs | EntityExtractor.py:102-136 | `spanBertPredictor.extract_candidate_pairs` returns each sentence's filtered candidates, in sentence order, each tagged with its sentence |
| CandidatePairs.DocumentCandidatesMembership | EntityExtractor.py:117-134 | a candidate is collected exactly when some sentence's filter keeps it (with no sentence) and its sentence is that sentence's text |
| CandidatePairs.SentenceCandidatesMembership | EntityExtractor.py:131-134 | one sentence contributes exactly its filter survivors, each with "sentence" set to the sentence text |
| CandidatePairs.DocumentCandidatesAppend | EntityExtractor.py:117-136 | the candidates of two consecutive parts of a document are those of the first part followed by those of the second |
| CandidatePairs.DocumentCandidatesEmpty | EntityExtractor.py:117-136 | a document yields no candidates exactly when no sentence has a filter survivor |
| GptOutput.ParseGptOutput | EntityExtractor.py:319-338 | the step-by-step lookups of `parse_gpt_output` compute the parser's specification function |
| GptOutput.ParsedRelationCases | EntityExtractor.py:319-338 | the parser returns None, without raising, exactly when decoding failed, SUBJ[r][0], OBJ[r][0] or "relation" is missing, or the relation is not RELATIONS[r]; otherwise it returns the values under the two type keys with RELATIONS[r] |
| GptOutput.OutputKeysDistinct | EntityExtractor.py:322-328 | the three keys the parser reads are pairwise distinct for every relation |
| GptOutput.ParseExpectedOutput | EntityExtractor.py:319-330 | round trip: an answer holding subject and object under the relation's type keys and the right relation name parses back to that subject and object |
| GptOutput.AcceptedOutputIsExpected | EntityExtractor.py:322-330 | an accepted answer agrees with the expected answer built from its result on the three keys the parser reads |
| GptOutput.ParseExamplesWorkFor | EntityExtractor.py:319-338 | for Work_For, an answer keyed "subj"/"obj" is rejected and one keyed "PERSON"/"ORGANIZATION" is accepted; under Live_In both are rejected |
| GptOutput.HeadOpensWithAid | EntityExtractor.py:383 | the prompt head starts with the fixed introduction followed by the relation's aid |
| GptOutput.PromptShape | EntityExtractor.py:383-387 | the prompt built by `GptOutput.ConstructPrompt` (the model of `construct_prompt`) is the head (introduction, aid, seed sentence and seed prompt) followed by the candidate's sentence and " Output:" |
| GptOutput.PromptSentenceRoundTrip | EntityExtractor.py:385-387 | the candidate's sentence can be read back from its prompt |
| GptOutput.PromptDeterminesSentence | EntityExtractor.py:375-387 | two candidates with the same prompt have the same sentence |
| GptOutput.SameSentenceSamePrompt | EntityExtractor.py:383-387 | two candidates get the same prompt exactly when they have the same sentence, whatever their entities: the prompt reads nothing else of the candidate |
| Predictors.SpanBert.Predict | EntityExtractor.py:169 | one model call per batch, recorded, returning the model's predictions |
| Predictors.ExtractEntityRelationPreds | EntityExtractor.py:156-178 | an empty list gives [] and the model is not called; otherwise the whole list is sent as one batch and one prediction per candidate comes back |
| Predictors.SpanBertGetRelations | EntityExtractor.py:138-154 | no candidates gives [] without a model call; otherwise the document's candidates are classified in one batch |
| Predictors.CompletionService.Complete | EntityExtractor.py:354-373 | one recorded request per prompt, answered by the endpoint's reply for that prompt |
| Predictors.ExtractEntityRelations | EntityExtractor.py:340-352 | the candidate's prompt is sent once and its reply returned |
| Predictors.PromptsFor | EntityExtractor.py:251-253 | one prompt per candidate |
| Predictors.ShownFor | EntityExtractor.py:251-256 | at most one printed relation per candidate, each naming RELATIONS[r] |
| Predictors.PromptsForAppend | EntityExtractor.py:236-253 | the prompts for a concatenation of candidate lists are the concatenated prompts |
| Predictors.ShownForAppend | EntityExtractor.py:236-256 | the printed relations for a concatenation are the concatenated printed relations |
| Predictors.Gpt3ProcessSentence | EntityExtractor.py:241-256 | one sentence sends one prompt per filtered candidate, in order, and prints the relations that parse |
| Predictors.Gpt3ExtractCandidatePairs | EntityExtractor.py:219-258 | the result is always empty; the prompts sent are those of the document's candidates in order, and the printed relations are those whose replies parse |
| Predictors.Gpt3GetRelations | EntityExtractor.py:195-217 | always returns [], after one completion request per filtered candidate of the document |

## Left out

- spaCy: model loading, sentence splitting, `get_entities` and `create_entity_pairs`. A document is given as its sentences with their entity pairs.
- `SpanBERT.predict` internals: the model is a function from a batch to predictions, assumed to return one prediction per candidate.
- `gpt3_complete`: the OpenAI request and its sampling parameters. The endpoint is a total, deterministic function from prompt to reply.
- A failing OpenAI request: at EntityExtractor.py:362-373 the request can raise, and nothing catches it (the `try` at EntityExtractor.py:320-337 covers only parsing), so `extract_candidate_pairs` and `get_relations` would stop after some prompts were sent. The model has no failing request.
- Sampling: the request samples at temperature 0.2, so identical prompts can get different replies. In the model identical prompts get the same reply. Since `construct_prompt` reads only the candidate's sentence (EntityExtractor.py:385), every candidate of one sentence sends the same prompt (`GptOutput.SameSentenceSamePrompt`), so in the model they all get one reply and `Predictors.ShownFor` repeats one relation per candidate.
- `json.loads`: its result is given as an optional string-to-string map. A JSON value that is not an object, or a failed decode, is `None`. JSON values that are not strings (numbers, lists) are not modelled.
- All `print` output, including progress messages and `print_output_relation`. The relations GPT-3 output would print are returned as `shown`.
- The string-to-number conversions `float()` and `int()` in the validators, and the errors they raise. The validators take the converted number.
- An `r` outside 1..4 and the `KeyError` it would cause in the tables. The command line admits only values `rValue` accepts.
- lib/utils.py:39-57: these repeat utils.py:4-22 line for line and are modelled by the same `CliArgs` members.
- `spaCyExtractor.extract_candidate_pairs` (EntityExtractor.py:31-73) differs from the SpanBERT variant only in its logging. `CandidatePairs.ExtractCandidatePairs` models both.
- `gpt3Predictor.filter_candidate_pairs` (EntityExtractor.py:269-299) is identical to EntityExtractor.py:75-98. `CandidatePairs.FilterCandidatePairs` models both.
- The extractor classes are not modelled as classes. They hold `r` and library handles that never change, so those are parameters.
- In-place mutation of the candidate dictionary (`candidate["sentence"] = ...`) is modelled as building an updated value. No other reference to the dictionary exists in the modelled code.
- Floats are modelled as reals plus the infinities and NaN. Rounding is not modelled.
- QueryExecutor.py is not part of this model. It is web search and HTML-scraping plumbing.
- The unused `name` table (lib/utils.py:32-35): nothing reads it. `ENTITIES_OF_INTEREST[0]` is kept in the table constant, although no relation identifier reaches it.

## Findings

| source | as written | input that shows it | evidently intended | confidence | as-written member | corrected member |
|---|---|---|---|---|---|---|
| utils.py:6 (also lib/utils.py:41) | `value < 0 or value > 1` rejects out-of-range values | `float("nan")`: both comparisons are false, so `tValue` returns NaN as a valid threshold | accept only values with 0 <= v <= 1 | not executed | CliArgs.TValue, CliArgs.TValueAcceptsNaN | CliArgs.TValueInRange |
