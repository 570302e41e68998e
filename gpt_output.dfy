/**
 * The prompted-completion side of gpt3Predictor in EntityExtractor.py:
 * building the prompt for one candidate (`construct_prompt`) and validating
 * the decoded completion (`parse_gpt_output`).
 */
module GptOutput {
  import opened Wrappers
  import opened RelationTables
  import opened CandidatePairs

  /** The dictionary `{"subj", "obj", "relation"}` that parse_gpt_output returns. */
  datatype GptRelation = GptRelation(subj: string, obj: string, relation: string)

  /** The key under which the completion must give the subject: SUBJ[r][0]. */
  function SubjectKey(r: RelationId): string
  {
    RequiredTypesAreOfInterest(r);
    SubjectTypes(r)[0]
  }

  /** The key under which the completion must give the object: OBJ[r][0]. */
  function ObjectKey(r: RelationId): string
  {
    RequiredTypesAreOfInterest(r);
    ObjectTypes(r)[0]
  }

  /**
   * What parse_gpt_output returns for the value `json.loads` produced: None
   * when decoding failed, when the subject, object or "relation" key is
   * missing, or when the relation is not RELATIONS[r]; otherwise the subject,
   * the object and the relation name.
   */
  function ParsedRelation(r: RelationId, decoded: Option<map<string, string>>): Option<GptRelation>
  {
    Validated(SubjectKey(r), ObjectKey(r), RelationName(r), decoded)
  }

  /** The validation of parse_gpt_output for given subject and object keys and relation name. */
  function Validated(subjectKey: string, objectKey: string, relationName: string,
                     decoded: Option<map<string, string>>): Option<GptRelation>
  {
    match decoded
    case None => None
    case Some(output) =>
      if subjectKey !in output || objectKey !in output || "relation" !in output then None
      else if output["relation"] != relationName then None
      else Some(GptRelation(output[subjectKey], output[objectKey], output["relation"]))
  }

  /**
   * `parse_gpt_output` (EntityExtractor.py:301-338). `decoded` is the result
   * of `json.loads(output_str)`, None when that raises or yields something
   * other than an object of strings. Each failed lookup, which the source
   * turns into an exception caught by its `except`, returns None here.
   */
  method ParseGptOutput(r: RelationId, decoded: Option<map<string, string>>)
    returns (resultantRelation: Option<GptRelation>)
    ensures resultantRelation == ParsedRelation(r, decoded)
  {
    if decoded.None? {
      return None;
    }
    var output := decoded.value;
    if SubjectKey(r) !in output {
      return None;
    }
    var subj := output[SubjectKey(r)];
    if ObjectKey(r) !in output {
      return None;
    }
    var obj := output[ObjectKey(r)];
    if "relation" !in output {
      return None;
    }
    var relation := output["relation"];
    if relation != RelationName(r) {
      resultantRelation := None;
    } else {
      resultantRelation := Some(GptRelation(subj, obj, relation));
    }
  }

  /**
   * parse_gpt_output rejects, with None and without raising, exactly when
   * decoding failed, a key it reads is missing, or the relation is not
   * RELATIONS[r]; otherwise it returns the subject and object found under
   * SUBJ[r][0] and OBJ[r][0] together with RELATIONS[r].
   */
  lemma ParsedRelationCases(r: RelationId, decoded: Option<map<string, string>>)
    ensures ParsedRelation(r, decoded).None? <==>
      decoded.None? || SubjectKey(r) !in decoded.value || ObjectKey(r) !in decoded.value ||
      "relation" !in decoded.value || decoded.value["relation"] != RelationName(r)
    ensures ParsedRelation(r, decoded).Some? ==>
      ParsedRelation(r, decoded).value ==
        GptRelation(decoded.value[SubjectKey(r)], decoded.value[ObjectKey(r)], RelationName(r))
  {
  }

  /** The completion that parse_gpt_output accepts for a subject and an object under relation r. */
  function ExpectedOutput(r: RelationId, subj: string, obj: string): map<string, string>
  {
    map[SubjectKey(r) := subj, ObjectKey(r) := obj, "relation" := RelationName(r)]
  }

  /** For every relation the three keys the parser reads are distinct. */
  lemma OutputKeysDistinct(r: RelationId)
    ensures SubjectKey(r) != ObjectKey(r)
    ensures SubjectKey(r) != "relation" && ObjectKey(r) != "relation"
  {
    assert Requirement(r) == SUBJ_OBJ_REQUIRED_ENTITIES[r];
  }

  /** Round trip: the expected completion of a subject and object parses back to them. */
  lemma ParseExpectedOutput(r: RelationId, subj: string, obj: string)
    ensures ParsedRelation(r, Some(ExpectedOutput(r, subj, obj))) == Some(GptRelation(subj, obj, RelationName(r)))
  {
    OutputKeysDistinct(r);
  }

  /**
   * Conversely, an accepted completion agrees with the expected completion of
   * what it parsed to on the three keys read; every other key is ignored.
   */
  lemma AcceptedOutputIsExpected(r: RelationId, output: map<string, string>)
    requires ParsedRelation(r, Some(output)).Some?
    ensures var g := ParsedRelation(r, Some(output)).value;
      g.relation == RelationName(r) &&
      forall k | k in ExpectedOutput(r, g.subj, g.obj) :: k in output && output[k] == ExpectedOutput(r, g.subj, g.obj)[k]
  {
    OutputKeysDistinct(r);
  }

  /**
   * Worked example for the parser. A completion keyed "subj"/"obj" is
   * rejected under Work_For and Live_In, because the parser looks the subject
   * and object up under the entity type names; keyed "PERSON"/"ORGANIZATION" it
   * is accepted under Work_For (r = 2) and rejected under Live_In (r = 3).
   */
  lemma ParseExamplesWorkFor()
    ensures var keyedByRole := map["subj" := "Alec Radford", "obj" := "OpenAI", "relation" := "Work_For"];
      ParsedRelation(2, Some(keyedByRole)) == None && ParsedRelation(3, Some(keyedByRole)) == None
    ensures var keyedByType := map["PERSON" := "Alec Radford", "ORGANIZATION" := "OpenAI", "relation" := "Work_For"];
      ParsedRelation(2, Some(keyedByType)) == Some(GptRelation("Alec Radford", "OpenAI", "Work_For")) &&
      ParsedRelation(3, Some(keyedByType)) == None
  {
    assert Requirement(2) == SUBJ_OBJ_REQUIRED_ENTITIES[2];
    assert Requirement(3) == SUBJ_OBJ_REQUIRED_ENTITIES[3];
    assert SubjectKey(2) == "PERSON" && ObjectKey(2) == "ORGANIZATION";
    assert ObjectKey(3) == "LOCATION";
  }

  // ---------------------------------------------------------------------
  // Prompt construction

  const Intro := "In a given sentence, find relations where "

  /** Everything in a prompt before the candidate's sentence: description, then seed example. */
  function PromptHead(aid: string, seedSentence: string, seedPrompt: string): string
  {
    Intro + aid + "Example Input: '" + seedSentence + "' Example Output: " + seedPrompt + "." + "Input: "
  }

  /**
   * `construct_prompt` (EntityExtractor.py:375-387): the relation's
   * description, then its seed example, then the candidate's sentence.
   * PROMPT_AIDS and SEED_SENTENCES are imported from lib/utils.py, which does
   * not define them, so they are parameters here.
   */
  function ConstructPrompt(r: RelationId, promptAids: map<int, string>, seedSentences: map<int, string>,
                           pair: Candidate): string
    requires r in promptAids && r in seedSentences && pair.sentence.Some?
  {
    PromptHead(promptAids[r], seedSentences[r], SeedPrompt(r)) + pair.sentence.value + " Output:"
  }

  /** The head opens with the introduction followed by the relation's description. */
  lemma HeadOpensWithAid(aid: string, seedSentence: string, seedPrompt: string)
    ensures |PromptHead(aid, seedSentence, seedPrompt)| >= |Intro| + |aid|
    ensures PromptHead(aid, seedSentence, seedPrompt)[..|Intro| + |aid|] == Intro + aid
  {
    var rest := "Example Input: '" + seedSentence + "' Example Output: " + seedPrompt + "." + "Input: ";
    assert PromptHead(aid, seedSentence, seedPrompt) == (Intro + aid) + rest;
  }

  /**
   * The prompt opens with the relation's description, carries the relation's
   * seed example, and ends with the candidate's sentence followed by " Output:".
   */
  lemma PromptShape(r: RelationId, promptAids: map<int, string>, seedSentences: map<int, string>, pair: Candidate)
    requires r in promptAids && r in seedSentences && pair.sentence.Some?
    ensures var prompt, head := ConstructPrompt(r, promptAids, seedSentences, pair),
                                PromptHead(promptAids[r], seedSentences[r], SeedPrompt(r));
      |prompt| == |head| + |pair.sentence.value| + 8 &&
      prompt[..|Intro| + |promptAids[r]|] == Intro + promptAids[r] &&
      prompt[..|head|] == head &&
      prompt[|head|..|prompt| - 8] == pair.sentence.value &&
      prompt[|prompt| - 8..] == " Output:"
  {
    var head := PromptHead(promptAids[r], seedSentences[r], SeedPrompt(r));
    HeadOpensWithAid(promptAids[r], seedSentences[r], SeedPrompt(r));
    var prompt := ConstructPrompt(r, promptAids, seedSentences, pair);
    assert prompt[..|head|] == head;
    assert prompt[..|Intro| + |promptAids[r]|] == head[..|Intro| + |promptAids[r]|];
  }

  /** The sentence a prompt was built for: what lies between the head and " Output:". */
  function PromptSentence(r: RelationId, promptAids: map<int, string>, seedSentences: map<int, string>,
                          prompt: string): string
    requires r in promptAids && r in seedSentences
    requires |prompt| >= |PromptHead(promptAids[r], seedSentences[r], SeedPrompt(r))| + 8
  {
    prompt[|PromptHead(promptAids[r], seedSentences[r], SeedPrompt(r))|..|prompt| - 8]
  }

  /** Round trip: the candidate's sentence can be read back from its prompt. */
  lemma PromptSentenceRoundTrip(r: RelationId, promptAids: map<int, string>, seedSentences: map<int, string>,
                                pair: Candidate)
    requires r in promptAids && r in seedSentences && pair.sentence.Some?
    ensures |ConstructPrompt(r, promptAids, seedSentences, pair)|
            >= |PromptHead(promptAids[r], seedSentences[r], SeedPrompt(r))| + 8
    ensures PromptSentence(r, promptAids, seedSentences, ConstructPrompt(r, promptAids, seedSentences, pair))
            == pair.sentence.value
  {
    PromptShape(r, promptAids, seedSentences, pair);
  }

  /** Candidates from different sentences never share a prompt. */
  lemma PromptDeterminesSentence(r: RelationId, promptAids: map<int, string>, seedSentences: map<int, string>,
                                 p: Candidate, q: Candidate)
    requires r in promptAids && r in seedSentences && p.sentence.Some? && q.sentence.Some?
    requires ConstructPrompt(r, promptAids, seedSentences, p) == ConstructPrompt(r, promptAids, seedSentences, q)
    ensures p.sentence == q.sentence
  {
    PromptSentenceRoundTrip(r, promptAids, seedSentences, p);
    PromptSentenceRoundTrip(r, promptAids, seedSentences, q);
  }

  /**
   * Conversely, the prompt reads nothing of the candidate but its sentence:
   * two candidates of one sentence, whatever their entities, share a prompt.
   */
  lemma SameSentenceSamePrompt(r: RelationId, promptAids: map<int, string>, seedSentences: map<int, string>,
                               p: Candidate, q: Candidate)
    requires r in promptAids && r in seedSentences && p.sentence.Some? && q.sentence.Some?
    ensures ConstructPrompt(r, promptAids, seedSentences, p) == ConstructPrompt(r, promptAids, seedSentences, q)
            <==> p.sentence == q.sentence
  {
    if ConstructPrompt(r, promptAids, seedSentences, p) == ConstructPrompt(r, promptAids, seedSentences, q) {
      PromptDeterminesSentence(r, promptAids, seedSentences, p, q);
    }
  }
}
