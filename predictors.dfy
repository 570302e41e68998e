/**
 * The two relation classifiers of EntityExtractor.py, spanBertPredictor and
 * gpt3Predictor, at the level of their per-document entry points. The
 * pretrained SpanBERT model and the OpenAI completion endpoint are external;
 * each is a small class here whose log of calls lets the contracts say when
 * the expensive collaborator is, and is not, invoked.
 */
module Predictors {
  import opened Wrappers
  import opened RelationTables
  import opened CandidatePairs
  import opened GptOutput

  /** One SpanBERT prediction: a relation label and its confidence. */
  datatype Prediction = Prediction(relation: string, confidence: real)

  /**
   * The pretrained SpanBERT model. Its inference is a function of the batch
   * that returns one prediction per candidate; `batches` records every call.
   */
  class SpanBert {
    const model: seq<Candidate> -> seq<Prediction>
    var batches: seq<seq<Candidate>>

    constructor (model: seq<Candidate> -> seq<Prediction>)
      requires forall cs :: |model(cs)| == |cs|
      ensures this.model == model && batches == []
    {
      this.model := model;
      batches := [];
    }

    /** SpanBERT.predict (EntityExtractor.py:169), a call into the model. */
    method Predict(candidatePairs: seq<Candidate>) returns (preds: seq<Prediction>)
      requires forall cs :: |model(cs)| == |cs|
      modifies this
      ensures batches == old(batches) + [candidatePairs]
      ensures preds == model(candidatePairs) && |preds| == |candidatePairs|
    {
      preds := model(candidatePairs);
      batches := batches + [candidatePairs];
    }
  }

  /**
   * `spanBertPredictor.extract_entity_relation_preds` (EntityExtractor.py:156-178):
   * an empty list is answered with [] before the model is reached; otherwise
   * the whole list goes to the model as one batch.
   */
  method ExtractEntityRelationPreds(spanbert: SpanBert, candidatePairs: seq<Candidate>)
    returns (relationPreds: seq<Prediction>)
    requires forall cs :: |spanbert.model(cs)| == |cs|
    modifies spanbert
    ensures |relationPreds| == |candidatePairs|
    ensures candidatePairs == [] ==> relationPreds == [] && spanbert.batches == old(spanbert.batches)
    ensures candidatePairs != [] ==>
      relationPreds == spanbert.model(candidatePairs) && spanbert.batches == old(spanbert.batches) + [candidatePairs]
  {
    if |candidatePairs| == 0 {
      return [];
    }
    relationPreds := spanbert.Predict(candidatePairs);
  }

  /**
   * `spanBertPredictor.get_relations` (EntityExtractor.py:138-154) on a
   * document already split into sentences: collect the document's candidates
   * and, unless there are none, classify them in one batch.
   */
  method SpanBertGetRelations(r: RelationId, doc: seq<Sentence>, spanbert: SpanBert)
    returns (entities: seq<Prediction>)
    requires forall cs :: |spanbert.model(cs)| == |cs|
    modifies spanbert
    ensures var candidates := DocumentCandidates(Requirement(r), doc);
      |entities| == |candidates| &&
      (candidates == [] ==> spanbert.batches == old(spanbert.batches)) &&
      (candidates != [] ==>
        entities == spanbert.model(candidates) && spanbert.batches == old(spanbert.batches) + [candidates])
  {
    var targetCandidatePairs := ExtractCandidatePairs(r, doc);
    if |targetCandidatePairs| == 0 {
      return [];
    }
    entities := ExtractEntityRelationPreds(spanbert, targetCandidatePairs);
  }

  /**
   * The OpenAI completion endpoint used by gpt3_complete (EntityExtractor.py:354-373).
   * Its answer is a function of the prompt; `prompts` records every request.
   */
  class CompletionService {
    const reply: string -> string
    var prompts: seq<string>

    constructor (reply: string -> string)
      ensures this.reply == reply && prompts == []
    {
      this.reply := reply;
      prompts := [];
    }

    method Complete(prompt: string) returns (text: string)
      modifies this
      ensures prompts == old(prompts) + [prompt] && text == reply(prompt)
    {
      text := reply(prompt);
      prompts := prompts + [prompt];
    }
  }

  /**
   * `gpt3Predictor.extract_entity_relations` (EntityExtractor.py:340-352):
   * build the candidate's prompt and send it to the completion service.
   */
  method ExtractEntityRelations(r: RelationId, promptAids: map<int, string>, seedSentences: map<int, string>,
                                service: CompletionService, pair: Candidate)
    returns (relation: string)
    requires r in promptAids && r in seedSentences && pair.sentence.Some?
    modifies service
    ensures var prompt := ConstructPrompt(r, promptAids, seedSentences, pair);
      service.prompts == old(service.prompts) + [prompt] && relation == service.reply(prompt)
  {
    var prompt := ConstructPrompt(r, promptAids, seedSentences, pair);
    relation := service.Complete(prompt);
  }

  /** The prompts gpt3Predictor sends for a list of tagged candidates, one per candidate, in order. */
  function PromptsFor(r: RelationId, promptAids: map<int, string>, seedSentences: map<int, string>,
                      cs: seq<Candidate>): (prompts: seq<string>)
    requires r in promptAids && r in seedSentences
    requires forall c | c in cs :: c.sentence.Some?
    ensures |prompts| == |cs|
  {
    if cs == [] then []
    else PromptsFor(r, promptAids, seedSentences, cs[..|cs| - 1]) + [ConstructPrompt(r, promptAids, seedSentences, cs[|cs| - 1])]
  }

  /** The relations gpt3Predictor reports for a list of tagged candidates: the completions that parse. */
  function ShownFor(r: RelationId, promptAids: map<int, string>, seedSentences: map<int, string>,
                    reply: string -> string, decode: string -> Option<map<string, string>>,
                    cs: seq<Candidate>): (shown: seq<GptRelation>)
    requires r in promptAids && r in seedSentences
    requires forall c | c in cs :: c.sentence.Some?
    ensures |shown| <= |cs|
    ensures forall g | g in shown :: g.relation == RelationName(r)
  {
    if cs == [] then []
    else
      var prompt := ConstructPrompt(r, promptAids, seedSentences, cs[|cs| - 1]);
      ShownFor(r, promptAids, seedSentences, reply, decode, cs[..|cs| - 1]) +
        match ParsedRelation(r, decode(reply(prompt)))
        case Some(g) => [g]
        case None => []
  }

  /** Extending the candidate list by one adds its prompt, and its relation when that parses. */
  lemma ForSnoc(r: RelationId, promptAids: map<int, string>, seedSentences: map<int, string>,
                reply: string -> string, decode: string -> Option<map<string, string>>,
                cs: seq<Candidate>, c: Candidate)
    requires r in promptAids && r in seedSentences
    requires forall d | d in cs :: d.sentence.Some?
    requires c.sentence.Some?
    ensures var prompt := ConstructPrompt(r, promptAids, seedSentences, c);
      PromptsFor(r, promptAids, seedSentences, cs + [c]) == PromptsFor(r, promptAids, seedSentences, cs) + [prompt] &&
      ShownFor(r, promptAids, seedSentences, reply, decode, cs + [c]) ==
        ShownFor(r, promptAids, seedSentences, reply, decode, cs) +
          match ParsedRelation(r, decode(reply(prompt)))
          case Some(g) => [g]
          case None => []
  {
    assert (cs + [c])[..|cs|] == cs;
  }

  lemma {:induction false} PromptsForAppend(r: RelationId, promptAids: map<int, string>, seedSentences: map<int, string>,
                                            a: seq<Candidate>, b: seq<Candidate>)
    requires r in promptAids && r in seedSentences
    requires forall c | c in a + b :: c.sentence.Some?
    ensures PromptsFor(r, promptAids, seedSentences, a + b)
            == PromptsFor(r, promptAids, seedSentences, a) + PromptsFor(r, promptAids, seedSentences, b)
    decreases |b|
  {
    if b == [] {
      assert a + b == a;
    } else {
      var b' := b[..|b| - 1];
      assert (a + b)[..|a + b| - 1] == a + b';
      PromptsForAppend(r, promptAids, seedSentences, a, b');
    }
  }

  lemma {:induction false} ShownForAppend(r: RelationId, promptAids: map<int, string>, seedSentences: map<int, string>,
                                          reply: string -> string, decode: string -> Option<map<string, string>>,
                                          a: seq<Candidate>, b: seq<Candidate>)
    requires r in promptAids && r in seedSentences
    requires forall c | c in a + b :: c.sentence.Some?
    ensures ShownFor(r, promptAids, seedSentences, reply, decode, a + b)
            == ShownFor(r, promptAids, seedSentences, reply, decode, a) +
               ShownFor(r, promptAids, seedSentences, reply, decode, b)
    decreases |b|
  {
    if b == [] {
      assert a + b == a;
    } else {
      var b' := b[..|b| - 1];
      assert (a + b)[..|a + b| - 1] == a + b';
      ShownForAppend(r, promptAids, seedSentences, reply, decode, a, b');
    }
  }

  /**
   * The body of the sentence loop of `gpt3Predictor.extract_candidate_pairs`
   * (EntityExtractor.py:241-256): for each filtered candidate, set its
   * sentence, ask the completion service, and parse the answer; relations
   * that parse are printed (`shown` here).
   */
  method Gpt3ProcessSentence(r: RelationId, promptAids: map<int, string>, seedSentences: map<int, string>,
                             sentence: Sentence, service: CompletionService,
                             decode: string -> Option<map<string, string>>)
    returns (shown: seq<GptRelation>)
    requires r in promptAids && r in seedSentences
    modifies service
    ensures var tagged := SentenceCandidates(Requirement(r), sentence);
      service.prompts == old(service.prompts) + PromptsFor(r, promptAids, seedSentences, tagged) &&
      shown == ShownFor(r, promptAids, seedSentences, service.reply, decode, tagged)
  {
    var candidates := FilterCandidatePairs(r, sentence.pairs);
    ghost var tagged := SentenceCandidates(Requirement(r), sentence);
    ghost var sent := service.prompts;
    assert |tagged| == |candidates|;
    shown := [];
    var j := 0;
    while j < |candidates|
      invariant 0 <= j <= |candidates| == |tagged|
      invariant service.prompts == sent + PromptsFor(r, promptAids, seedSentences, tagged[..j])
      invariant shown == ShownFor(r, promptAids, seedSentences, service.reply, decode, tagged[..j])
    {
      var candidate := candidates[j].(sentence := Some(sentence.text));
      assert candidate == tagged[j];
      var relation := ExtractEntityRelations(r, promptAids, seedSentences, service, candidate);
      var output := ParseGptOutput(r, decode(relation));
      if output.Some? {
        shown := shown + [output.value];
      }
      assert tagged[..j + 1] == tagged[..j] + [candidate];
      ForSnoc(r, promptAids, seedSentences, service.reply, decode, tagged[..j], candidate);
      j := j + 1;
    }
    assert tagged[..j] == tagged;
  }

  /**
   * `gpt3Predictor.extract_candidate_pairs` (EntityExtractor.py:219-258):
   * every filtered candidate of the document, in order, is sent to the
   * completion service and its answer parsed. Nothing is ever appended to
   * `candidate_entity_pairs`, so the returned list is always empty.
   */
  method Gpt3ExtractCandidatePairs(r: RelationId, promptAids: map<int, string>, seedSentences: map<int, string>,
                                   doc: seq<Sentence>, service: CompletionService,
                                   decode: string -> Option<map<string, string>>)
    returns (candidateEntityPairs: seq<Candidate>, shown: seq<GptRelation>)
    requires r in promptAids && r in seedSentences
    modifies service
    ensures candidateEntityPairs == []
    ensures service.prompts == old(service.prompts) + PromptsFor(r, promptAids, seedSentences, DocumentCandidates(Requirement(r), doc))
    ensures shown == ShownFor(r, promptAids, seedSentences, service.reply, decode, DocumentCandidates(Requirement(r), doc))
  {
    candidateEntityPairs := [];
    shown := [];
    ghost var sent := service.prompts;
    var i := 0;
    while i < |doc|
      invariant 0 <= i <= |doc|
      invariant service.prompts == sent + PromptsFor(r, promptAids, seedSentences, DocumentCandidates(Requirement(r), doc[..i]))
      invariant shown == ShownFor(r, promptAids, seedSentences, service.reply, decode, DocumentCandidates(Requirement(r), doc[..i]))
    {
      ghost var before := DocumentCandidates(Requirement(r), doc[..i]);
      ghost var tagged := SentenceCandidates(Requirement(r), doc[i]);
      var shownHere := Gpt3ProcessSentence(r, promptAids, seedSentences, doc[i], service, decode);
      shown := shown + shownHere;
      assert doc[..i + 1][..i] == doc[..i];
      assert DocumentCandidates(Requirement(r), doc[..i + 1]) == before + tagged;
      PromptsForAppend(r, promptAids, seedSentences, before, tagged);
      AppendAssociative(sent, PromptsFor(r, promptAids, seedSentences, before),
                        PromptsFor(r, promptAids, seedSentences, tagged));
      ShownForAppend(r, promptAids, seedSentences, service.reply, decode, before, tagged);
      i := i + 1;
    }
    assert doc[..i] == doc;
  }

  lemma AppendAssociative<T>(a: seq<T>, b: seq<T>, c: seq<T>)
    ensures (a + b) + c == a + (b + c)
  {
  }

  /**
   * `gpt3Predictor.get_relations` (EntityExtractor.py:195-217): since the
   * candidate list it receives is always empty, it always returns [], after
   * one completion request per filtered candidate of the document.
   */
  method Gpt3GetRelations(r: RelationId, promptAids: map<int, string>, seedSentences: map<int, string>,
                          doc: seq<Sentence>, service: CompletionService,
                          decode: string -> Option<map<string, string>>)
    returns (relations: seq<GptRelation>, shown: seq<GptRelation>)
    requires r in promptAids && r in seedSentences
    modifies service
    ensures relations == []
    ensures service.prompts == old(service.prompts) + PromptsFor(r, promptAids, seedSentences, DocumentCandidates(Requirement(r), doc))
    ensures shown == ShownFor(r, promptAids, seedSentences, service.reply, decode, DocumentCandidates(Requirement(r), doc))
  {
    var targetCandidatePairs;
    targetCandidatePairs, shown := Gpt3ExtractCandidatePairs(r, promptAids, seedSentences, doc, service, decode);
    relations := [];
    if |targetCandidatePairs| != 0 {
      // extract_entity_relations would be handed the whole list here
      assert false;
    }
  }
}
