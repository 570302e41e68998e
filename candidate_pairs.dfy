/**
 * The candidate-pair pipeline of EntityExtractor.py: the type filter
 * (`filter_candidate_pairs`) and the per-document collection of filtered
 * candidates (`extract_candidate_pairs` of spaCyExtractor and
 * spanBertPredictor). A document is given as its sentences, each carrying the
 * entity pairs that `create_entity_pairs` returns for it; sentence splitting
 * and entity recognition are done by spaCy and are not modelled.
 */
module CandidatePairs {
  import opened Wrappers
  import opened RelationTables

  /** An entity tuple from `create_entity_pairs`: `[0]` is its text, `[1]` its type. */
  datatype Entity = Entity(text: string, kind: EntityType)

  /** An entity pair `(tokens, e1, e2)` as `create_entity_pairs` returns it. */
  datatype EntityPair = EntityPair(tokens: seq<string>, e1: Entity, e2: Entity)

  /**
   * A candidate dictionary `{"tokens", "subj", "obj"}`; `sentence` is the key
   * that `extract_candidate_pairs` adds, absent (None) until then.
   */
  datatype Candidate = Candidate(tokens: seq<string>, subj: Entity, obj: Entity, sentence: Option<string>)

  /** One sentence of a document: its text (`str(sentence)`) and its entity pairs. */
  datatype Sentence = Sentence(text: string, pairs: seq<EntityPair>)

  /** The candidate with e1 as subject and e2 as object. */
  function Forward(ep: EntityPair): Candidate
  {
    Candidate(ep.tokens, ep.e1, ep.e2, None)
  }

  /** The candidate with e2 as subject and e1 as object. */
  function Backward(ep: EntityPair): Candidate
  {
    Candidate(ep.tokens, ep.e2, ep.e1, None)
  }

  /** The filter's type test against one SUBJ_OBJ_REQUIRED_ENTITIES entry. */
  predicate Matches(req: TypeRequirement, c: Candidate)
  {
    c.subj.kind in req.subj && c.obj.kind in req.obj
  }

  /** The intermediate `candidate_pairs` list: both orientations of every pair, in input order. */
  function BothOrientations(eps: seq<EntityPair>): seq<Candidate>
  {
    if eps == [] then []
    else BothOrientations(eps[..|eps| - 1]) + [Forward(eps[|eps| - 1]), Backward(eps[|eps| - 1])]
  }

  /** The candidates of cs that pass the type test, in their order. */
  function KeepMatching(req: TypeRequirement, cs: seq<Candidate>): seq<Candidate>
  {
    if cs == [] then []
    else KeepMatching(req, cs[..|cs| - 1]) + (if Matches(req, cs[|cs| - 1]) then [cs[|cs| - 1]] else [])
  }

  /** What `filter_candidate_pairs` returns for the entity pairs of one sentence. */
  function FilteredCandidates(req: TypeRequirement, eps: seq<EntityPair>): seq<Candidate>
  {
    KeepMatching(req, BothOrientations(eps))
  }

  /**
   * `filter_candidate_pairs` (EntityExtractor.py:75-98, repeated at 269-299):
   * the first loop appends both orientations of each pair, the second keeps
   * the candidates whose subject and object types the relation requires.
   */
  method FilterCandidatePairs(r: RelationId, sentenceEntityPairs: seq<EntityPair>)
    returns (targetCandidatePairs: seq<Candidate>)
    ensures targetCandidatePairs == FilteredCandidates(Requirement(r), sentenceEntityPairs)
  {
    var candidatePairs: seq<Candidate> := [];
    var i := 0;
    while i < |sentenceEntityPairs|
      invariant 0 <= i <= |sentenceEntityPairs|
      invariant candidatePairs == BothOrientations(sentenceEntityPairs[..i])
    {
      var ep := sentenceEntityPairs[i];
      candidatePairs := candidatePairs + [Candidate(ep.tokens, ep.e1, ep.e2, None)];
      candidatePairs := candidatePairs + [Candidate(ep.tokens, ep.e2, ep.e1, None)];
      assert sentenceEntityPairs[..i + 1][..i] == sentenceEntityPairs[..i];
      i := i + 1;
    }
    assert sentenceEntityPairs[..i] == sentenceEntityPairs;

    targetCandidatePairs := [];
    var j := 0;
    while j < |candidatePairs|
      invariant 0 <= j <= |candidatePairs|
      invariant targetCandidatePairs == KeepMatching(Requirement(r), candidatePairs[..j])
    {
      var p := candidatePairs[j];
      if p.subj.kind in SubjectTypes(r) && p.obj.kind in ObjectTypes(r) {
        targetCandidatePairs := targetCandidatePairs + [p];
      }
      assert candidatePairs[..j + 1][..j] == candidatePairs[..j];
      j := j + 1;
    }
    assert candidatePairs[..j] == candidatePairs;
  }

  /** The filtered candidates of one sentence, each given that sentence's text. */
  function SentenceCandidates(req: TypeRequirement, s: Sentence): (tagged: seq<Candidate>)
    ensures forall c | c in tagged :: c.sentence == Some(s.text)
  {
    var cs := FilteredCandidates(req, s.pairs);
    seq(|cs|, k requires 0 <= k < |cs| => cs[k].(sentence := Some(s.text)))
  }

  /** What `extract_candidate_pairs` returns: the sentences' candidates, concatenated in order. */
  function DocumentCandidates(req: TypeRequirement, doc: seq<Sentence>): (cs: seq<Candidate>)
    ensures forall c | c in cs :: c.sentence.Some?
  {
    if doc == [] then []
    else DocumentCandidates(req, doc[..|doc| - 1]) + SentenceCandidates(req, doc[|doc| - 1])
  }

  /**
   * `spanBertPredictor.extract_candidate_pairs` (EntityExtractor.py:102-136;
   * `spaCyExtractor.extract_candidate_pairs` at 31-73 differs only in its
   * logging): filter each sentence's pairs, set each survivor's "sentence"
   * and append it to the result.
   */
  method ExtractCandidatePairs(r: RelationId, doc: seq<Sentence>)
    returns (candidateEntityPairs: seq<Candidate>)
    ensures candidateEntityPairs == DocumentCandidates(Requirement(r), doc)
  {
    candidateEntityPairs := [];
    var i := 0;
    while i < |doc|
      invariant 0 <= i <= |doc|
      invariant candidateEntityPairs == DocumentCandidates(Requirement(r), doc[..i])
    {
      var sentence := doc[i];
      var candidates := FilterCandidatePairs(r, sentence.pairs);
      ghost var tagged := SentenceCandidates(Requirement(r), sentence);
      var j := 0;
      while j < |candidates|
        invariant 0 <= j <= |candidates|
        invariant candidateEntityPairs == DocumentCandidates(Requirement(r), doc[..i]) + tagged[..j]
      {
        var candidate := candidates[j].(sentence := Some(sentence.text));
        candidateEntityPairs := candidateEntityPairs + [candidate];
        assert tagged[..j + 1] == tagged[..j] + [candidate];
        j := j + 1;
      }
      assert tagged[..j] == tagged;
      assert doc[..i + 1][..i] == doc[..i];
      i := i + 1;
    }
    assert doc[..i] == doc;
  }

  // ---------------------------------------------------------------------
  // Properties of the type filter

  /** xs can be obtained from ys by deleting elements. */
  predicate IsSubsequence<T(==)>(xs: seq<T>, ys: seq<T>)
    decreases |ys|
  {
    xs == [] ||
    (ys != [] &&
     (IsSubsequence(xs, ys[..|ys| - 1]) ||
      (xs[|xs| - 1] == ys[|ys| - 1] && IsSubsequence(xs[..|xs| - 1], ys[..|ys| - 1]))))
  }

  /**
   * Each input pair contributes two intermediate candidates, first with e1 as
   * subject, then with e2 as subject, so the intermediate list is twice as long.
   */
  lemma {:induction false} BothOrientationsAt(eps: seq<EntityPair>)
    ensures |BothOrientations(eps)| == 2 * |eps|
    ensures forall i :: 0 <= i < |eps| ==>
      BothOrientations(eps)[2 * i] == Forward(eps[i]) && BothOrientations(eps)[2 * i + 1] == Backward(eps[i])
  {
    if eps != [] {
      var init := eps[..|eps| - 1];
      BothOrientationsAt(init);
      forall i | 0 <= i < |eps|
        ensures BothOrientations(eps)[2 * i] == Forward(eps[i])
        ensures BothOrientations(eps)[2 * i + 1] == Backward(eps[i])
      {
        if i < |eps| - 1 {
          assert eps[i] == init[i];
        }
      }
    }
  }

  /** Filtering a concatenation filters each part. */
  lemma {:induction false} KeepMatchingAppend(req: TypeRequirement, a: seq<Candidate>, b: seq<Candidate>)
    ensures KeepMatching(req, a + b) == KeepMatching(req, a) + KeepMatching(req, b)
    decreases |b|
  {
    if b == [] {
      assert a + b == a;
    } else {
      var b' := b[..|b| - 1];
      assert (a + b)[..|a + b| - 1] == a + b';
      KeepMatchingAppend(req, a, b');
    }
  }

  /**
   * The filter keeps every candidate that passes the type test, as often as it
   * occurs, and nothing else.
   */
  lemma {:induction false} KeepMatchingCounts(req: TypeRequirement, cs: seq<Candidate>)
    ensures forall c :: multiset(KeepMatching(req, cs))[c] == if Matches(req, c) then multiset(cs)[c] else 0
  {
    if cs != [] {
      var init, last := cs[..|cs| - 1], cs[|cs| - 1];
      KeepMatchingCounts(req, init);
      assert cs == init + [last];
    }
  }

  /** The filter keeps its survivors in their input order, so it never lengthens its input. */
  lemma {:induction false} KeepMatchingIsSubsequence(req: TypeRequirement, cs: seq<Candidate>)
    ensures IsSubsequence(KeepMatching(req, cs), cs)
    ensures |KeepMatching(req, cs)| <= |cs|
  {
    if cs != [] {
      var init := cs[..|cs| - 1];
      KeepMatchingIsSubsequence(req, init);
      var kept := KeepMatching(req, cs);
      if Matches(req, cs[|cs| - 1]) {
        assert kept[..|kept| - 1] == KeepMatching(req, init);
        assert kept[|kept| - 1] == cs[|cs| - 1];
      } else {
        assert kept == KeepMatching(req, init);
        assert IsSubsequence(kept, cs[..|cs| - 1]);
      }
    }
  }

  /** Filtering an already filtered list changes nothing. */
  lemma {:induction false} KeepMatchingIdempotent(req: TypeRequirement, cs: seq<Candidate>)
    ensures KeepMatching(req, KeepMatching(req, cs)) == KeepMatching(req, cs)
  {
    if cs != [] {
      var init, last := cs[..|cs| - 1], cs[|cs| - 1];
      KeepMatchingIdempotent(req, init);
      var tail := if Matches(req, last) then [last] else [];
      KeepMatchingAppend(req, KeepMatching(req, init), tail);
      if Matches(req, last) {
        assert KeepMatching(req, tail) == KeepMatching(req, [])  + [last] by {
          assert tail[..0] == [];
        }
      }
    }
  }

  /** A candidate survives the filter exactly when it passes the type test and was in the input. */
  lemma {:induction false} KeepMatchingMembership(req: TypeRequirement, cs: seq<Candidate>, c: Candidate)
    ensures c in KeepMatching(req, cs) <==> Matches(req, c) && c in cs
  {
    if cs != [] {
      var init := cs[..|cs| - 1];
      KeepMatchingMembership(req, init, c);
      assert cs == init + [cs[|cs| - 1]];
    }
  }

  /** The intermediate list holds exactly the two orientations of each input pair. */
  lemma {:induction false} BothOrientationsMembership(eps: seq<EntityPair>, c: Candidate)
    ensures c in BothOrientations(eps) <==>
      exists i :: 0 <= i < |eps| && (c == Forward(eps[i]) || c == Backward(eps[i]))
  {
    if eps != [] {
      var init, last := eps[..|eps| - 1], eps[|eps| - 1];
      BothOrientationsMembership(init, c);
      assert BothOrientations(eps) == BothOrientations(init) + [Forward(last), Backward(last)];
      ExistsOrientationSnoc(eps, init, c);
    }
  }

  /** Splitting the search for c's pair into the earlier pairs and the last one. */
  lemma ExistsOrientationSnoc(eps: seq<EntityPair>, init: seq<EntityPair>, c: Candidate)
    requires eps != [] && init == eps[..|eps| - 1]
    ensures (exists i :: 0 <= i < |eps| && (c == Forward(eps[i]) || c == Backward(eps[i]))) <==>
      (exists i :: 0 <= i < |init| && (c == Forward(init[i]) || c == Backward(init[i]))) ||
      c == Forward(eps[|eps| - 1]) || c == Backward(eps[|eps| - 1])
  {
    if exists i :: 0 <= i < |init| && (c == Forward(init[i]) || c == Backward(init[i])) {
      var i :| 0 <= i < |init| && (c == Forward(init[i]) || c == Backward(init[i]));
      assert eps[i] == init[i];
    }
  }

  /**
   * The survivors of filter_candidate_pairs are exactly the orientations of
   * input pairs that pass the type test: none is invented or altered, each
   * keeps its pair's tokens and two entities, and none is dropped.
   */
  lemma FilteredCandidatesProvenance(req: TypeRequirement, eps: seq<EntityPair>, c: Candidate)
    ensures c in FilteredCandidates(req, eps) <==>
      Matches(req, c) && exists i :: 0 <= i < |eps| && (c == Forward(eps[i]) || c == Backward(eps[i]))
  {
    KeepMatchingMembership(req, BothOrientations(eps), c);
    BothOrientationsMembership(eps, c);
  }

  /**
   * The filter result is at most twice as long as its input, is in input
   * order, holds only candidates that pass the type test, carries no
   * sentence yet, and is empty, without error, for an empty input.
   */
  lemma FilteredCandidatesShape(req: TypeRequirement, eps: seq<EntityPair>)
    ensures |FilteredCandidates(req, eps)| <= 2 * |eps|
    ensures IsSubsequence(FilteredCandidates(req, eps), BothOrientations(eps))
    ensures forall c | c in FilteredCandidates(req, eps) :: Matches(req, c) && c.sentence == None
    ensures eps == [] ==> FilteredCandidates(req, eps) == []
  {
    BothOrientationsAt(eps);
    KeepMatchingIsSubsequence(req, BothOrientations(eps));
    forall c | c in FilteredCandidates(req, eps) ensures Matches(req, c) && c.sentence == None {
      FilteredCandidatesProvenance(req, eps, c);
    }
  }

  /** Filtering the pairs of two sentences at once equals filtering each. */
  lemma {:induction false} FilteredCandidatesAppend(req: TypeRequirement, a: seq<EntityPair>, b: seq<EntityPair>)
    ensures FilteredCandidates(req, a + b) == FilteredCandidates(req, a) + FilteredCandidates(req, b)
  {
    BothOrientationsAppend(a, b);
    KeepMatchingAppend(req, BothOrientations(a), BothOrientations(b));
  }

  lemma {:induction false} BothOrientationsAppend(a: seq<EntityPair>, b: seq<EntityPair>)
    ensures BothOrientations(a + b) == BothOrientations(a) + BothOrientations(b)
    decreases |b|
  {
    if b == [] {
      assert a + b == a;
    } else {
      var b' := b[..|b| - 1];
      assert (a + b)[..|a + b| - 1] == a + b';
      BothOrientationsAppend(a, b');
    }
  }

  /**
   * Worked example: "Jeff Bezos founded Amazon, but previously worked at
   * Princeton University." under Schools_Attended (r = 1). Of the six
   * orientations of the three pairs, the filter keeps the two with a PERSON
   * subject and an ORGANIZATION object, in order.
   */
  lemma FilterExampleSchoolsAttended(tokens: seq<string>)
    ensures var bezos, amazon, princeton :=
              Entity("Jeff Bezos", "PERSON"), Entity("Amazon", "ORGANIZATION"),
              Entity("Princeton University", "ORGANIZATION");
            var eps := [EntityPair(tokens, bezos, amazon), EntityPair(tokens, bezos, princeton),
                        EntityPair(tokens, amazon, princeton)];
            |BothOrientations(eps)| == 6 &&
            FilteredCandidates(Requirement(1), eps) ==
              [Candidate(tokens, bezos, amazon, None), Candidate(tokens, bezos, princeton, None)]
  {
    var bezos, amazon, princeton :=
      Entity("Jeff Bezos", "PERSON"), Entity("Amazon", "ORGANIZATION"),
      Entity("Princeton University", "ORGANIZATION");
    var eps := [EntityPair(tokens, bezos, amazon), EntityPair(tokens, bezos, princeton),
                EntityPair(tokens, amazon, princeton)];
    var req := Requirement(1);
    assert req == TypeRequirement(["PERSON"], ["ORGANIZATION"]);
    assert "ORGANIZATION" !in req.subj && "PERSON" !in req.obj;
    var c0, c1, c2, c3, c4, c5 := Forward(eps[0]), Backward(eps[0]), Forward(eps[1]),
                                  Backward(eps[1]), Forward(eps[2]), Backward(eps[2]);
    BothOrientationsAt(eps);
    assert BothOrientations(eps) == [c0, c1, c2, c3, c4, c5];
    KeepMatchingSnoc(req, [], c0);
    assert [] + [c0] == [c0];
    assert KeepMatching(req, [c0]) == [c0];
    KeepMatchingSnoc(req, [c0], c1);
    assert [c0] + [c1] == [c0, c1];
    assert KeepMatching(req, [c0, c1]) == [c0];
    KeepMatchingSnoc(req, [c0, c1], c2);
    assert [c0, c1] + [c2] == [c0, c1, c2];
    assert KeepMatching(req, [c0, c1, c2]) == [c0, c2];
    KeepMatchingSnoc(req, [c0, c1, c2], c3);
    assert [c0, c1, c2] + [c3] == [c0, c1, c2, c3];
    assert KeepMatching(req, [c0, c1, c2, c3]) == [c0, c2];
    KeepMatchingSnoc(req, [c0, c1, c2, c3], c4);
    assert [c0, c1, c2, c3] + [c4] == [c0, c1, c2, c3, c4];
    assert KeepMatching(req, [c0, c1, c2, c3, c4]) == [c0, c2];
    KeepMatchingSnoc(req, [c0, c1, c2, c3, c4], c5);
    assert [c0, c1, c2, c3, c4] + [c5] == [c0, c1, c2, c3, c4, c5];
    assert KeepMatching(req, [c0, c1, c2, c3, c4, c5]) == [c0, c2];
  }

  /** Appending one candidate to the filter's input appends it to the output exactly when it passes. */
  lemma KeepMatchingSnoc(req: TypeRequirement, cs: seq<Candidate>, c: Candidate)
    ensures KeepMatching(req, cs + [c]) == KeepMatching(req, cs) + if Matches(req, c) then [c] else []
  {
    assert (cs + [c])[..|cs|] == cs;
  }

  // ---------------------------------------------------------------------
  // Properties of the per-document collection

  /** The candidates of a document are those of its first part followed by those of the rest. */
  lemma {:induction false} DocumentCandidatesAppend(req: TypeRequirement, a: seq<Sentence>, b: seq<Sentence>)
    ensures DocumentCandidates(req, a + b) == DocumentCandidates(req, a) + DocumentCandidates(req, b)
    decreases |b|
  {
    if b == [] {
      assert a + b == a;
    } else {
      var b' := b[..|b| - 1];
      assert (a + b)[..|a + b| - 1] == a + b';
      DocumentCandidatesAppend(req, a, b');
    }
  }

  /** A sentence contributes its filtered candidates, each tagged with the sentence's text. */
  lemma SentenceCandidatesMembership(req: TypeRequirement, s: Sentence, c: Candidate)
    ensures c in SentenceCandidates(req, s) <==>
      c.sentence == Some(s.text) && c.(sentence := None) in FilteredCandidates(req, s.pairs)
  {
    var cs := FilteredCandidates(req, s.pairs);
    FilteredCandidatesShape(req, s.pairs);
    if c in SentenceCandidates(req, s) {
      var k :| 0 <= k < |cs| && SentenceCandidates(req, s)[k] == c;
      assert c.(sentence := None) == cs[k];
    }
    if c.sentence == Some(s.text) && c.(sentence := None) in cs {
      var k :| 0 <= k < |cs| && cs[k] == c.(sentence := None);
      assert SentenceCandidates(req, s)[k] == c;
    }
  }

  /**
   * Every candidate of a document comes from one of its sentences: it is a
   * filter survivor of that sentence's pairs, with "sentence" set to that
   * sentence's text; and every such survivor is collected.
   */
  lemma {:induction false} DocumentCandidatesMembership(req: TypeRequirement, doc: seq<Sentence>, c: Candidate)
    ensures c in DocumentCandidates(req, doc) <==>
      exists k :: 0 <= k < |doc| && c.sentence == Some(doc[k].text) &&
        c.(sentence := None) in FilteredCandidates(req, doc[k].pairs)
  {
    if doc != [] {
      var init, last := doc[..|doc| - 1], doc[|doc| - 1];
      DocumentCandidatesMembership(req, init, c);
      SentenceCandidatesMembership(req, last, c);
      if exists k :: 0 <= k < |doc| && c.sentence == Some(doc[k].text) &&
           c.(sentence := None) in FilteredCandidates(req, doc[k].pairs) {
        var k :| 0 <= k < |doc| && c.sentence == Some(doc[k].text) &&
           c.(sentence := None) in FilteredCandidates(req, doc[k].pairs);
        if k < |doc| - 1 {
          assert doc[k] == init[k];
        }
      }
      if exists k :: 0 <= k < |init| && c.sentence == Some(init[k].text) &&
           c.(sentence := None) in FilteredCandidates(req, init[k].pairs) {
        var k :| 0 <= k < |init| && c.sentence == Some(init[k].text) &&
           c.(sentence := None) in FilteredCandidates(req, init[k].pairs);
        assert doc[k] == init[k];
      }
    }
  }

  /** A document yields no candidates exactly when no sentence has a filter survivor. */
  lemma {:induction false} DocumentCandidatesEmpty(req: TypeRequirement, doc: seq<Sentence>)
    ensures DocumentCandidates(req, doc) == [] <==>
      forall k :: 0 <= k < |doc| ==> FilteredCandidates(req, doc[k].pairs) == []
  {
    if doc != [] {
      var init := doc[..|doc| - 1];
      DocumentCandidatesEmpty(req, init);
      forall k | 0 <= k < |doc| - 1 ensures doc[k] == init[k] { }
    }
  }
}
