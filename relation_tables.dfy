/**
 * The per-relation configuration tables of lib/utils.py, keyed by the
 * relation identifier `r`, and the facts about them that the extraction
 * pipeline relies on.
 */
module RelationTables {
  import CliArgs

  /** An entity type label as spaCy reports it, such as "PERSON". */
  type EntityType = string

  /** The relation identifiers that `rValue` admits. */
  type RelationId = r: int | 1 <= r <= 4 witness 1

  /** One entry of SUBJ_OBJ_REQUIRED_ENTITIES: its "SUBJ" and "OBJ" lists. */
  datatype TypeRequirement = TypeRequirement(subj: seq<EntityType>, obj: seq<EntityType>)

  const ENTITIES_OF_INTEREST: map<int, seq<EntityType>> := map[
    0 := ["PERSON", "ORGANIZATION", "LOCATION", "CITY", "STATE_OR_PROVINCE", "COUNTRY"],
    1 := ["PERSON", "ORGANIZATION"],
    2 := ["PERSON", "ORGANIZATION"],
    3 := ["PERSON", "LOCATION", "CITY", "STATE_OR_PROVINCE", "COUNTRY"],
    4 := ["ORGANIZATION", "PERSON"]
  ]

  const RELATIONS: map<int, string> := map[
    1 := "Schools_Attended",
    2 := "Work_For",
    3 := "Live_In",
    4 := "Top_Member_Employees"
  ]

  const SEED_PROMPTS: map<int, string> := map[
    1 := "[\"Jeff Bezos\", \"Schools_Attended\", \"Princeton University\"]",
    2 := "[\"Alec Radford\", \"Work_For\", \"OpenAI\"]",
    3 := "[\"Mariah Carey\", \"Live_In\", \"New York City\"]",
    4 := "[\"Jensen Huang\", \"Top_Member_Employees\", \"Nvidia\"]"
  ]

  const SUBJ_OBJ_REQUIRED_ENTITIES: map<int, TypeRequirement> := map[
    1 := TypeRequirement(["PERSON"], ["ORGANIZATION"]),
    2 := TypeRequirement(["PERSON"], ["ORGANIZATION"]),
    3 := TypeRequirement(["PERSON"], ["LOCATION", "CITY", "STATE_OR_PROVINCE", "COUNTRY"]),
    4 := TypeRequirement(["ORGANIZATION"], ["PERSON"])
  ]

  /** Every table has an entry for each identifier 1..4. */
  lemma TablesCoverRelationIds(r: RelationId)
    ensures r in ENTITIES_OF_INTEREST && r in RELATIONS
    ensures r in SEED_PROMPTS && r in SUBJ_OBJ_REQUIRED_ENTITIES
  {
  }

  /** SUBJ_OBJ_REQUIRED_ENTITIES[r]. */
  function Requirement(r: RelationId): TypeRequirement
  {
    TablesCoverRelationIds(r);
    SUBJ_OBJ_REQUIRED_ENTITIES[r]
  }

  /** SUBJ_OBJ_REQUIRED_ENTITIES[r]["SUBJ"]. */
  function SubjectTypes(r: RelationId): seq<EntityType>
  {
    Requirement(r).subj
  }

  /** SUBJ_OBJ_REQUIRED_ENTITIES[r]["OBJ"]. */
  function ObjectTypes(r: RelationId): seq<EntityType>
  {
    Requirement(r).obj
  }

  /** RELATIONS[r], the canonical relation name. */
  function RelationName(r: RelationId): string
  {
    TablesCoverRelationIds(r);
    RELATIONS[r]
  }

  /** SEED_PROMPTS[r]. */
  function SeedPrompt(r: RelationId): string
  {
    TablesCoverRelationIds(r);
    SEED_PROMPTS[r]
  }

  /** ENTITIES_OF_INTEREST[r]. */
  function InterestTypes(r: RelationId): seq<EntityType>
  {
    TablesCoverRelationIds(r);
    ENTITIES_OF_INTEREST[r]
  }

  /**
   * An identifier passes `rValue` exactly when it names a relation, and then
   * every table the pipeline consults has an entry for it.
   */
  lemma AcceptedRelationIsConfigured(v: int)
    ensures CliArgs.RValue(v).Success? <==> v in RELATIONS
    ensures CliArgs.RValue(v).Success? <==>
      v in SEED_PROMPTS && v in SUBJ_OBJ_REQUIRED_ENTITIES && v in ENTITIES_OF_INTEREST && v != 0
  {
  }

  /**
   * The required subject and object lists are never empty, so the `[0]`
   * lookups in parse_gpt_output are defined, and every required type is one
   * of the types of interest the pair generator draws entities from.
   */
  lemma RequiredTypesAreOfInterest(r: RelationId)
    ensures |SubjectTypes(r)| > 0 && |ObjectTypes(r)| > 0
    ensures forall t | t in SubjectTypes(r) :: t in InterestTypes(r)
    ensures forall t | t in ObjectTypes(r) :: t in InterestTypes(r)
  {
  }

  /** A JSON-style list of three quoted strings, as the seed prompts are written. */
  function QuotedTriple(a: string, b: string, c: string): string
  {
    "[\"" + a + "\", \"" + b + "\", \"" + c + "\"]"
  }

  /** Each seed prompt is a quoted triple whose middle element is RELATIONS[r]. */
  lemma SeedPromptNamesRelation(r: RelationId)
    ensures exists subj, obj :: SeedPrompt(r) == QuotedTriple(subj, RelationName(r), obj)
  {
    var subj, obj := SeedSubject(r), SeedObject(r);
    SeedPromptIsTriple(r);
    assert SeedPrompt(r) == QuotedTriple(subj, RelationName(r), obj);
  }

  /** The subject of each seed example. */
  function SeedSubject(r: RelationId): string
  {
    match r
    case 1 => "Jeff Bezos"
    case 2 => "Alec Radford"
    case 3 => "Mariah Carey"
    case _ => "Jensen Huang"
  }

  /** The object of each seed example. */
  function SeedObject(r: RelationId): string
  {
    match r
    case 1 => "Princeton University"
    case 2 => "OpenAI"
    case 3 => "New York City"
    case _ => "Nvidia"
  }

  /** Each seed prompt, split into its subject, relation name and object. */
  lemma SeedPromptIsTriple(r: RelationId)
    ensures SeedPrompt(r) == QuotedTriple(SeedSubject(r), RelationName(r), SeedObject(r))
  {
    if r == 1 { SeedPrompt1(); }
    else if r == 2 { SeedPrompt2(); }
    else if r == 3 { SeedPrompt3(); }
    else { SeedPrompt4(); }
  }

  // The literal proofs below concatenate the pieces one at a time, because a
  // single equation between a long literal and a concatenation is too costly.

  lemma SeedPrompt1()
    ensures SEED_PROMPTS[1] == QuotedTriple("Jeff Bezos", "Schools_Attended", "Princeton University")
  {
    assert SEED_PROMPTS[1] == "[\"Jeff Bezos\", \"Schools_Attended\", \"Princeton University\"]";
    var s := "[\"" + "Jeff Bezos" + "\", \"" + "Schools_Attended";
    SeedPromptFront1();
    s := s + "\", \"";
    assert s == "[\"Jeff Bezos\", \"Schools_Attended\", \"";
    s := s + "Princeton University";
    assert s == "[\"Jeff Bezos\", \"Schools_Attended\", \"Princeton University";
    s := s + "\"]";
    assert s == "[\"Jeff Bezos\", \"Schools_Attended\", \"Princeton University\"]";
  }

  lemma SeedPromptFront1()
    ensures "[\"" + "Jeff Bezos" + "\", \"" + "Schools_Attended" == "[\"Jeff Bezos\", \"Schools_Attended"
  {
    var s := "[\"" + "Jeff Bezos";
    assert s == "[\"Jeff Bezos";
    s := s + "\", \"";
    assert s == "[\"Jeff Bezos\", \"";
    s := s + "Schools_Attended";
    assert s == "[\"Jeff Bezos\", \"Schools_Attended";
  }

  lemma SeedPrompt2()
    ensures SEED_PROMPTS[2] == QuotedTriple("Alec Radford", "Work_For", "OpenAI")
  {
    assert SEED_PROMPTS[2] == "[\"Alec Radford\", \"Work_For\", \"OpenAI\"]";
    var s := "[\"" + "Alec Radford" + "\", \"" + "Work_For";
    SeedPromptFront2();
    s := s + "\", \"";
    assert s == "[\"Alec Radford\", \"Work_For\", \"";
    s := s + "OpenAI";
    assert s == "[\"Alec Radford\", \"Work_For\", \"OpenAI";
    s := s + "\"]";
    assert s == "[\"Alec Radford\", \"Work_For\", \"OpenAI\"]";
  }

  lemma SeedPromptFront2()
    ensures "[\"" + "Alec Radford" + "\", \"" + "Work_For" == "[\"Alec Radford\", \"Work_For"
  {
    var s := "[\"" + "Alec Radford";
    assert s == "[\"Alec Radford";
    s := s + "\", \"";
    assert s == "[\"Alec Radford\", \"";
    s := s + "Work_For";
    assert s == "[\"Alec Radford\", \"Work_For";
  }

  lemma SeedPrompt3()
    ensures SEED_PROMPTS[3] == QuotedTriple("Mariah Carey", "Live_In", "New York City")
  {
    assert SEED_PROMPTS[3] == "[\"Mariah Carey\", \"Live_In\", \"New York City\"]";
    var s := "[\"" + "Mariah Carey" + "\", \"" + "Live_In";
    SeedPromptFront3();
    s := s + "\", \"";
    assert s == "[\"Mariah Carey\", \"Live_In\", \"";
    s := s + "New York City";
    assert s == "[\"Mariah Carey\", \"Live_In\", \"New York City";
    s := s + "\"]";
    assert s == "[\"Mariah Carey\", \"Live_In\", \"New York City\"]";
  }

  lemma SeedPromptFront3()
    ensures "[\"" + "Mariah Carey" + "\", \"" + "Live_In" == "[\"Mariah Carey\", \"Live_In"
  {
    var s := "[\"" + "Mariah Carey";
    assert s == "[\"Mariah Carey";
    s := s + "\", \"";
    assert s == "[\"Mariah Carey\", \"";
    s := s + "Live_In";
    assert s == "[\"Mariah Carey\", \"Live_In";
  }

  lemma SeedPrompt4()
    ensures SEED_PROMPTS[4] == QuotedTriple("Jensen Huang", "Top_Member_Employees", "Nvidia")
  {
    assert SEED_PROMPTS[4] == "[\"Jensen Huang\", \"Top_Member_Employees\", \"Nvidia\"]";
    var s := "[\"" + "Jensen Huang" + "\", \"" + "Top_Member_Employees";
    SeedPromptFront4();
    s := s + "\", \"";
    assert s == "[\"Jensen Huang\", \"Top_Member_Employees\", \"";
    s := s + "Nvidia";
    assert s == "[\"Jensen Huang\", \"Top_Member_Employees\", \"Nvidia";
    s := s + "\"]";
    assert s == "[\"Jensen Huang\", \"Top_Member_Employees\", \"Nvidia\"]";
  }

  lemma SeedPromptFront4()
    ensures "[\"" + "Jensen Huang" + "\", \"" + "Top_Member_Employees" == "[\"Jensen Huang\", \"Top_Member_Employees"
  {
    var s := "[\"" + "Jensen Huang";
    assert s == "[\"Jensen Huang";
    s := s + "\", \"";
    assert s == "[\"Jensen Huang\", \"";
    s := s + "Top_Member_Employees";
    assert s == "[\"Jensen Huang\", \"Top_Member_Employees";
  }
}
