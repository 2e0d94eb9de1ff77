/** The persona catalog, the upload ceiling, and lookup of a persona by id (`PERSONAS.find`). */
module Constants {
  import opened Wrappers
  import opened Types

  const Comedian: Persona :=
    Persona("comedian", "The Stand-Up", "Comedy Host",
        "Turns your recording into a witty, humorous monologue full of punchlines and observational comedy.",
        "Mic",
        "Rewrite the following text as a stand-up comedy bit. Use humor, timing, punchlines, and a casual, energetic tone. Make fun of the concepts lightly but keep the core message.",
        "from-yellow-400 to-orange-500")

  const Analyst: Persona :=
    Persona("analyst", "The Analyst", "Tech Reviewer",
        "Transforms the content into a deep-dive technical analysis, focusing on specs, logic, and structured pros/cons.",
        "Search",
        "Rewrite the following text as a technical analysis or deep-dive review. Use structured sections, bullet points, professional terminology, and a critical, objective voice.",
        "from-blue-400 to-cyan-500")

  const Storyteller: Persona :=
    Persona("storyteller", "The Narrator", "NPR Style Host",
        "Weaves your words into a compelling narrative with emotional depth, pauses, and atmospheric descriptions.",
        "BookOpen",
        "Rewrite the following text as a narrative storytelling podcast script (like This American Life). Focus on emotion, setting the scene, rhetorical questions, and a calm, soothing cadence.",
        "from-emerald-400 to-teal-500")

  const Debater: Persona :=
    Persona("debater", "The Provocateur", "Hot Take Host",
        "Takes a controversial stance on your recording, challenging the ideas and creating a high-energy debate format.",
        "Zap",
        "Rewrite the following text as a controversial, high-energy \"hot take\" radio segment. Challenge the premises, use strong language, and be opinionated and provocative.",
        "from-red-500 to-pink-600")

  const Minimalist: Persona :=
    Persona("minimalist", "The Essentialist", "Productivity Guru",
        "Distills everything down to the absolute essentials. Short, punchy, and actionable advice.",
        "Hash",
        "Rewrite the following text as a minimalist productivity tip. Strip away all fluff. Use short sentences. Focus on \"The One Thing\" and actionable steps.",
        "from-gray-400 to-white")

  const Futurist: Persona :=
    Persona("futurist", "The Futurist", "Sci-Fi Visionary",
        "Reimagines your content through the lens of future technology, AI, and the evolution of humanity.",
        "Brain",
        "Rewrite the following text from the perspective of a futurist. Connect the ideas to AI, space travel, or the year 2050. Use visionary language and speculation.",
        "from-violet-500 to-purple-600")

  /** `PERSONAS`, in display order. */
  const Personas: seq<Persona> := [Comedian, Analyst, Storyteller, Debater, Minimalist, Futurist]

  /** `p` is one of the catalog's personas. */
  predicate InCatalog(p: Persona) {
    p in Personas
  }

  /** The ids of the catalog. */
  const CatalogIdSet: set<string> := {"comedian", "analyst", "storyteller", "debater", "minimalist", "futurist"}

  /** The upload ceiling in megabytes. */
  const MaxFileSizeMb: nat := 10

  /** The ceiling in bytes that validation compares against (`MAX_FILE_SIZE_MB * 1024 * 1024`). */
  const MaxFileBytes: nat := MaxFileSizeMb * 1024 * 1024

  /** The first persona in `ps` whose id is `id`, as `Array.prototype.find` returns it. */
  function FindById(ps: seq<Persona>, id: string): (r: Option<Persona>)
    ensures r.Some? ==> exists i :: 0 <= i < |ps| && ps[i] == r.value && r.value.id == id &&
                          forall j :: 0 <= j < i ==> ps[j].id != id
    ensures r.None? <==> forall i :: 0 <= i < |ps| ==> ps[i].id != id
  {
    if ps == [] then None
    else if ps[0].id == id then Some(ps[0])
    else
      var r := FindById(ps[1..], id);
      assert r.Some? ==> exists i :: 0 <= i < |ps[1..]| && ps[1..][i] == r.value && r.value.id == id &&
                            forall j :: 0 <= j < i ==> ps[1..][j].id != id;
      assert r.Some? ==> exists i :: 1 <= i < |ps| && ps[i] == r.value && r.value.id == id &&
                            forall j :: 0 <= j < i ==> ps[j].id != id;
      r
  }

  /** `PERSONAS.find(p => p.id === id)`. */
  function FindPersona(id: string): (r: Option<Persona>)
    ensures r.Some? ==> r.value.id == id
    ensures r.Some? <==> id in CatalogIdSet
  {
    CatalogIds();
    FindById(Personas, id)
  }

  /** What the lookup finds is an entry of the catalog. */
  lemma FoundInCatalog(id: string)
    ensures FindPersona(id).Some? ==> InCatalog(FindPersona(id).value)
  {
  }

  /** No two entries of `ps` share an id. */
  predicate DistinctIds(ps: seq<Persona>) {
    forall i, j :: 0 <= i < j < |ps| ==> ps[i].id != ps[j].id
  }

  /** With distinct ids, looking up an entry's id finds that very entry. */
  lemma FindByIdUnique(ps: seq<Persona>, k: nat)
    requires DistinctIds(ps) && k < |ps|
    ensures FindById(ps, ps[k].id) == Some(ps[k])
  {
    var r := FindById(ps, ps[k].id);
    var i :| 0 <= i < |ps| && ps[i] == r.value && r.value.id == ps[k].id &&
             forall j :: 0 <= j < i ==> ps[j].id != ps[k].id;
    assert !(k < i);
    assert !(i < k);
  }

  /** The catalog holds the six personas, in this order, with pairwise distinct ids. */
  lemma CatalogIds()
    ensures |Personas| == 6
    ensures Personas[0].id == "comedian" && Personas[1].id == "analyst" && Personas[2].id == "storyteller"
    ensures Personas[3].id == "debater" && Personas[4].id == "minimalist" && Personas[5].id == "futurist"
    ensures DistinctIds(Personas)
  {
  }

  /** Looking up any catalog id yields that persona, and only that one. */
  lemma LookupCatalogId(k: nat)
    requires k < |Personas|
    ensures FindPersona(Personas[k].id) == Some(Personas[k])
  {
    CatalogIds();
    FindByIdUnique(Personas, k);
  }

  /** Every persona names itself, its role and its instruction. */
  lemma PersonasComplete()
    ensures forall p :: p in Personas ==> p.name != "" && p.role != "" && p.promptInstruction != ""
  {
  }

  /** The byte ceiling is ten mebibytes. */
  lemma MaxFileBytesValue()
    ensures MaxFileSizeMb == 10 && MaxFileBytes == 10485760
  {
  }
}
