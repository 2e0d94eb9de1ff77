/** The text and file name of the plain-text script download (`downloadScript` in App.tsx). */
module Script {
  import opened Wrappers
  import opened Types
  import opened Text
  import Constants

  /** A download: the file's text and its name. */
  datatype ScriptFile = ScriptFile(content: string, fileName: string)

  /** The name used in place of a file name when the result was restored from history. */
  const RestoredName: string := "restored_session"

  /** `audioFile.file.name.split('.')[0]`, or `'restored_session'` without an audio file. */
  function SourceName(audio: Option<AudioFile>): (r: string)
    ensures audio.None? ==> r == RestoredName
    ensures audio.Some? ==> r <= audio.value.file.name && '.' !in r
    ensures audio.Some? && |r| < |audio.value.file.name| ==> audio.value.file.name[|r|] == '.'
  {
    match audio
    case Some(a) => BeforeFirst(a.file.name, '.')
    case None => RestoredName
  }

  /** `${persona?.name}`: the name, or the text "undefined" when the lookup found nothing. */
  function PersonaName(p: Option<Persona>): (r: string)
    ensures p.Some? ==> r == p.value.name
    ensures p.None? ==> r == "undefined"
  {
    match p
    case Some(q) => q.name
    case None => "undefined"
  }

  /** `${persona?.name.replace(/\s+/g, '_')}`: the name with each run of white space turned into `_`. */
  function PersonaSlug(p: Option<Persona>): (r: string)
    ensures NoWhitespace(r)
    ensures p.None? ==> r == "undefined"
  {
    match p
    case Some(q) => ReplaceLeavesNoWhitespace(q.name, '_'); ReplaceWhitespaceRuns(q.name, '_')
    case None => "undefined"
  }

  /** The attribution appended to the transformed content. */
  function Footer(name: string, personaName: string): (r: string)
    ensures |r| == 26 + |name| + |personaName|
    ensures r[..16] == "\n\n---\nBased on: " && r[16..16 + |name|] == name
    ensures r[16 + |name|..26 + |name|] == "\nPersona: " && r[26 + |name|..] == personaName
  {
    "\n\n---\nBased on: " + name + "\nPersona: " + personaName
  }

  /** What `downloadScript` offers: nothing without a result, otherwise the content and the file name. */
  function DownloadScript(result: Option<PodcastResult>, audio: Option<AudioFile>): (r: Option<ScriptFile>)
    ensures r.Some? <==> result.Some?
  {
    match result
    case None => None
    case Some(res) =>
      var persona := Constants.FindPersona(res.selectedPersonaId);
      var name := SourceName(audio);
      Some(ScriptFile(
        res.transformedContent + Footer(name, PersonaName(persona)),
        "PodAI_" + PersonaSlug(persona) + "_" + name + ".txt"))
  }

  /** The download is the transformed content, then the footer naming the source and the persona; the file name carries both. */
  lemma DownloadShape(res: PodcastResult, audio: Option<AudioFile>)
    ensures var f := DownloadScript(Some(res), audio).value;
      var persona := Constants.FindPersona(res.selectedPersonaId);
      && res.transformedContent <= f.content
      && f.content[|res.transformedContent|..] ==
           "\n\n---\nBased on: " + SourceName(audio) + "\nPersona: " + PersonaName(persona)
      && f.fileName == "PodAI_" + PersonaSlug(persona) + "_" + SourceName(audio) + ".txt"
  {
    var f := DownloadScript(Some(res), audio).value;
    var footer := Footer(SourceName(audio), PersonaName(Constants.FindPersona(res.selectedPersonaId)));
    assert f.content == res.transformedContent + footer;
    assert f.content[|res.transformedContent|..] == footer;
  }

  /** A two-word name (neither word containing white space), such as "The Stand-Up", has the slug "first_rest". */
  lemma SlugOfTwoWords(name: string, first: string, rest: string)
    requires name == first + " " + rest
    requires NoWhitespace(first) && NoWhitespace(rest)
    ensures ReplaceWhitespaceRuns(name, '_') == first + "_" + rest
  {
    var w := " ";
    assert IsBlank(w) && w != [];
    assert rest == [] || !IsWhitespace(rest[0]);
    assert name == first + (w + rest);
    ReplaceRun(first, w, rest, '_');
    ReplaceIdentity(rest, '_');
    assert first + "_" + rest == first + ("_" + rest);
  }
}
