/** The `gen_lyrics` node: structure lookup by display name, the prompt
    with the node's 20-space boilerplate indentation, one chat request and
    the canonicalisation of a non-empty reply. The chat client is a
    parameter: it maps the prompt to what the request produced. */
module LyricsNode {
  import opened Wrappers
  import opened Catalog
  import opened Duration
  import opened Allocation
  import opened Prompt
  import opened Canonical

  /** What the chat request gave: an exception on both attempts, or the
      reply's `message.content`, which may be `None`. */
  datatype Reply = RequestFailed | Content(text: Option<string>)

  /** The node's result for a template's sections: `None` when the `try`
      fails or the reply is empty, otherwise the canonicalised reply. */
  function NodeLyrics(theme: string, sections: seq<string>, m: int, s: int, client: string -> Reply)
    : Option<string>
  {
    CatalogAveragesPositive();
    var prompt := PromptFor(SectionTemplates, 20, theme, sections, SongLength(m, s));
    if prompt.None? then None
    else
      var reply := client(prompt.value);
      if reply.Content? && reply.text.Some? && reply.text.value != [] then Some(Clean(reply.text.value))
      else None
  }

  /** `gen_lyrics.gen_lyrics`: an unknown display name raises outside the
      `try`; everything after the lookup fails closed to `None`. */
  method GenLyrics(theme: string, structure: string, m: int, s: int, client: string -> Reply)
    returns (r: Result<Option<string>, LookupError>)
    ensures LookupStructure(structure).Err? ==> r == Err(UnknownStructure(structure))
    ensures LookupStructure(structure).Ok? ==>
      r == Ok(NodeLyrics(theme, LookupStructure(structure).value.sections, m, s, client))
  {
    var template := LookupStructure(structure);
    if template.Err? {
      return Err(template.error);
    }
    CatalogAveragesPositive();
    var prompt := RenderPrompt(SectionTemplates, 20, theme, template.value.sections, SongLength(m, s));
    if prompt.None? {
      return Ok(None);
    }
    var reply := client(prompt.value);
    if reply.Content? && reply.text.Some? && reply.text.value != [] {
      var lyrics := CleanGeneratedLyrics(reply.text.value);
      return Ok(Some(lyrics));
    }
    return Ok(None);
  }

  /** A template without a verse or without a chorus never yields lyrics,
      whatever the time and whatever the client answers. */
  lemma NoLyricsWithoutVerseOrChorus(theme: string, sections: seq<string>, m: int, s: int,
                                     client: string -> Reply)
    requires "verse" !in sections || "chorus" !in sections
    ensures NodeLyrics(theme, sections, m, s, client) == None
  {
    CatalogAveragesPositive();
    PromptNoneWhen(SectionTemplates, 20, theme, sections, SongLength(m, s));
  }

  /** A catalogued template with a verse and a chorus always gets a prompt:
      the node's own duration text always parses, to `|m| * 60 + |s|`. */
  lemma PromptForLyricTemplate(theme: string, sections: seq<string>, m: int, s: int)
    requires KnownSections(sections) && "verse" in sections && "chorus" in sections
    ensures PositiveAverages(SectionTemplates)
    ensures PromptFor(SectionTemplates, 20, theme, sections, SongLength(m, s)).Some?
    ensures ParseDuration(SongLength(m, s)) == Ok(Abs(m) * 60 + Abs(s))
  {
    CatalogAveragesPositive();
    ParseSongLength(m, s);
    PromptNoneWhen(SectionTemplates, 20, theme, sections, SongLength(m, s));
  }

  /** Returned lyrics are the canonical form of the client's non-empty
      reply to the prompt, and a single line. */
  lemma LyricsAreCanonical(theme: string, sections: seq<string>, m: int, s: int, client: string -> Reply)
    requires NodeLyrics(theme, sections, m, s, client).Some?
    ensures PositiveAverages(SectionTemplates)
    ensures var prompt := PromptFor(SectionTemplates, 20, theme, sections, SongLength(m, s));
      prompt.Some? && client(prompt.value).Content? && client(prompt.value).text.Some?
      && NodeLyrics(theme, sections, m, s, client) == Some(Clean(client(prompt.value).text.value))
    ensures '\n' !in NodeLyrics(theme, sections, m, s, client).value
  {
    CatalogAveragesPositive();
    var prompt := PromptFor(SectionTemplates, 20, theme, sections, SongLength(m, s));
    CleanHasNoNewline(client(prompt.value).text.value);
  }

  /** The instrumental rock template has neither verse nor chorus, so the
      node returns `None` for it. */
  lemma InstrumentalRockHasNoLyrics(theme: string, m: int, s: int, client: string -> Reply)
    ensures NodeLyrics(theme, RockInstrumental.sections, m, s, client) == None
  {
    assert "verse" !in RockInstrumental.sections;
    NoLyricsWithoutVerseOrChorus(theme, RockInstrumental.sections, m, s, client);
  }

  /** The basic pop template always gets a prompt. */
  lemma PopBasicPrompts(theme: string, m: int, s: int)
    ensures PositiveAverages(SectionTemplates)
    ensures PromptFor(SectionTemplates, 20, theme, PopBasic.sections, SongLength(m, s)).Some?
  {
    PopTemplatesKnown();
    assert PopBasic.sections[1] == "verse" && PopBasic.sections[2] == "chorus";
    PromptForLyricTemplate(theme, PopBasic.sections, m, s);
  }
}
