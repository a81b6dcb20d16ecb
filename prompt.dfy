/** The duration-aware lyric prompt: `calc_lines_from_seconds` and the
    prompt text that `generate_lyrics_with_duration` and the lyric node
    build line by line. The two copies differ only in the indentation of
    the boilerplate block inside their triple-quoted string: 12 spaces in
    `generate_lyrics_with_duration`, 20 in the node. */
module Prompt {
  import opened Wrappers
  import opened Arith
  import opened Text
  import opened Catalog
  import opened Duration
  import opened Allocation

  /** `calc_lines_from_seconds`: `"{min}-{max}行"` with at least two and at
      least four lines, one line per five and per three seconds. Python's
      `//` by a positive divisor is Dafny's `/`. */
  function LineRange(seconds: int): string
  {
    IntToString(Max(2, seconds / 5)) + "-" + IntToString(Max(4, seconds / 3)) + "行"
  }

  /** The suggestion reads back as two numbers, the smaller first: the
      minimum is at least 2, the maximum at least 4 and never below the
      minimum, whatever the number of seconds. */
  lemma LineRangeReadsBack(seconds: int)
    ensures var t, lo, hi := LineRange(seconds), Max(2, seconds / 5), Max(4, seconds / 3);
      2 <= lo <= hi && 4 <= hi
      && t[|t| - 1] == '行'
      && Split(t[..|t| - 1], '-') == [IntToString(lo), IntToString(hi)]
      && ParseInt(IntToString(lo)) == Some(lo) && ParseInt(IntToString(hi)) == Some(hi)
  {
    var lo, hi := Max(2, seconds / 5), Max(4, seconds / 3);
    if seconds >= 0 {
      assert seconds / 5 <= seconds / 3;
    }
    RangeReadsBack(lo, hi);
  }

  /** `"{lo}-{hi}行"` splits back into its two non-negative numbers. */
  lemma RangeReadsBack(lo: nat, hi: nat)
    ensures var t := IntToString(lo) + "-" + IntToString(hi) + "行";
      t[|t| - 1] == '行'
      && Split(t[..|t| - 1], '-') == [IntToString(lo), IntToString(hi)]
      && ParseInt(IntToString(lo)) == Some(lo) && ParseInt(IntToString(hi)) == Some(hi)
  {
    var a, b := IntToString(lo), IntToString(hi);
    IntToStringShape(lo);
    IntToStringShape(hi);
    assert '-' !in a && '-' !in b by {
      assert AllDigits(a) && AllDigits(b);
      assert forall i :: 0 <= i < |a| ==> a[i] != '-';
      assert forall i :: 0 <= i < |b| ==> b[i] != '-';
    }
    var t := a + "-" + b + "行";
    assert t[..|t| - 1] == a + "-" + b;
    SplitAtFirst(a, b, '-');
    ParseIntOfIntToString(lo);
    ParseIntOfIntToString(hi);
  }

  /** The lines of the boilerplate block of the triple-quoted string, after
      the structure tags. */
  const Boilerplate: seq<string> := [
    "具体要求：",
    "1. 严格按照给定的结构标签分段",
    "2. 器乐段落([intro-*]/[outro-*])不需要填歌词",
    "3. 人声段落([verse]/[chorus]/[bridge])必须包含歌词",
    "4. 主歌([verse])每段4-8行",
    "5. 副歌([chorus])要突出高潮部分",
    "6. 桥段([bridge])2-4行",
    "7. 整体要有押韵和节奏感",
    "8. 不要包含歌曲标题",
    "9. 不要包含韵脚分析等额外说明",
    "返回格式示例：",
    "[intro-medium]",
    "[verse]",
    "第一行歌词",
    "第二行歌词",
    "...",
    "[chorus]",
    "副歌第一行",
    "副歌第二行",
    "..."
  ]

  /** Each line of `lines` on a new line, after `indent` spaces. */
  function Indented(indent: nat, lines: seq<string>): string
  {
    if lines == [] then ""
    else "\n" + seq(indent, _ => ' ') + lines[0] + Indented(indent, lines[1..])
  }

  /** `", ".join(f"[{s}]" for s in sections)`. */
  function Tags(sections: seq<string>): string
  {
    Join(seq(|sections|, i requires 0 <= i < |sections| => "[" + sections[i] + "]"), ", ")
  }

  /** The first four entries of `prompt_lines`. */
  function Header(indent: nat, theme: string, sections: seq<string>, songLength: string, total: int)
    : seq<string>
  {
    [ "请根据以下要求生成一首中文歌曲的完整歌词：\n主题：" + theme,
      "歌曲结构：" + Indented(indent, [Tags(sections)] + Boilerplate),
      "总时长：" + songLength + " (" + IntToString(total) + "秒)",
      "段落时长分配：" ]
  }

  /** `f"- [{section}]: {seconds}秒 ({desc})"`. */
  function SectionLine(section: string, seconds: int, description: string): string
  {
    "- [" + section + "]: " + IntToString(seconds) + "秒 (" + description + ")"
  }

  /** One section line per occurrence, in template order. */
  function SectionLines(catalog: map<string, SectionInfo>, sections: seq<string>, timings: map<string, int>): seq<string>
    requires KnownIn(catalog, sections)
    requires forall i :: 0 <= i < |sections| ==> sections[i] in timings
  {
    seq(|sections|, i requires 0 <= i < |sections| =>
      SectionLine(sections[i], timings[sections[i]], catalog[sections[i]].description))
  }

  /** The lyric requirements appended after the section lines; the bridge
      line only when the template has a bridge. */
  function Requirements(sections: seq<string>, timings: map<string, int>): seq<string>
    requires "verse" in timings && "chorus" in timings
    requires "bridge" in sections ==> "bridge" in timings
  {
    ["\n歌词要求：",
     "1. 主歌([verse]): 每段" + LineRange(timings["verse"]) + "行",
     "2. 副歌([chorus]): 每段" + LineRange(timings["chorus"]) + "行"]
    + (if "bridge" in sections then ["3. 桥段([bridge]): " + LineRange(timings["bridge"]) + "行"] else [])
    + ["4. 器乐段落不需要歌词", "5. 注意押韵和节奏"]
  }

  /** Everything `prompt_lines` holds before the join. */
  function PromptLines(catalog: map<string, SectionInfo>, indent: nat, theme: string, sections: seq<string>, songLength: string, total: int,
                       timings: map<string, int>): seq<string>
    requires KnownIn(catalog, sections)
    requires forall i :: 0 <= i < |sections| ==> sections[i] in timings
    requires "verse" in timings && "chorus" in timings
  {
    Header(indent, theme, sections, songLength, total) + SectionLines(catalog, sections, timings)
    + Requirements(sections, timings)
  }

  /** The prompt, or `None` for every exception the `try` catches: a
      duration that does not parse, a failed allocation, and the `KeyError`
      of a template without `verse` or without `chorus`. The code reads the
      catalog `SectionTemplates`; here it is the parameter `catalog`. */
  function PromptFor(catalog: map<string, SectionInfo>, indent: nat, theme: string, sections: seq<string>,
                     songLength: string): Option<string>
    requires PositiveAverages(catalog)
  {
    var total := ParseDuration(songLength);
    if total.Err? then None
    else
      var timings := Timings(catalog, sections, total.value);
      if timings.Err? then None
      else if "verse" !in timings.value || "chorus" !in timings.value then None
      else
        TimingsFails(catalog, sections, total.value);
        TimingsKeys(catalog, sections, total.value);
        Some(Join(PromptLines(catalog, indent, theme, sections, songLength, total.value, timings.value), "\n"))
  }

  /** The loop of `prompt_lines.append` calls, one section line per entry
      of the template. */
  method AppendSectionLines(catalog: map<string, SectionInfo>, prefix: seq<string>, sections: seq<string>,
                            timings: map<string, int>)
    returns (lines: seq<string>)
    requires KnownIn(catalog, sections)
    requires forall i :: 0 <= i < |sections| ==> sections[i] in timings
    ensures lines == prefix + SectionLines(catalog, sections, timings)
  {
    lines := prefix;
    var i := 0;
    while i < |sections|
      invariant 0 <= i <= |sections|
      invariant |lines| == |prefix| + i && lines[..|prefix|] == prefix
      invariant forall j :: 0 <= j < i ==>
        lines[|prefix| + j] == SectionLine(sections[j], timings[sections[j]], catalog[sections[j]].description)
    {
      var section := sections[i];
      var desc := catalog[section].description;
      lines := lines + [SectionLine(section, timings[section], desc)];
      i := i + 1;
    }
    var body := SectionLines(catalog, sections, timings);
    assert lines[|prefix|..] == body;
    assert lines == lines[..|prefix|] + lines[|prefix|..];
  }

  /** The prompt lines, built as the code builds them: the four header
      entries, then one append per section, then the requirements. */
  method BuildPromptLines(catalog: map<string, SectionInfo>, indent: nat, theme: string, sections: seq<string>,
                          songLength: string, total: int, timings: map<string, int>)
    returns (lines: seq<string>)
    requires KnownIn(catalog, sections)
    requires forall i :: 0 <= i < |sections| ==> sections[i] in timings
    requires "verse" in timings && "chorus" in timings
    ensures lines == PromptLines(catalog, indent, theme, sections, songLength, total, timings)
  {
    var head := Header(indent, theme, sections, songLength, total);
    lines := AppendSectionLines(catalog, head, sections, timings);
    lines := AppendRequirements(lines, sections, timings);
  }

  /** The appends after the loop: the lyric requirements, with the bridge
      line only for a template that has a bridge. */
  method AppendRequirements(prefix: seq<string>, sections: seq<string>, timings: map<string, int>)
    returns (lines: seq<string>)
    requires "verse" in timings && "chorus" in timings
    requires "bridge" in sections ==> "bridge" in timings
    ensures lines == prefix + Requirements(sections, timings)
  {
    lines := prefix;
    lines := lines + ["\n歌词要求："];
    lines := lines + ["1. 主歌([verse]): 每段" + LineRange(timings["verse"]) + "行"];
    lines := lines + ["2. 副歌([chorus]): 每段" + LineRange(timings["chorus"]) + "行"];
    if "bridge" in sections {
      lines := lines + ["3. 桥段([bridge]): " + LineRange(timings["bridge"]) + "行"];
    }
    lines := lines + ["4. 器乐段落不需要歌词"];
    lines := lines + ["5. 注意押韵和节奏"];
  }

  /** The `try` block that both copies share, up to the join: parse, then
      allocate, then build and join the lines. */
  method RenderPrompt(catalog: map<string, SectionInfo>, indent: nat, theme: string, sections: seq<string>,
                      songLength: string)
    returns (r: Option<string>)
    requires PositiveAverages(catalog)
    ensures r == PromptFor(catalog, indent, theme, sections, songLength)
  {
    var total := ParseDuration(songLength);
    if total.Err? {
      return None;
    }
    var timings := CalculateSectionTimings(catalog, sections, total.value);
    if timings.Err? {
      return None;
    }
    var t := timings.value;
    if "verse" !in t || "chorus" !in t {
      return None;
    }
    TimingsFails(catalog, sections, total.value);
    TimingsKeys(catalog, sections, total.value);
    var lines := BuildPromptLines(catalog, indent, theme, sections, songLength, total.value, t);
    r := Some(Join(lines, "\n"));
  }

  /** `generate_lyrics_with_duration`, with the 12-space boilerplate
      indentation of that function; `catalog` stands for `SectionTemplates`. */
  method GenerateLyricsWithDuration(catalog: map<string, SectionInfo>, theme: string, sections: seq<string>,
                                    songLength: string)
    returns (r: Option<string>)
    requires PositiveAverages(catalog)
    ensures r == PromptFor(catalog, 12, theme, sections, songLength)
  {
    r := RenderPrompt(catalog, 12, theme, sections, songLength);
  }

  // ----- properties of the prompt -----

  /** The `try` returns `None` exactly when the duration does not parse, a
      section is not in the catalog, or the template lacks `verse` or
      `chorus` (an empty template lacks both). */
  lemma PromptNoneWhen(catalog: map<string, SectionInfo>, indent: nat, theme: string, sections: seq<string>,
                       songLength: string)
    requires PositiveAverages(catalog)
    ensures PromptFor(catalog, indent, theme, sections, songLength).None?
      <==> ParseDuration(songLength).Err? || !KnownIn(catalog, sections)
           || "verse" !in sections || "chorus" !in sections
  {
    var total := ParseDuration(songLength);
    if total.Ok? {
      TimingsFails(catalog, sections, total.value);
      if KnownIn(catalog, sections) && sections != [] {
        TimingsKeys(catalog, sections, total.value);
      }
    }
  }

  /** The requirement lines: five, or six with the bridge line, and the
      line numbered 3 is there exactly when the template has a bridge. */
  lemma RequirementsShape(sections: seq<string>, timings: map<string, int>)
    requires "verse" in timings && "chorus" in timings
    requires "bridge" in sections ==> "bridge" in timings
    ensures var r := Requirements(sections, timings);
      |r| == (if "bridge" in sections then 6 else 5)
      && (forall j :: 0 <= j < |r| ==> r[j] != [] && (r[j][0] == '3' <==> "bridge" in sections && j == 3))
      && ("bridge" in sections ==> r[3] == "3. 桥段([bridge]): " + LineRange(timings["bridge"]) + "行")
  {
  }

  /** Line 2 states the total, line `4 + i` describes section `i` with its
      seconds and catalog description, and the requirements follow. */
  lemma PromptLinesShape(catalog: map<string, SectionInfo>, indent: nat, theme: string, sections: seq<string>,
                         songLength: string, total: int, timings: map<string, int>)
    requires KnownIn(catalog, sections)
    requires forall i :: 0 <= i < |sections| ==> sections[i] in timings
    requires "verse" in timings && "chorus" in timings
    ensures var lines := PromptLines(catalog, indent, theme, sections, songLength, total, timings);
      lines[2] == "总时长：" + songLength + " (" + IntToString(total) + "秒)"
      && |lines| == 4 + |sections| + (if "bridge" in sections then 6 else 5)
      && lines[4 + |sections|..] == Requirements(sections, timings)
      && forall i :: 0 <= i < |sections| ==>
        lines[4 + i] == SectionLine(sections[i], timings[sections[i]], catalog[sections[i]].description)
  {
    RequirementsShape(sections, timings);
    var head := Header(indent, theme, sections, songLength, total);
    var body := SectionLines(catalog, sections, timings);
    var lines := PromptLines(catalog, indent, theme, sections, songLength, total, timings);
    ThreePart(head, body, Requirements(sections, timings));
    forall i | 0 <= i < |sections|
      ensures lines[4 + i] == SectionLine(sections[i], timings[sections[i]], catalog[sections[i]].description)
    {
      assert lines[4 + i] == body[i];
    }
  }

  /** Indexing into `head + body + tail` with a four-entry head. */
  lemma ThreePart(head: seq<string>, body: seq<string>, tail: seq<string>)
    requires |head| == 4
    ensures |head + body + tail| == 4 + |body| + |tail|
    ensures (head + body + tail)[2] == head[2] && (head + body + tail)[4 + |body|..] == tail
    ensures forall i :: 0 <= i < |body| ==> (head + body + tail)[4 + i] == body[i]
  {
  }

  /** When the `try` succeeds, the prompt is the joined lines, built from
      the parsed total and the allocation of every section. */
  lemma PromptDescribesSections(catalog: map<string, SectionInfo>, indent: nat, theme: string,
                                sections: seq<string>, songLength: string)
    requires PositiveAverages(catalog)
    requires PromptFor(catalog, indent, theme, sections, songLength).Some?
    ensures ParseDuration(songLength).Ok? && KnownIn(catalog, sections)
    ensures var total := ParseDuration(songLength).value;
      Timings(catalog, sections, total).Ok?
      && var t := Timings(catalog, sections, total).value;
      (forall i :: 0 <= i < |sections| ==> sections[i] in t)
      && "verse" in t && "chorus" in t
      && PromptFor(catalog, indent, theme, sections, songLength)
         == Some(Join(PromptLines(catalog, indent, theme, sections, songLength, total, t), "\n"))
  {
    PromptNoneWhen(catalog, indent, theme, sections, songLength);
    var total := ParseDuration(songLength).value;
    TimingsKeys(catalog, sections, total);
  }

  /** The node passes `f"{minutes}分{seconds}秒"`, so the total line of
      its prompt states `|minutes| * 60 + |seconds|` seconds. */
  lemma PromptTotalForSongLength(catalog: map<string, SectionInfo>, indent: nat, theme: string,
                                 sections: seq<string>, m: int, sec: int)
    requires PositiveAverages(catalog)
    requires PromptFor(catalog, indent, theme, sections, SongLength(m, sec)).Some?
    ensures KnownIn(catalog, sections)
    ensures var total := Abs(m) * 60 + Abs(sec);
      Timings(catalog, sections, total).Ok?
      && var t := Timings(catalog, sections, total).value;
      (forall i :: 0 <= i < |sections| ==> sections[i] in t)
      && "verse" in t && "chorus" in t
      && var lines := PromptLines(catalog, indent, theme, sections, SongLength(m, sec), total, t);
      PromptFor(catalog, indent, theme, sections, SongLength(m, sec)) == Some(Join(lines, "\n"))
      && lines[2] == "总时长：" + SongLength(m, sec) + " (" + IntToString(total) + "秒)"
  {
    ParseSongLength(m, sec);
    PromptDescribesSections(catalog, indent, theme, sections, SongLength(m, sec));
    var total := Abs(m) * 60 + Abs(sec);
    var t := Timings(catalog, sections, total).value;
    PromptLinesShape(catalog, indent, theme, sections, SongLength(m, sec), total, t);
  }

  /** The line-count text for a 35-second verse. */
  lemma ExampleLineRange()
    ensures LineRange(35) == "7-11行"
  {
    assert IntToString(7) == "7";
    assert NatToString(11) == NatToString(1) + [DigitChar(1)];
    assert IntToString(11) == "11";
  }
}
