# aimusic nodes: lyric prompts, section timing and VACE frame batches

This project models the core of two ComfyUI node files of the `aimusic`
package and proves properties of the model.

`aimusic/gen_lyrics.py` turns a structure name, a theme and a song length
into a chat prompt. It has five parts:

- the section catalog, the 36 structure templates and the display name map;
- the Chinese duration parser;
- the allocation of seconds to section kinds, with clamping and a remainder
  given to the last section;
- the prompt text;
- the canonicalisation of the reply into a single line.

The same file also holds the reply handling of the lyric analysis node: it
strips code fences and joins five JSON fields.

`aimusic/WanVideoVACEStartToEndFrame.py` builds a batch of frames and
masks for VACE video generation. Start images, end images and control
images are placed into a batch of empty frames, and an inpaint mask is
tiled over the batch.

Modules, in dependency order:

- `Wrappers`: `Option` and `Result`.
- `Text`: the Python string operations the code relies on, each proved
  against its meaning:
  - `strip`, `replace`, `split` and `join`;
  - `int` and `str` on integers.
- `Catalog`: `MUSIC_SECTION_TEMPLATES`, `STRUCTURE_TEMPLATES`,
  `structure_name_map` and the node's choice list.
- `Duration`: `parse_duration_to_seconds`, and the `re.search(r"(\d+)分")`
  lookups it makes.
- `Allocation`: `calculate_section_timings`. The function `Timings` is the
  specification; the method `CalculateSectionTimings` follows the code's
  loops step by step.
- `Prompt`: `calc_lines_from_seconds` and the prompt text of
  `generate_lyrics_with_duration`.
- `Canonical`: `clean_generated_lyrics`. Its scan over the lines is a
  method. It is proved equal to a fold of a per-line step function, and the
  output's properties are proved about that fold.
- `LyricsNode`: the `gen_lyrics` node itself.
- `Analysis`: the fence strip and the field join of `analyze_lyrics`.
- `FrameBatch`: `WanVideoVACEStartToEndFrame.process`. It works on arrays
  the way the code writes into its tensors.

One would expect the seconds handed out to add up to the song length; the
code breaks that in two ways:

- It drops a negative remainder. Two clamped-up sections in 10 seconds get
  15 seconds each, 30 in total (`Allocation.ExampleOverTotal`).
- It charges a bridge once, even when a template has two of them, as
  `metal_progressive` does.

`Allocation.OccurrenceSumIdentity` states the exact sum the code produces.
`Allocation.SumIsTotal` states the conditions under which that sum equals
the song length.

## Model

| member | source | states |
|---|---|---|
| Catalog.TemplatesUseKnownSections | aimusic/gen_lyrics.py:177-333 | every section of every structure template is a catalogued section kind, so the allocation never fails on a template from the catalog |
| Catalog.TemplateValues | aimusic/gen_lyrics.py:177-333 | every template in the table is one of the 36 named templates |
| Catalog.AveragesPositive | aimusic/gen_lyrics.py:73-158 | every catalogued section has an average duration of at least 2 seconds, so the baseline of a non-empty template is never zero |
| Catalog.NameMapTargetsExist | aimusic/gen_lyrics.py:642-678 | every display name maps to a key that exists in the template table |
| Catalog.ChoicesResolve | aimusic/gen_lyrics.py:610-616 | every choice except "None" offered by the node is a mapped display name |
| Catalog.UnmappedNames | aimusic/gen_lyrics.py:642-678 | the "None" choice is not mapped, and the `trance` template is the target of no display name |
| Catalog.LookupStructure | aimusic/gen_lyrics.py:679-682 | the lookup succeeds exactly for mapped names and then yields the mapped template, whose sections are all known; otherwise it reports the unknown name |
| Duration.ParseDuration | aimusic/gen_lyrics.py:389-409 | every failure is the invalid-duration error carrying the input text |
| Duration.SearchFinds | aimusic/gen_lyrics.py:394-395 | the pattern search finds a match exactly when some marker is directly preceded by a digit |
| Duration.ParseSongLength | aimusic/gen_lyrics.py:392-396 | the text the node renders from minutes `m` and seconds `s` parses back to `|m|*60 + |s|` |
| Duration.ParseSongLengthExact | aimusic/gen_lyrics.py:392-396 | for non-negative minutes and seconds the rendered song length parses back to `m*60 + s` |
| Duration.ParseMinutesOnly | aimusic/gen_lyrics.py:398-400 | a number followed by 分 alone parses to sixty times that number, negative numbers included |
| Duration.ParseSecondsOnly | aimusic/gen_lyrics.py:402-404 | a number followed by 秒 alone parses to that number |
| Duration.ParseBare | aimusic/gen_lyrics.py:406-407 | a plain integer parses to itself |
| Duration.RejectsMinuteWithoutDigits | aimusic/gen_lyrics.py:393-409 | text with both markers but no digit before any 分 is rejected with the invalid-duration error |
| Duration.ExampleRejected | aimusic/gen_lyrics.py:407-409 | "abc" and "分秒" are rejected |
| Allocation.Baseline | aimusic/gen_lyrics.py:418-421 | the baseline of a non-empty template is at least its number of sections |
| Allocation.Allocated | aimusic/gen_lyrics.py:431-450 | each section kind's share lies within its group's clamp range (15-45, 10-30 or 5-30): it is the truncated proportional share when that lies within range, the lower bound when the share falls below it, and the upper bound when it exceeds it |
| Allocation.TruncDivIsTrunc | aimusic/gen_lyrics.py:432 | the integer share is Python's `int()` (truncation toward zero) of the exact quotient `avg * total / baseline` |
| Allocation.FirstUnknown | aimusic/gen_lyrics.py:413-415 | the reported section is the first label not in the catalog |
| Allocation.CalculateSectionTimings | aimusic/gen_lyrics.py:410-457 | the method's loops compute exactly the specified timings, error cases included |
| Allocation.FindUnknown | aimusic/gen_lyrics.py:413-415 | the validation loop finds nothing exactly when every label is catalogued, and otherwise finds the first uncatalogued label |
| Allocation.SumBaseline | aimusic/gen_lyrics.py:418-421 | the summing loop computes the baseline |
| Allocation.AllocateKnown | aimusic/gen_lyrics.py:418-456 | once every label is catalogued, the baseline, vocal, bridge, instrumental and remainder steps compute exactly the specified timings |
| Allocation.AllocateVocal | aimusic/gen_lyrics.py:430-436 | the vocal loop assigns every verse and chorus kind its clamped share and subtracts all their occurrences from the remainder |
| Allocation.AllocateInstrumental | aimusic/gen_lyrics.py:444-450 | the instrumental loop completes the map to every section kind of the template and subtracts all instrumental occurrences |
| Allocation.TimingsFails | aimusic/gen_lyrics.py:413-415 | the allocation fails exactly when some label is not catalogued, or the template is empty with a positive total (the `sections[-1]` index error); an unknown label is reported as the first one |
| Allocation.UnknownSectionReported | aimusic/gen_lyrics.py:413-415 | the first uncatalogued label is the one named in the error |
| Allocation.TimingsKeys | aimusic/gen_lyrics.py:427-450 | a known non-empty template gets a timing for exactly the kinds it contains |
| Allocation.TimingsWithinClamp | aimusic/gen_lyrics.py:431-450 | every kind other than the last one gets a timing within its group's range, namely the proportional share when that lies in range |
| Allocation.LastAbsorbsRemainder | aimusic/gen_lyrics.py:452-456 | the last kind gets its share plus the remainder when that is positive, never less than its lower bound, and every other kind keeps its share |
| Allocation.CountPositive | aimusic/gen_lyrics.py:424 | a kind occurs a positive number of times exactly when it is in the template |
| Allocation.SplitByGroup | aimusic/gen_lyrics.py:430-450 | the sum of all clamped shares is the sum over the three groups |
| Allocation.BridgeGroupSum | aimusic/gen_lyrics.py:438-442 | the bridge group contributes the bridge share once per occurrence |
| Allocation.OccurrenceSumIdentity | aimusic/gen_lyrics.py:428-456 | the sum over all occurrences of the assigned timings equals the total, minus the remainder, plus the positive remainder once per occurrence of the last kind, plus the bridge share for each bridge after the first |
| Allocation.SumIsTotal | aimusic/gen_lyrics.py:428-456 | with a non-negative remainder, a last kind that occurs once and at most one bridge, the seconds over all sections add up exactly to the total |
| Allocation.ExamplePopShort | aimusic/gen_lyrics.py:430-456 | intro, verse, chorus and outro in 120 seconds get 24, 35, 35 and 26 seconds, adding up to 120 |
| Allocation.ExampleOverTotal | aimusic/gen_lyrics.py:431-456 | a verse and a chorus in 10 seconds are each raised to the 15 second minimum, 30 seconds in total, because the negative remainder is dropped |
| Prompt.LineRangeReadsBack | aimusic/gen_lyrics.py:458-462 | the line-count text is "lo-hi行" with lo at least 2, hi at least 4 and lo at most hi, and both numbers read back from the text |
| Prompt.ExampleLineRange | aimusic/gen_lyrics.py:458-462 | 35 seconds suggest 7 to 11 lines |
| Prompt.AppendSectionLines | aimusic/gen_lyrics.py:508-511 | the loop appends one line per section occurrence, in template order |
| Prompt.AppendRequirements | aimusic/gen_lyrics.py:513-522 | the appended requirement lines are the specified ones |
| Prompt.BuildPromptLines | aimusic/gen_lyrics.py:478-522 | the assembled list of prompt lines is the specified one |
| Prompt.RenderPrompt | aimusic/gen_lyrics.py:465-528 | the rendered prompt is the specified one, `None` on every failure |
| Prompt.GenerateLyricsWithDuration | aimusic/gen_lyrics.py:465-528 | the module-level function renders the prompt with its own 12-space boilerplate indentation |
| Prompt.PromptNoneWhen | aimusic/gen_lyrics.py:471-528 | there is no prompt exactly when the length does not parse, a section is not catalogued, or the template lacks a verse or a chorus (the `KeyError` of the line-count requirements) |
| Prompt.RequirementsShape | aimusic/gen_lyrics.py:513-522 | the requirements block has six lines with a bridge and five without, and item 3 appears exactly when the template has a bridge, with the bridge's line range |
| Prompt.PromptLinesShape | aimusic/gen_lyrics.py:478-522 | the prompt states the song length with its parsed seconds, lists each section occurrence in order with its timing and description, and ends with the requirements |
| Prompt.PromptDescribesSections | aimusic/gen_lyrics.py:471-524 | a prompt exists only for a parsed length and a successful allocation that covers every section, verse and chorus included, and is then the newline join of the specified lines |
| Prompt.PromptTotalForSongLength | aimusic/gen_lyrics.py:473-504 | for a song length rendered as `"{m}分{s}秒"`, the prompt's third line is `总时长：{song_length} ({total}秒)` with total `|m|*60 + |s|`, and the timings it is built from are allocated for that total |
| Canonical.HeaderTag | aimusic/gen_lyrics.py:568-579 | a header line is its non-empty tag of `[a-z-]` characters in brackets |
| Canonical.CleanGeneratedLyrics | aimusic/gen_lyrics.py:545-595 | the method computes the specified canonical text |
| Canonical.ScanLines | aimusic/gen_lyrics.py:563-585 | the loop over the lines ends in the state of the specified fold |
| Canonical.ScanLine | aimusic/gen_lyrics.py:564-585 | one iteration is the specified step |
| Canonical.CleanLineIsClean | aimusic/gen_lyrics.py:583 | a non-empty cleaned lyric line has no space, no Chinese comma or full stop, and does not start or end with a dot |
| Canonical.FormatCleanLyric | aimusic/gen_lyrics.py:574 | a cleaned line gets exactly one trailing dot |
| Canonical.FinalSegments | aimusic/gen_lyrics.py:563-593 | the output has one segment per header line, in order, each opened by its header |
| Canonical.SegmentsFollowHeaders | aimusic/gen_lyrics.py:545-595 | the canonical text is the " ; " join of the segments, one per header in order, each starting with "[tag]" |
| Canonical.SegmentsHoldCleanLyrics | aimusic/gen_lyrics.py:574-593 | every segment is its header followed by dot-terminated cleaned lines separated by single spaces |
| Canonical.PositionsAreHeaders | aimusic/gen_lyrics.py:564-568 | each recorded position is a line that strips to a header, and the tags are those headers' tags in order |
| Canonical.SegmentsHoldTheirLyrics | aimusic/gen_lyrics.py:563-595 | the j-th segment is `[tag]` of the j-th header line followed by the cleaned lyric lines between that header line and the next one (or the end of the reply), each dot-terminated, joined by single spaces |
| Canonical.FoldSegmented | aimusic/gen_lyrics.py:563-585 | during the scan, every closed section renders the kept lines between its header and the next header, and the open one holds the kept lines after the last header |
| Canonical.CleanHasNoNewline | aimusic/gen_lyrics.py:594-595 | the canonical text is a single line |
| Canonical.NoHeaderNoOutput | aimusic/gen_lyrics.py:586-595 | text without a header line canonicalises to the empty string |
| Canonical.SkippedLines | aimusic/gen_lyrics.py:565-566 | blank lines, and lyric lines before the first header, leave the scan state unchanged |
| Canonical.HeaderStep | aimusic/gen_lyrics.py:569-580 | a header closes the current section and opens a new empty one |
| Canonical.LyricStep | aimusic/gen_lyrics.py:581-585 | a non-empty cleaned lyric line inside a section is appended to it |
| Canonical.ExampleClean | aimusic/gen_lyrics.py:545-595 | "[verse]", "ab cd", a blank line and "[chorus]" canonicalise to "[verse]ab.cd. ; [chorus]" |
| LyricsNode.GenLyrics | aimusic/gen_lyrics.py:639-754 | an unknown display name raises; otherwise the result is the specified node lyrics |
| LyricsNode.NoLyricsWithoutVerseOrChorus | aimusic/gen_lyrics.py:727-728 | a template without a verse or a chorus yields no lyrics, whatever the time and the reply |
| LyricsNode.PromptForLyricTemplate | aimusic/gen_lyrics.py:684-735 | every known template with a verse and a chorus gets a prompt, for every time setting |
| LyricsNode.LyricsAreCanonical | aimusic/gen_lyrics.py:736-751 | lyrics are returned only for a non-empty reply to the rendered prompt, and are then its canonical single-line form |
| LyricsNode.InstrumentalRockHasNoLyrics | aimusic/gen_lyrics.py:229-232 | the instrumental rock template never yields lyrics |
| LyricsNode.PopBasicPrompts | aimusic/gen_lyrics.py:179-182 | the basic pop template always gets a prompt |
| Analysis.StripFences | aimusic/gen_lyrics.py:843-849 | the cleaned reply is stripped of surrounding whitespace |
| Analysis.FencedRoundTrip | aimusic/gen_lyrics.py:843-849 | a stripped JSON body fenced as a code block, with independent whitespace padding before the opening fence, after it, before the closing fence and after that, comes back as the body |
| Analysis.FencedOnOwnLines | aimusic/gen_lyrics.py:843-849 | a stripped body on the lines between an opening `json` fence line and a closing fence line comes back as the body |
| Analysis.UnfencedIsStripped | aimusic/gen_lyrics.py:843-849 | a reply without fences is only stripped |
| Analysis.StripFencesIdempotentOnPlain | aimusic/gen_lyrics.py:843-849 | cleaning an unfenced reply twice changes nothing |
| Analysis.FirstMissing | aimusic/gen_lyrics.py:855-878 | the reported field is absent, every field before it is present, and nothing is reported exactly when all fields are present |
| Analysis.JoinAnalysisFirstMissing | aimusic/gen_lyrics.py:861-878 | the join fails exactly on the first of the five fields, in the fixed order, that the object lacks |
| Analysis.JoinAnalysisFields | aimusic/gen_lyrics.py:876-878 | the join succeeds exactly when all five fields are present, and then is the five values in order, separated by ", " |
| Analysis.JoinAnalysis | aimusic/gen_lyrics.py:861-878 | the join fails only with a `KeyError` naming a field the object lacks |
| Analysis.AnalyzeReply | aimusic/gen_lyrics.py:843-878 | a `None` content raises on `strip()`; text that does not decode raises; otherwise the result is Ok exactly when all five fields are present and is then their ", " join in fixed order, and a decoded object that lacks a field gives the `KeyError` of the first one absent |
| Analysis.AnalyzeFencedReply | aimusic/gen_lyrics.py:843-878 | a fenced reply with any blank padding is decoded from the text between the fences and then joined |
| FrameBatch.NormalizeEnd | aimusic/WanVideoVACEStartToEndFrame.py:47-49 | a non-negative end index is kept, and one within Python's index range becomes a frame index |
| FrameBatch.NormalizeEndAsPythonIndex | aimusic/WanVideoVACEStartToEndFrame.py:47-49 | the normalised index names the same frame as Python's negative indexing |
| FrameBatch.PlanEnd | aimusic/WanVideoVACEStartToEndFrame.py:72-82 | the end copy writes exactly the frames of the end window clipped to the batch, taking end image `i - end_start` for frame `i` |
| FrameBatch.LastEndImageAtEndIndex | aimusic/WanVideoVACEStartToEndFrame.py:72-82 | within range, the last end image lands on the end index |
| FrameBatch.EndImagesFit | aimusic/WanVideoVACEStartToEndFrame.py:74-79 | when all end images fit before the end index, none is dropped |
| FrameBatch.CeilDiv | aimusic/WanVideoVACEStartToEndFrame.py:105 | the repeat factor is the least count of copies that covers the batch |
| FrameBatch.Repeat | aimusic/WanVideoVACEStartToEndFrame.py:106 | the repeated mask holds mask frame `i mod n` at position `i` |
| FrameBatch.FitMask | aimusic/WanVideoVACEStartToEndFrame.py:101-106 | the mask, truncated or tiled, holds mask frame `i mod n` at frame `i` |
| FrameBatch.PlaceStart | aimusic/WanVideoVACEStartToEndFrame.py:64-69 | the start window receives the start images and a zero mask; every other frame is unchanged |
| FrameBatch.PlaceEnd | aimusic/WanVideoVACEStartToEndFrame.py:71-82 | the end window receives the end images and a zero mask; every other frame is unchanged |
| FrameBatch.AnyEmpty | aimusic/WanVideoVACEStartToEndFrame.py:87-89 | the test holds exactly when some frame is still empty |
| FrameBatch.FillControl | aimusic/WanVideoVACEStartToEndFrame.py:84-94 | each still-empty frame with a control image receives it; every other frame is unchanged |
| FrameBatch.ApplyMask | aimusic/WanVideoVACEStartToEndFrame.py:109 | every mask value is multiplied by the fitted inpaint mask |
| FrameBatch.ControlOnly | aimusic/WanVideoVACEStartToEndFrame.py:34-43 | with control images only, the batch is the control images truncated or padded with empty frames, and every mask is zero |
| FrameBatch.Process | aimusic/WanVideoVACEStartToEndFrame.py:31-111 | the node fails exactly when no image batch is given or an empty inpaint mask must be tiled; otherwise every frame is the end image, else the start image, else the control image, else empty, in that priority, and its mask is the inpaint value where no start or end image covers it and zero where one does |
| FrameBatch.Compose | aimusic/WanVideoVACEStartToEndFrame.py:44-111 | on inputs that do not fail, the composed frames and masks are the ones described for the node |

## Left out

- The chat client, its retry and `model`: the client is a function parameter from the prompt to a reply. An exception on both attempts is the `RequestFailed` reply, which the node catches. The model listing (`get_openAI_models`, `get_gpt_models`), `install_openai` and the `load_openAI` node make network or package calls and are not part of this model.
- `json.loads` is a parameter of `Analysis.AnalyzeReply`, restricted to objects whose values are strings; a decoded object with a non-string value is not modelled. The validity checks of the analysis node are left out because they only print. Their lookups of the five fields come in the same order as the join's, so a missing field raises its `KeyError` there, which `Analysis.JoinAnalysis` models. So are the `EMOTIONS`, `GENRES` and other value lists they compare against, and everything the analysis node does before it receives the reply.
- `print` calls and the ComfyUI node metadata (`INPUT_TYPES`, `RETURN_TYPES` and the like) are left out. The only exception is the structure choice list, which is modelled.
- The catalogs are constants. The allocation and the prompt take the section catalog as a parameter, so their lemmas hold for any catalog whose averages are positive. `LyricsNode` passes the real one.
- Allocation.Allocated: `int(avg * total / baseline)` is a float division truncated toward zero. The model truncates the exact rational quotient (`TruncDiv`, shown equal to truncating the exact real quotient by `TruncDivIsTrunc`), so a float rounding that lands just below an integer is not modelled.
- Allocation.SumIsTotal: the seconds add up to the total only under the stated conditions, so the lemma is stated under them. `Allocation.OccurrenceSumIdentity` gives the exact sum in every case.
- The prompt's boilerplate block is modelled as a fixed list of lines that differ only in their indentation: 12 spaces in `generate_lyrics_with_duration`, 20 in the node. The line-count requirement keeps the doubled "行" of the code.
- `int` on text is modelled for ASCII digits with an optional sign and surrounding whitespace. Underscores between digits and non-ASCII digits, which Python's `int` also accepts, are not modelled. Likewise the `\d` of the duration patterns matches any Unicode decimal digit (so "١分٣٠秒" parses in Python), while the model accepts only ASCII digits and rejects such a string.
- FrameBatch: tensors are abstracted. A frame is the token of its source (`Fill`, `Start(i)`, `End(i)` or `Control(i)`), and a mask is one real value per frame. The emptiness test `sum > 0.5*H*W` becomes a per-frame value above 0.5. Pixel data, `empty_frame_level`, devices and `.cpu().float()` are not modelled.
- FrameBatch: `common_upscale` resizing of end, control and inpaint images to the start size is not modelled, because frames do not carry a resolution here.
- FrameBatch.Process: `start_index` is a `nat`, as the node's input range makes it. A start index past the batch simply copies nothing, as in the code.
- FrameBatch.Process: in the control-only branch the inpaint mask is ignored, as the code ignores it. A missing image batch, where line 44 reads `end_image.shape` of `None` and raises, is the `NoImages` failure. A zero-length inpaint mask that must be tiled is the `EmptyInpaintMask` failure (the division by zero at line 105).
