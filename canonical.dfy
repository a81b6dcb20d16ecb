/** `clean_generated_lyrics`: the line-by-line state machine that turns a
    model reply into one line of the form `[tag]line. line. ; [tag] ; …`.
    The specification is a left fold of `Step` over the reply's lines;
    the method runs the loop of the code. */
module Canonical {
  import opened Wrappers
  import opened Text

  /** The characters of the header pattern's class `[a-z\-]`. */
  predicate IsTagChar(c: char)
  {
    ('a' <= c <= 'z') || c == '-'
  }

  /** A stripped line matching `^\[([a-z\-]+)\]$`. */
  predicate IsHeader(line: string)
  {
    |line| >= 3 && line[0] == '[' && line[|line| - 1] == ']'
    && forall i :: 1 <= i < |line| - 1 ==> IsTagChar(line[i])
  }

  /** `section_match.group(1)`. */
  function HeaderTag(line: string): (tag: string)
    requires IsHeader(line)
    ensures |tag| > 0 && "[" + tag + "]" == line
    ensures forall i :: 0 <= i < |tag| ==> IsTagChar(tag[i])
  {
    line[1..|line| - 1]
  }

  predicate IsDotOrSpace(c: char)
  {
    c == '.' || c == ' '
  }

  /** `line.replace(' ', '.').replace('，', '.').replace('。', '.').strip('. ')`. */
  function CleanLine(line: string): string
  {
    StripOf(Replace(Replace(Replace(line, ' ', '.'), '，', '.'), '。', '.'), IsDotOrSpace)
  }

  /** `l.rstrip('.') + '.'`. */
  function FormatLine(l: string): string
  {
    RStrip(l, c => c == '.') + "."
  }

  /** `' '.join(l.rstrip('.') + '.' for l in lines)`; the empty list gives
      the empty text, as the code's explicit `else` branch does. */
  function SectionText(lines: seq<string>): string
  {
    Join(seq(|lines|, i requires 0 <= i < |lines| => FormatLine(lines[i])), " ")
  }

  /** `f"[{current_section}]{section_text}"`. */
  function Render(tag: string, lines: seq<string>): string
  {
    "[" + tag + "]" + SectionText(lines)
  }

  /** `sections`, `current_section` and `current_lines`. */
  datatype State = State(sections: seq<string>, current: Option<string>, lines: seq<string>)

  const Start := State([], None, [])

  /** The closed sections, plus the open one if there is one. */
  function Flush(st: State): seq<string>
  {
    if st.current.Some? then st.sections + [Render(st.current.value, st.lines)] else st.sections
  }

  /** One iteration of the loop over `raw_lyrics.split('\n')`. */
  function Step(st: State, raw: string): State
  {
    StepLine(st, Strip(raw))
  }

  /** The loop body once the line is stripped. */
  function StepLine(st: State, line: string): State
  {
    if line == [] then st
    else if IsHeader(line) then State(Flush(st), Some(HeaderTag(line)), [])
    else if st.current.Some? then
      var cleaned := CleanLine(line);
      if cleaned != [] then st.(lines := st.lines + [cleaned]) else st
    else st
  }

  /** The state after the loop has seen `lines`. */
  function Fold(lines: seq<string>): State
  {
    if lines == [] then Start else Step(Fold(lines[..|lines| - 1]), lines[|lines| - 1])
  }

  /** What `clean_generated_lyrics(raw)` returns. */
  function Clean(raw: string): string
  {
    Join(Flush(Fold(Split(raw, '\n'))), " ; ")
  }

  /** `clean_generated_lyrics`, with the loop and the state of the code. */
  method CleanGeneratedLyrics(raw: string) returns (out: string)
    ensures out == Clean(raw)
  {
    var sections, current, currentLines := ScanLines(Split(raw, '\n'));
    if current.Some? {
      sections := sections + [Render(current.value, currentLines)];
    }
    out := Join(sections, " ; ");
  }

  /** The `for line in raw_lyrics.split('\n')` loop. */
  method ScanLines(parts: seq<string>) returns (sections: seq<string>, current: Option<string>, currentLines: seq<string>)
    ensures State(sections, current, currentLines) == Fold(parts)
  {
    sections, current, currentLines := [], None, [];
    var i := 0;
    while i < |parts|
      invariant 0 <= i <= |parts|
      invariant State(sections, current, currentLines) == Fold(parts[..i])
    {
      FoldPrefix(parts, i);
      sections, current, currentLines := ScanLine(sections, current, currentLines, parts[i]);
      i := i + 1;
    }
    assert parts[..|parts|] == parts;
  }

  /** One pass of the loop body. */
  method ScanLine(sections: seq<string>, current: Option<string>, currentLines: seq<string>, raw: string)
    returns (sections': seq<string>, current': Option<string>, currentLines': seq<string>)
    ensures State(sections', current', currentLines') == Step(State(sections, current, currentLines), raw)
  {
    sections', current', currentLines' := sections, current, currentLines;
    var line := Strip(raw);
    if line != [] {
      if IsHeader(line) {
        if current.Some? {
          sections' := sections + [Render(current.value, currentLines)];
        }
        current' := Some(line[1..|line| - 1]);
        currentLines' := [];
      } else if current.Some? {
        var cleaned := CleanLine(line);
        if cleaned != [] {
          currentLines' := currentLines + [cleaned];
        }
      }
    }
  }

  // ----- properties -----

  /** The header tags among the stripped lines, in encounter order. */
  function Headers(lines: seq<string>): seq<string>
  {
    if lines == [] then [] else Headers(lines[..|lines| - 1]) + TagOf(Strip(lines[|lines| - 1]))
  }

  function TagOf(line: string): seq<string>
  {
    if IsHeader(line) then [HeaderTag(line)] else []
  }

  /** A kept lyric line: not empty, free of ` `, `，`, `。` and newlines,
      and neither starting nor ending with `.`. */
  predicate IsCleanLyric(l: string)
  {
    l != [] && ' ' !in l && '，' !in l && '。' !in l && '\n' !in l && l[0] != '.' && l[|l| - 1] != '.'
  }

  lemma ReplaceKeepsAbsent(s: string, a: char, b: char, c: char)
    requires c !in s && c != b
    ensures c !in Replace(s, a, b)
  {
    var r := Replace(s, a, b);
    forall i | 0 <= i < |r| ensures r[i] != c {
      assert s[i] != c;
    }
  }

  /** A line from the split has no newline, and cleaning it leaves either
      nothing or a clean lyric. */
  lemma CleanLineIsClean(line: string)
    requires '\n' !in line
    requires CleanLine(line) != []
    ensures IsCleanLyric(CleanLine(line))
  {
    var r1 := Replace(line, ' ', '.');
    var r2 := Replace(r1, '，', '.');
    var r3 := Replace(r2, '。', '.');
    ReplaceKeepsAbsent(line, ' ', '.', '\n');
    ReplaceKeepsAbsent(r1, '，', '.', '\n');
    ReplaceKeepsAbsent(r2, '。', '.', '\n');
    ReplaceKeepsAbsent(r1, '，', '.', ' ');
    ReplaceKeepsAbsent(r2, '。', '.', ' ');
    ReplaceKeepsAbsent(r2, '。', '.', '，');
  }

  /** A clean lyric is rendered with exactly one final `.`. */
  lemma FormatCleanLyric(l: string)
    requires IsCleanLyric(l)
    ensures FormatLine(l) == l + "."
    ensures var f := FormatLine(l); |f| >= 2 && f[|f| - 1] == '.' && f[|f| - 2] != '.'
  {
  }

  /** A closed section for `tag`: it starts with `[tag]` and is one line. */
  ghost predicate SegmentFor(seg: string, tag: string)
  {
    |seg| >= |tag| + 2 && seg[..|tag| + 2] == "[" + tag + "]" && '\n' !in seg
    && exists lines :: AllClean(lines) && seg == Render(tag, lines)
  }

  predicate AllClean(lines: seq<string>)
  {
    forall i :: 0 <= i < |lines| ==> IsCleanLyric(lines[i])
  }

  predicate IsTag(tag: string)
  {
    forall i :: 0 <= i < |tag| ==> IsTagChar(tag[i])
  }

  /** A rendered section of clean lyrics is a segment for its tag. */
  lemma {:induction false} RenderIsSegment(tag: string, lines: seq<string>)
    requires IsTag(tag)
    requires forall i :: 0 <= i < |lines| ==> IsCleanLyric(lines[i])
    ensures SegmentFor(Render(tag, lines), tag)
  {
    var f := seq(|lines|, i requires 0 <= i < |lines| => FormatLine(lines[i]));
    forall i | 0 <= i < |lines| ensures '\n' !in f[i] {
      FormatCleanLyric(lines[i]);
    }
    JoinExcludes(f, " ", '\n');
    assert '\n' !in tag by {
      assert forall i :: 0 <= i < |tag| ==> tag[i] != '\n';
    }
    var r := Render(tag, lines);
    assert r[..|tag| + 2] == "[" + tag + "]";
    assert AllClean(lines);
  }

  /** What the fold keeps for the header tags `h` seen so far: one closed
      section per header before the last, each a segment for its tag, the
      last header's tag open, and only clean lyrics collected for it. */
  ghost predicate Tracks(h: seq<string>, st: State)
  {
    |st.sections| + (if st.current.Some? then 1 else 0) == |h|
    && (st.current.Some? <==> h != [])
    && (st.current.Some? ==> st.current.value == h[|h| - 1] && IsTag(st.current.value))
    && (st.current.None? ==> st.lines == [])
    && (forall i :: 0 <= i < |st.sections| ==> SegmentFor(st.sections[i], h[i]))
    && (forall i :: 0 <= i < |st.lines| ==> IsCleanLyric(st.lines[i]))
  }

  /** Closing the open section turns it into the segment for the last tag. */
  lemma FlushSegments(h: seq<string>, st: State)
    requires Tracks(h, st)
    ensures |Flush(st)| == |h|
    ensures forall i :: 0 <= i < |h| ==> SegmentFor(Flush(st)[i], h[i])
  {
    if st.current.Some? {
      RenderIsSegment(st.current.value, st.lines);
    }
  }

  lemma StepHeaderTracks(h: seq<string>, st: State, line: string)
    requires Tracks(h, st) && IsHeader(line)
    ensures Tracks(h + [HeaderTag(line)], StepLine(st, line))
  {
    FlushSegments(h, st);
    var h' := h + [HeaderTag(line)];
    assert forall i :: 0 <= i < |h| ==> h'[i] == h[i];
  }

  lemma StepOtherTracks(h: seq<string>, st: State, line: string)
    requires Tracks(h, st) && '\n' !in line
    requires line == [] || !IsHeader(line)
    ensures Tracks(h, StepLine(st, line))
  {
    if line != [] && st.current.Some? && CleanLine(line) != [] {
      CleanLineIsClean(line);
    }
  }

  lemma {:induction false} FoldTracks(lines: seq<string>)
    requires forall k :: 0 <= k < |lines| ==> '\n' !in lines[k]
    ensures Tracks(Headers(lines), Fold(lines))
  {
    if lines != [] {
      var init, raw := lines[..|lines| - 1], lines[|lines| - 1];
      FoldTracks(init);
      var line := Strip(raw);
      assert '\n' !in line;
      if line != [] && IsHeader(line) {
        StepHeaderTracks(Headers(init), Fold(init), line);
      } else {
        StepOtherTracks(Headers(init), Fold(init), line);
        assert TagOf(line) == [];
        assert Headers(lines) == Headers(init) + [];
      }
    }
  }

  /** After the whole reply: one segment per header line, in encounter
      order, each starting with its `[tag]` and free of newlines. */
  lemma FinalSegments(lines: seq<string>)
    requires forall k :: 0 <= k < |lines| ==> '\n' !in lines[k]
    ensures |Flush(Fold(lines))| == |Headers(lines)|
    ensures forall i :: 0 <= i < |Headers(lines)| ==> SegmentFor(Flush(Fold(lines))[i], Headers(lines)[i])
  {
    FoldTracks(lines);
    FlushSegments(Headers(lines), Fold(lines));
  }

  /** The output has one `" ; "`-separated segment per header line, in
      encounter order, each starting with `[tag]`; lines before the first
      header contribute nothing. */
  lemma SegmentsFollowHeaders(raw: string)
    ensures var segs, h := Flush(Fold(Split(raw, '\n'))), Headers(Split(raw, '\n'));
      Clean(raw) == Join(segs, " ; ")
      && |segs| == |h|
      && forall i :: 0 <= i < |segs| ==> |segs[i]| >= |h[i]| + 2 && segs[i][..|h[i]| + 2] == "[" + h[i] + "]"
  {
    FinalSegments(Split(raw, '\n'));
  }

  /** The rendered text of a section is its kept lyrics each followed by
      one `.`, separated by spaces; a section with none is the bare tag. */
  lemma {:induction false} SectionTextOfClean(lines: seq<string>)
    requires forall i :: 0 <= i < |lines| ==> IsCleanLyric(lines[i])
    ensures SectionText(lines) == Dotted(lines)
    ensures lines == [] ==> SectionText(lines) == ""
  {
    var a := seq(|lines|, i requires 0 <= i < |lines| => FormatLine(lines[i]));
    var b := seq(|lines|, i requires 0 <= i < |lines| => lines[i] + ".");
    forall i | 0 <= i < |lines| ensures a[i] == b[i] {
      FormatCleanLyric(lines[i]);
    }
    assert a == b;
  }

  /** The output is a single line. */
  lemma CleanHasNoNewline(raw: string)
    ensures '\n' !in Clean(raw)
  {
    var parts := Split(raw, '\n');
    FinalSegments(parts);
    JoinExcludes(Flush(Fold(parts)), " ; ", '\n');
  }

  /** Clean lyrics, each followed by one `.`, separated by spaces. */
  function Dotted(lines: seq<string>): string
  {
    Join(seq(|lines|, j requires 0 <= j < |lines| => lines[j] + "."), " ")
  }

  /** `[tag]` followed by the dotted text of some clean lyrics. */
  ghost predicate CleanSegment(seg: string, tag: string)
  {
    exists lines :: AllClean(lines) && seg == "[" + tag + "]" + Dotted(lines)
  }

  lemma SegmentIsClean(seg: string, tag: string)
    requires SegmentFor(seg, tag)
    ensures CleanSegment(seg, tag)
  {
    var lines :| AllClean(lines) && seg == Render(tag, lines);
    SectionTextOfClean(lines);
    assert seg == "[" + tag + "]" + Dotted(lines);
  }

  /** Every segment is `[tag]` followed by its kept lyrics, each a clean
      lyric (no ` `, `，`, `。`) ending in one `.`, separated by spaces; a
      header with no kept lines is the bare `[tag]`. */
  lemma SegmentsHoldCleanLyrics(raw: string)
    ensures var segs, h := Flush(Fold(Split(raw, '\n'))), Headers(Split(raw, '\n'));
      |segs| == |h| && forall i :: 0 <= i < |segs| ==> CleanSegment(segs[i], h[i])
  {
    var parts := Split(raw, '\n');
    FinalSegments(parts);
    var segs, h := Flush(Fold(parts)), Headers(parts);
    forall i | 0 <= i < |segs| ensures CleanSegment(segs[i], h[i]) {
      SegmentIsClean(segs[i], h[i]);
    }
  }

  /** The indices of the header lines among `lines`, in increasing order,
      one per header tag. */
  function Positions(lines: seq<string>): (p: seq<int>)
    ensures forall j :: 0 <= j < |p| ==> 0 <= p[j] < |lines|
    ensures forall j, k :: 0 <= j < k < |p| ==> p[j] < p[k]
  {
    if lines == [] then []
    else
      var init := lines[..|lines| - 1];
      Positions(init) + (if IsHeader(Strip(lines[|lines| - 1])) then [|lines| - 1] else [])
  }

  /** `p` indexes header lines of `lines` and `h` holds their tags. */
  ghost predicate MarksAt(lines: seq<string>, p: seq<int>, h: seq<string>)
  {
    |p| == |h|
    && forall j :: 0 <= j < |p| ==>
      0 <= p[j] < |lines| && IsHeader(Strip(lines[p[j]])) && h[j] == HeaderTag(Strip(lines[p[j]]))
  }

  /** Each position is a header line, and its tag is the matching header
      tag. */
  lemma {:induction false} PositionsAreHeaders(lines: seq<string>)
    ensures MarksAt(lines, Positions(lines), Headers(lines))
  {
    if lines != [] {
      var init, raw := lines[..|lines| - 1], lines[|lines| - 1];
      assert init + [raw] == lines;
      PositionsAreHeaders(init);
      MarksSnoc(init, raw);
      var p, h := Positions(init), Headers(init);
      var q, g := p + (if IsHeader(Strip(raw)) then [|init|] else []), h + TagOf(Strip(raw));
      HeaderMarks(init, raw, p, h);
      MarksEq(init + [raw], q, g, lines, Positions(lines), Headers(lines));
    }
  }

  /** One more line keeps the marks, adding its own when it is a header. */
  lemma {:induction false} HeaderMarks(init: seq<string>, raw: string, p: seq<int>, h: seq<string>)
    requires MarksAt(init, p, h)
    ensures MarksAt(init + [raw], p + (if IsHeader(Strip(raw)) then [|init|] else []), h + TagOf(Strip(raw)))
  {
  }

  /** `MarksAt` of equal arguments. */
  lemma {:induction false} MarksEq(lines: seq<string>, p: seq<int>, h: seq<string>, lines': seq<string>, p': seq<int>, h': seq<string>)
    requires MarksAt(lines, p, h) && lines == lines' && p == p' && h == h'
    ensures MarksAt(lines', p', h')
  {
  }

  /** Where the section of the `j`-th header ends: at the next header, or
      at the end of the reply. */
  function NextPosition(p: seq<int>, j: nat, n: nat): int
  {
    if j + 1 < |p| then p[j + 1] else n
  }

  /** What a stripped line contributes to its section: its cleaned text,
      when it is a non-header line that does not clean to nothing. */
  function Kept(line: string): seq<string>
  {
    if line != [] && !IsHeader(line) && CleanLine(line) != [] then [CleanLine(line)] else []
  }

  /** What a raw line contributes, once stripped. */
  function KeptRaw(raw: string): seq<string>
  {
    Kept(Strip(raw))
  }

  /** The concatenated contributions `f(lines[k])` for `a <= k < b`. */
  function Collect(lines: seq<string>, f: string -> seq<string>, a: nat, b: nat): seq<string>
    requires b <= |lines|
    decreases b
  {
    if b <= a then [] else Collect(lines, f, a, b - 1) + f(lines[b - 1])
  }

  /** The cleaned lyric lines among `lines[a..b]`, in order. */
  function LyricsIn(lines: seq<string>, a: nat, b: nat): seq<string>
    requires b <= |lines|
  {
    Collect(lines, KeptRaw, a, b)
  }

  /** `Flush` with the renderer `r` in place of `Render`. */
  function FlushBy(st: State, r: (string, seq<string>) -> string): seq<string>
  {
    if st.current.Some? then st.sections + [r(st.current.value, st.lines)] else st.sections
  }

  /** `Flush` renders with `Render`. */
  lemma {:induction false} FlushIsFlushBy(st: State)
    ensures Flush(st) == FlushBy(st, Render)
  {
  }

  /** The fold's state over `lines`, described by header positions `p` and
      tags `h`, by what each line contributes, `f`, and by the renderer
      `r`: every closed section renders the contributions between its
      header and the next one, and the open section holds those after the
      last header. */
  ghost predicate SegmentedBy(lines: seq<string>, f: string -> seq<string>, r: (string, seq<string>) -> string,
                              p: seq<int>, h: seq<string>, st: State)
  {
    |h| == |p| && |p| == |st.sections| + (if st.current.Some? then 1 else 0)
    && (forall j :: 0 <= j < |p| ==> 0 <= p[j] < |lines|)
    && (st.current.None? ==> p == [] && st.lines == [])
    && (forall j {:trigger st.sections[j]} :: 0 <= j < |st.sections| ==>
          st.sections[j] == r(h[j], Collect(lines, f, p[j] + 1, NextPosition(p, j, |lines|))))
    && (st.current.Some? ==>
          st.current.value == h[|h| - 1] && st.lines == Collect(lines, f, p[|p| - 1] + 1, |lines|))
  }

  /** A range that ends before a new last line does not see it. */
  lemma {:induction false} CollectSnoc(lines: seq<string>, raw: string, f: string -> seq<string>, a: nat, b: nat)
    requires b <= |lines|
    ensures Collect(lines + [raw], f, a, b) == Collect(lines, f, a, b)
    decreases b
  {
    if b > a {
      CollectSnoc(lines, raw, f, a, b - 1);
      assert (lines + [raw])[b - 1] == lines[b - 1];
    }
  }

  /** A range up to a new last line takes in its contribution. */
  lemma {:induction false} CollectLast(lines: seq<string>, raw: string, f: string -> seq<string>, a: nat)
    requires a <= |lines|
    ensures Collect(lines + [raw], f, a, |lines| + 1) == Collect(lines, f, a, |lines|) + f(raw)
  {
    CollectSnoc(lines, raw, f, a, |lines|);
  }

  /** A header line closes the open section; its own section starts empty. */
  lemma {:induction false} SegmentedHeader(init: seq<string>, raw: string, f: string -> seq<string>, r: (string, seq<string>) -> string,
                        p: seq<int>, h: seq<string>, st: State, tag: string)
    requires SegmentedBy(init, f, r, p, h, st)
    ensures SegmentedBy(init + [raw], f, r, p + [|init|], h + [tag], State(FlushBy(st, r), Some(tag), []))
  {
    var lines, q := init + [raw], p + [|init|];
    FlushSegmented(init, f, r, p, h, st);
    ClosedAfterHeader(init, raw, f, r, p, h, st, tag);
    assert Collect(lines, f, q[|q| - 1] + 1, |lines|) == [];
  }

  /** The sections a header line closes keep their contents. */
  lemma {:induction false} ClosedAfterHeader(init: seq<string>, raw: string, f: string -> seq<string>, r: (string, seq<string>) -> string,
                          p: seq<int>, h: seq<string>, st: State, tag: string)
    requires forall j :: 0 <= j < |p| ==> 0 <= p[j] < |init|
    requires |FlushBy(st, r)| == |p| == |h|
    requires forall j {:trigger FlushBy(st, r)[j]} :: 0 <= j < |p| ==>
      FlushBy(st, r)[j] == r(h[j], Collect(init, f, p[j] + 1, NextPosition(p, j, |init|)))
    ensures var lines, q := init + [raw], p + [|init|];
      forall j {:trigger FlushBy(st, r)[j]} :: 0 <= j < |p| ==>
        FlushBy(st, r)[j] == r((h + [tag])[j], Collect(lines, f, q[j] + 1, NextPosition(q, j, |lines|)))
  {
    forall j | 0 <= j < |p|
      ensures FlushBy(st, r)[j] == r((h + [tag])[j], Collect(init + [raw], f, (p + [|init|])[j] + 1,
                                                             NextPosition(p + [|init|], j, |init| + 1)))
    {
      ClosedAt(init, raw, f, r, p, h, st, tag, j);
    }
  }

  /** One closed section keeps its contents past a header line. */
  lemma {:induction false} ClosedAt(init: seq<string>, raw: string, f: string -> seq<string>, r: (string, seq<string>) -> string,
                 p: seq<int>, h: seq<string>, st: State, tag: string, j: nat)
    requires j < |p| == |h| == |FlushBy(st, r)| && 0 <= p[j] < |init|
    requires j + 1 < |p| ==> 0 <= p[j + 1] < |init|
    requires FlushBy(st, r)[j] == r(h[j], Collect(init, f, p[j] + 1, NextPosition(p, j, |init|)))
    ensures FlushBy(st, r)[j] == r((h + [tag])[j], Collect(init + [raw], f, (p + [|init|])[j] + 1,
                                                           NextPosition(p + [|init|], j, |init| + 1)))
  {
    ClosedRange(init, raw, f, p, j);
    assert (h + [tag])[j] == h[j];
  }

  /** The contributions of one closed section are unchanged by a new last
      line and position. */
  lemma {:induction false} ClosedRange(init: seq<string>, raw: string, f: string -> seq<string>, p: seq<int>, j: nat)
    requires j < |p| && 0 <= p[j] < |init|
    requires j + 1 < |p| ==> 0 <= p[j + 1] < |init|
    ensures Collect(init + [raw], f, (p + [|init|])[j] + 1, NextPosition(p + [|init|], j, |init| + 1))
         == Collect(init, f, p[j] + 1, NextPosition(p, j, |init|))
  {
    NextAfterHeader(p, j, |init|);
    CollectSnoc(init, raw, f, p[j] + 1, NextPosition(p, j, |init|));
  }

  /** A position appended after `p` leaves the earlier sections' bounds. */
  lemma {:induction false} NextAfterHeader(p: seq<int>, j: nat, n: nat)
    requires j < |p|
    ensures (p + [n])[j] == p[j]
    ensures NextPosition(p + [n], j, n + 1) == NextPosition(p, j, n)
  {
  }

  /** Any other line extends the open section by what it contributes. */
  lemma {:induction false} SegmentedOther(init: seq<string>, raw: string, f: string -> seq<string>, r: (string, seq<string>) -> string,
                       p: seq<int>, h: seq<string>, st: State)
    requires SegmentedBy(init, f, r, p, h, st)
    ensures SegmentedBy(init + [raw], f, r, p, h, if st.current.Some? then st.(lines := st.lines + f(raw)) else st)
  {
    forall j | 0 <= j < |st.sections|
      ensures Collect(init + [raw], f, p[j] + 1, NextPosition(p, j, |init| + 1))
           == Collect(init, f, p[j] + 1, NextPosition(p, j, |init|))
    {
      CollectSnoc(init, raw, f, p[j] + 1, NextPosition(p, j, |init|));
    }
    if st.current.Some? {
      CollectLast(init, raw, f, p[|p| - 1] + 1);
    }
  }

  /** Flushing a segmented state renders one section per header. */
  lemma {:induction false} FlushSegmented(lines: seq<string>, f: string -> seq<string>, r: (string, seq<string>) -> string,
                       p: seq<int>, h: seq<string>, st: State)
    requires SegmentedBy(lines, f, r, p, h, st)
    ensures |FlushBy(st, r)| == |p|
    ensures forall j {:trigger FlushBy(st, r)[j]} :: 0 <= j < |p| ==>
      FlushBy(st, r)[j] == r(h[j], Collect(lines, f, p[j] + 1, NextPosition(p, j, |lines|)))
  {
    FlushShape(st, r);
    forall j | 0 <= j < |p|
      ensures FlushBy(st, r)[j] == r(h[j], Collect(lines, f, p[j] + 1, NextPosition(p, j, |lines|)))
    {
      if j < |st.sections| {
        FlushClosed(lines, f, r, p, h, st, j);
      } else {
        FlushOpen(lines, f, r, p, h, st, j);
      }
    }
  }

  lemma {:induction false} FlushClosed(lines: seq<string>, f: string -> seq<string>, r: (string, seq<string>) -> string,
                    p: seq<int>, h: seq<string>, st: State, j: nat)
    requires SegmentedBy(lines, f, r, p, h, st) && j < |st.sections|
    ensures FlushBy(st, r)[j] == r(h[j], Collect(lines, f, p[j] + 1, NextPosition(p, j, |lines|)))
  {
    FlushShape(st, r);
  }

  lemma {:induction false} FlushOpen(lines: seq<string>, f: string -> seq<string>, r: (string, seq<string>) -> string,
                  p: seq<int>, h: seq<string>, st: State, j: nat)
    requires SegmentedBy(lines, f, r, p, h, st) && |st.sections| <= j < |p|
    ensures FlushBy(st, r)[j] == r(h[j], Collect(lines, f, p[j] + 1, NextPosition(p, j, |lines|)))
  {
    FlushShape(st, r);
    assert j == |st.sections| == |p| - 1;
    assert NextPosition(p, j, |lines|) == |lines|;
  }

  /** `FlushBy` keeps the closed sections and appends the open one. */
  lemma {:induction false} FlushShape(st: State, r: (string, seq<string>) -> string)
    ensures |FlushBy(st, r)| == |st.sections| + (if st.current.Some? then 1 else 0)
    ensures forall j :: 0 <= j < |st.sections| ==> FlushBy(st, r)[j] == st.sections[j]
    ensures st.current.Some? ==> FlushBy(st, r)[|st.sections|] == r(st.current.value, st.lines)
  {
  }

  /** Positions and tags after one more line. */
  lemma {:induction false} MarksSnoc(init: seq<string>, raw: string)
    ensures Positions(init + [raw]) == Positions(init) + (if IsHeader(Strip(raw)) then [|init|] else [])
    ensures Headers(init + [raw]) == Headers(init) + TagOf(Strip(raw))
  {
    assert (init + [raw])[..|init|] == init;
  }

  /** The loop step on a header line, and on any other line. */
  lemma {:induction false} StepCases(st: State, raw: string)
    ensures IsHeader(Strip(raw)) ==> Step(st, raw) == State(Flush(st), Some(HeaderTag(Strip(raw))), [])
    ensures !IsHeader(Strip(raw)) ==>
      Step(st, raw) == if st.current.Some? then st.(lines := st.lines + KeptRaw(raw)) else st
  {
  }

  /** The fold's state is segmented by the reply's header positions and
      tags, each line contributing its kept lyric and each section
      rendered by `Render`. */
  lemma {:induction false} FoldSegmented(lines: seq<string>)
    ensures SegmentedBy(lines, KeptRaw, Render, Positions(lines), Headers(lines), Fold(lines))
  {
    if lines != [] {
      var init, raw := lines[..|lines| - 1], lines[|lines| - 1];
      assert init + [raw] == lines;
      FoldSegmented(init);
      FoldSnoc(init, raw);
      StepCases(Fold(init), raw);
      MarksSnoc(init, raw);
      var st, p, h := Fold(init), Positions(init), Headers(init);
      if IsHeader(Strip(raw)) {
        var tag := HeaderTag(Strip(raw));
        assert TagOf(Strip(raw)) == [tag];
        FlushIsFlushBy(st);
        SegmentedHeader(init, raw, KeptRaw, Render, p, h, st, tag);
        SegmentedEq(init + [raw], KeptRaw, Render, p + [|init|], h + [tag], State(FlushBy(st, Render), Some(tag), []),
                    lines, Positions(lines), Headers(lines), Fold(lines));
      } else {
        assert TagOf(Strip(raw)) == [];
        SegmentedOther(init, raw, KeptRaw, Render, p, h, st);
        SegmentedEq(init + [raw], KeptRaw, Render, p, h,
                    if st.current.Some? then st.(lines := st.lines + KeptRaw(raw)) else st,
                    lines, Positions(lines), Headers(lines), Fold(lines));
      }
    }
  }

  /** `SegmentedBy` of equal arguments. */
  lemma {:induction false} SegmentedEq(lines: seq<string>, f: string -> seq<string>, r: (string, seq<string>) -> string,
                    p: seq<int>, h: seq<string>, st: State,
                    lines': seq<string>, p': seq<int>, h': seq<string>, st': State)
    requires SegmentedBy(lines, f, r, p, h, st)
    requires lines == lines' && p == p' && h == h' && st == st'
    ensures SegmentedBy(lines', f, r, p', h', st')
  {
  }

  /** Contributions that are all clean lyrics collect into clean lyrics. */
  lemma {:induction false} CollectClean(lines: seq<string>, f: string -> seq<string>, a: nat, b: nat)
    requires b <= |lines|
    requires forall k :: 0 <= k < |lines| ==> AllClean(f(lines[k]))
    ensures AllClean(Collect(lines, f, a, b))
    decreases b
  {
    if b > a {
      CollectClean(lines, f, a, b - 1);
      var xs, ys := Collect(lines, f, a, b - 1), f(lines[b - 1]);
      assert forall i :: 0 <= i < |xs + ys| ==> (xs + ys)[i] == if i < |xs| then xs[i] else ys[i - |xs|];
    }
  }

  /** A raw line without a newline keeps at most one clean lyric. */
  lemma {:induction false} KeptRawClean(raw: string)
    requires '\n' !in raw
    ensures AllClean(KeptRaw(raw))
  {
    var line := Strip(raw);
    assert '\n' !in line;
    if Kept(line) != [] {
      CleanLineIsClean(line);
    }
  }

  /** The kept lines of a reply's split are clean lyrics. */
  lemma {:induction false} LyricsInClean(lines: seq<string>, a: nat, b: nat)
    requires b <= |lines|
    requires forall k :: 0 <= k < |lines| ==> '\n' !in lines[k]
    ensures AllClean(LyricsIn(lines, a, b))
  {
    forall k | 0 <= k < |lines| ensures AllClean(KeptRaw(lines[k])) {
      KeptRawClean(lines[k]);
    }
    CollectClean(lines, KeptRaw, a, b);
  }

  /** `segs` holds one segment per header line of `lines`, in order: the
      header's tag in brackets followed by the cleaned lyric lines between
      that header line and the next one (or the end), each ending in `.`
      and joined by spaces. */
  ghost predicate SectionsHoldLyrics(lines: seq<string>, segs: seq<string>)
  {
    SectionsAt(lines, Positions(lines), Headers(lines), segs)
  }

  /** The same with the header positions `p` and tags `h` given. */
  ghost predicate SectionsAt(lines: seq<string>, p: seq<int>, h: seq<string>, segs: seq<string>)
    requires forall j :: 0 <= j < |p| ==> 0 <= p[j] < |lines|
  {
    |segs| == |p| == |h|
    && forall j {:trigger segs[j]} :: 0 <= j < |p| ==>
      var lyrics := LyricsIn(lines, p[j] + 1, NextPosition(p, j, |lines|));
      AllClean(lyrics) && segs[j] == "[" + h[j] + "]" + Dotted(lyrics)
  }

  /** Every segment of the output holds the lyrics under its own header. */
  lemma {:induction false} SegmentsHoldTheirLyrics(raw: string)
    ensures SectionsHoldLyrics(Split(raw, '\n'), Flush(Fold(Split(raw, '\n'))))
  {
    var parts := Split(raw, '\n');
    var st := Fold(parts);
    FoldSegmented(parts);
    SegmentsOf(parts, Positions(parts), Headers(parts), st);
  }

  /** The sections of a segmented state over lines without newlines. */
  lemma {:induction false} SegmentsOf(lines: seq<string>, p: seq<int>, h: seq<string>, st: State)
    requires SegmentedBy(lines, KeptRaw, Render, p, h, st)
    requires forall k :: 0 <= k < |lines| ==> '\n' !in lines[k]
    ensures SectionsAt(lines, p, h, Flush(st))
  {
    FlushSegmented(lines, KeptRaw, Render, p, h, st);
    FlushIsFlushBy(st);
    forall j | 0 <= j < |p|
      ensures var lyrics := LyricsIn(lines, p[j] + 1, NextPosition(p, j, |lines|));
        AllClean(lyrics) && Flush(st)[j] == "[" + h[j] + "]" + Dotted(lyrics)
    {
      var lyrics := LyricsIn(lines, p[j] + 1, NextPosition(p, j, |lines|));
      LyricsInClean(lines, p[j] + 1, NextPosition(p, j, |lines|));
      RenderClean(h[j], lyrics);
    }
  }

  /** A section of clean lyrics renders as its tag and its dotted lines. */
  lemma {:induction false} RenderClean(tag: string, lyrics: seq<string>)
    requires AllClean(lyrics)
    ensures Render(tag, lyrics) == "[" + tag + "]" + Dotted(lyrics)
  {
    SectionTextOfClean(lyrics);
  }

  /** A reply with no header line gives the empty string: blank lines and
      lines before the first header are dropped. */
  lemma NoHeaderNoOutput(raw: string)
    requires Headers(Split(raw, '\n')) == []
    ensures Clean(raw) == ""
  {
    FinalSegments(Split(raw, '\n'));
  }

  /** A blank line, and a lyric line before any header, leave the state as
      it is. */
  lemma SkippedLines(st: State, raw: string)
    requires Strip(raw) == [] || (st.current.None? && !IsHeader(Strip(raw)))
    ensures Step(st, raw) == st
  {
  }

  /** A verse with one lyric line, a blank line and an empty chorus. */
  lemma ExampleClean()
    ensures Clean("[verse]\nab cd\n\n[chorus]") == "[verse]ab.cd. ; [chorus]"
  {
    ExampleSplit();
    ExampleFold("ab cd");
    ExampleVerse("ab cd");
    ExampleJoin();
  }

  lemma ExampleJoin()
    ensures Join(Flush(State(["[verse]ab.cd."], Some("chorus"), [])), " ; ") == "[verse]ab.cd. ; [chorus]"
  {
    assert SectionText([]) == "";
    assert Render("chorus", []) == "[chorus]";
    var segs := ["[verse]ab.cd.", "[chorus]"];
    assert Flush(State(["[verse]ab.cd."], Some("chorus"), [])) == segs;
    assert Join(segs, " ; ") == "[verse]ab.cd." + " ; " + Join(segs[1..], " ; ");
    assert segs[1..] == ["[chorus]"];
  }

  /** The verse segment the example closes. */
  lemma ExampleVerse(raw: string)
    requires raw == "ab cd"
    ensures Render("verse", [CleanLine(raw)]) == "[verse]ab.cd."
  {
    ExampleCleanLine(raw);
    ExampleRender();
  }

  lemma ExampleFold(raw: string)
    requires raw == "ab cd"
    ensures Fold(["[verse]", raw, "", "[chorus]"]) == State([Render("verse", [CleanLine(raw)])], Some("chorus"), [])
  {
    ExampleSnoc(raw);
    var s1 := State([], Some("verse"), []);
    var s2 := State([], Some("verse"), [CleanLine(raw)]);
    FoldSnoc([], "[verse]");
    FoldSnoc(["[verse]"], raw);
    FoldSnoc(["[verse]", raw], "");
    FoldSnoc(["[verse]", raw, ""], "[chorus]");
    ExampleStepHeader();
    ExampleStepLyric(s1, raw);
    BlankStep(s2, "");
    ExampleStepClose(s2);
  }

  lemma ExampleStepLyric(st: State, raw: string)
    requires st == State([], Some("verse"), []) && raw == "ab cd"
    ensures Step(st, raw) == State([], Some("verse"), [CleanLine(raw)])
  {
    ExampleLyricLine(raw);
    assert CleanLine(raw) != [] by {
      ExampleCleanLine(raw);
    }
    LyricStep(st, raw, CleanLine(raw));
  }

  lemma ExampleSnoc(raw: string)
    ensures [] + ["[verse]"] == ["[verse]"]
    ensures ["[verse]"] + [raw] == ["[verse]", raw]
    ensures ["[verse]", raw] + [""] == ["[verse]", raw, ""]
    ensures ["[verse]", raw, ""] + ["[chorus]"] == ["[verse]", raw, "", "[chorus]"]
  {
  }

  /** The fold over one more line of `parts` is one more step. */
  lemma FoldPrefix(parts: seq<string>, i: nat)
    requires i < |parts|
    ensures Fold(parts[..i + 1]) == Step(Fold(parts[..i]), parts[i])
  {
    assert parts[..i + 1][..i] == parts[..i];
  }

  /** The fold over one more line is one more step. */
  lemma FoldSnoc(lines: seq<string>, raw: string)
    ensures Fold(lines + [raw]) == Step(Fold(lines), raw)
  {
    assert (lines + [raw])[..|lines|] == lines;
  }

  /** A blank line leaves the state as it is. */
  lemma BlankStep(st: State, raw: string)
    requires forall i :: 0 <= i < |raw| ==> IsSpace(raw[i])
    ensures Step(st, raw) == st
  {
    assert LStrip(raw, IsSpace) == [];
  }

  /** A stripped header line closes the open section and opens its own. */
  lemma HeaderStep(st: State, raw: string)
    requires IsStripped(raw) && IsHeader(raw)
    ensures Step(st, raw) == State(Flush(st), Some(HeaderTag(raw)), [])
  {
    StripOfStripped(raw);
  }

  /** A stripped non-header line under an open header adds its cleaned text. */
  lemma LyricStep(st: State, raw: string, cleaned: string)
    requires IsStripped(raw) && raw != [] && raw[0] != '['
    requires st.current.Some? && CleanLine(raw) == cleaned && cleaned != []
    ensures Step(st, raw) == st.(lines := st.lines + [cleaned])
  {
    StripOfStripped(raw);
  }

  lemma ExampleStepHeader()
    ensures Step(Start, "[verse]") == State([], Some("verse"), [])
  {
    var l := "[verse]";
    assert IsStripped(l);
    assert IsHeader(l) by {
      assert forall i :: 1 <= i < 6 ==> IsTagChar(l[i]);
    }
    assert HeaderTag(l) == "verse";
    HeaderStep(Start, l);
  }

  lemma ExampleLyricLine(raw: string)
    requires raw == "ab cd"
    ensures IsStripped(raw) && raw != [] && raw[0] != '['
  {
  }

  lemma ExampleStepClose(st: State)
    requires st.sections == [] && st.current == Some("verse")
    ensures Step(st, "[chorus]") == State([Render("verse", st.lines)], Some("chorus"), [])
  {
    var l := "[chorus]";
    assert IsStripped(l);
    assert IsHeader(l) by {
      assert forall i :: 1 <= i < 7 ==> IsTagChar(l[i]);
    }
    assert |l| == 8 && l[1..7] == "chorus";
    assert HeaderTag(l) == "chorus";
    HeaderStep(st, l);
  }

  lemma ExampleRender()
    ensures Render("verse", ["ab.cd"]) == "[verse]ab.cd."
  {
    assert RStrip("ab.cd", c => c == '.') == "ab.cd";
    assert FormatLine("ab.cd") == "ab.cd.";
    var f := seq(1, i requires 0 <= i < 1 => FormatLine(["ab.cd"][i]));
    assert |f| == 1 && f[0] == "ab.cd.";
    assert f == ["ab.cd."];
    assert SectionText(["ab.cd"]) == "ab.cd.";
  }

  lemma ExampleSplit()
    ensures Split("[verse]\nab cd\n\n[chorus]", '\n') == ["[verse]", "ab cd", "", "[chorus]"]
  {
    var r3 := "[chorus]";
    var r2 := "" + "\n" + r3;
    var r1 := "ab cd" + "\n" + r2;
    var r0 := "[verse]" + "\n" + r1;
    assert r0 == "[verse]\nab cd\n\n[chorus]";
    assert '\n' !in r3;
    assert Split(r3, '\n') == [r3];
    SplitCons("", r3, '\n');
    SplitCons("ab cd", r2, '\n');
    SplitCons("[verse]", r1, '\n');
    assert Split(r0, '\n') == ["[verse]"] + (["ab cd"] + ([""] + [r3]));
    ExampleLines();
  }

  lemma ExampleLines()
    ensures ["[verse]"] + (["ab cd"] + ([""] + ["[chorus]"])) == ["[verse]", "ab cd", "", "[chorus]"]
  {
    var a: seq<string> := [""] + ["[chorus]"];
    assert a == ["", "[chorus]"];
  }

  lemma ExampleCleanLine(raw: string)
    requires raw == "ab cd"
    ensures CleanLine(raw) == "ab.cd"
  {
    var t := Replace(raw, ' ', '.');
    ExampleReplace(raw);
    ExampleDotted(t);
    ReplaceAbsent(t, '，', '.');
    ReplaceAbsent(t, '。', '.');
    StripOfKept(t, IsDotOrSpace);
  }

  lemma ExampleReplace(raw: string)
    requires raw == "ab cd"
    ensures Replace(raw, ' ', '.') == "ab.cd"
  {
  }

  lemma ExampleDotted(t: string)
    requires t == "ab.cd"
    ensures '，' !in t && '。' !in t && t != [] && !IsDotOrSpace(t[0]) && !IsDotOrSpace(t[|t| - 1])
  {
  }

  /** Replacing a character that does not occur changes nothing. */
  lemma ReplaceAbsent(s: string, a: char, b: char)
    requires a !in s
    ensures Replace(s, a, b) == s
  {
  }

  /** Stripping a string whose ends are kept changes nothing. */
  lemma StripOfKept(s: string, drop: char -> bool)
    requires s != [] && !drop(s[0]) && !drop(s[|s| - 1])
    ensures StripOf(s, drop) == s
  {
  }
}
