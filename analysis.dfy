/** The reply handling of the `analyze_lyrics` node: the code-fence strip
    before `json.loads` and the fixed-order join of the five fields after
    it. `json.loads` itself is a parameter. */
module Analysis {
  import opened Wrappers
  import opened Text

  const JsonFence := "```json"
  const Fence := "```"

  predicate StartsWith(s: string, p: string)
  {
    |p| <= |s| && s[..|p|] == p
  }

  predicate EndsWith(s: string, p: string)
  {
    |p| <= |s| && s[|s| - |p|..] == p
  }

  /** `content.strip()`, then one leading "```json" and one trailing "```"
      removed, each followed by another strip. */
  function StripFences(content: string): (r: string)
    ensures IsStripped(r)
  {
    var c0 := Strip(content);
    var c1 := if StartsWith(c0, JsonFence) then StrippedAfter(c0) else c0;
    StripIsStripped(content);
    if EndsWith(c1, Fence) then StrippedBefore(c1) else c1
  }

  /** `c[7:].strip()` once `c` starts with "```json". */
  function StrippedAfter(c: string): (r: string)
    requires StartsWith(c, JsonFence)
    ensures IsStripped(r) && r == Strip(c[7..])
  {
    StripIsStripped(c[7..]);
    Strip(c[7..])
  }

  /** `c[:-3].strip()` once `c` ends with "```". */
  function StrippedBefore(c: string): (r: string)
    requires EndsWith(c, Fence)
    ensures IsStripped(r) && r == Strip(c[..|c| - 3])
  {
    StripIsStripped(c[..|c| - 3]);
    Strip(c[..|c| - 3])
  }

  predicate AllSpace(s: string)
  {
    forall i :: 0 <= i < |s| ==> IsSpace(s[i])
  }

  lemma {:induction false} LStripSpaces(pre: string, rest: string)
    requires AllSpace(pre)
    ensures LStrip(pre + rest, IsSpace) == LStrip(rest, IsSpace)
  {
    if pre != [] {
      assert (pre + rest)[0] == pre[0];
      assert (pre + rest)[1..] == pre[1..] + rest;
      LStripSpaces(pre[1..], rest);
    } else {
      assert pre + rest == rest;
    }
  }

  lemma {:induction false} RStripSpaces(rest: string, post: string)
    requires AllSpace(post)
    ensures RStrip(rest + post, IsSpace) == RStrip(rest, IsSpace)
  {
    if post != [] {
      var s := rest + post;
      assert s[|s| - 1] == post[|post| - 1];
      assert s[..|s| - 1] == rest + post[..|post| - 1];
      RStripSpaces(rest, post[..|post| - 1]);
    } else {
      assert rest + post == rest;
    }
  }

  /** Stripping removes exactly the blank padding around stripped text. */
  lemma StripPadded(pre: string, x: string, post: string)
    requires AllSpace(pre) && AllSpace(post) && IsStripped(x)
    ensures Strip(pre + x + post) == x
  {
    assert pre + x + post == pre + (x + post);
    LStripSpaces(pre, x + post);
    if x != [] {
      assert LStrip(x + post, IsSpace) == x + post;
      RStripSpaces(x, post);
      assert RStrip(x, IsSpace) == x;
    } else {
      assert x + post == post;
      RStripSpaces([], post);
    }
  }

  /** A reply fenced as a JSON code block, with its own blank padding
      before the opening fence, after it, before the closing fence and
      after that, yields the stripped text between the fences. */
  lemma FencedRoundTrip(body: string, p0: string, p1: string, p2: string, p3: string)
    requires IsStripped(body)
    requires AllSpace(p0) && AllSpace(p1) && AllSpace(p2) && AllSpace(p3)
    ensures StripFences(p0 + JsonFence + p1 + body + p2 + Fence + p3) == body
  {
    OpeningFence(body, p0, p1, p2, p3);
    AfterOpeningFence(body, p1, p2);
  }

  /** The usual shape of a model reply: the fences on lines of their own. */
  lemma FencedOnOwnLines(body: string)
    requires IsStripped(body)
    ensures StripFences(JsonFence + "\n" + body + "\n" + Fence) == body
  {
    assert AllSpace([]) && AllSpace("\n");
    assert JsonFence + "\n" + body + "\n" + Fence == [] + JsonFence + "\n" + body + "\n" + Fence + [];
    FencedRoundTrip(body, [], "\n", "\n", []);
  }

  /** The first strip leaves the fenced block, which starts with the
      opening fence. */
  lemma OpeningFence(body: string, p0: string, p1: string, p2: string, p3: string)
    requires IsStripped(body)
    requires AllSpace(p0) && AllSpace(p1) && AllSpace(p2) && AllSpace(p3)
    ensures var c0 := Strip(p0 + JsonFence + p1 + body + p2 + Fence + p3);
      StartsWith(c0, JsonFence) && c0[7..] == p1 + body + p2 + Fence
  {
    var inner := p1 + body + p2 + Fence;
    var c0 := JsonFence + inner;
    FenceConcat(p0, p1, body, p2, p3);
    assert IsStripped(c0);
    StripPadded(p0, c0, p3);
    assert c0[..7] == JsonFence && c0[7..] == inner;
  }

  lemma FenceConcat(p0: string, p1: string, body: string, p2: string, p3: string)
    ensures p0 + JsonFence + p1 + body + p2 + Fence + p3 == p0 + (JsonFence + (p1 + body + p2 + Fence)) + p3
  {
  }

  /** The step after the opening fence: strip, then drop the closing one. */
  lemma AfterOpeningFence(body: string, p1: string, p2: string)
    requires IsStripped(body) && AllSpace(p1) && AllSpace(p2)
    ensures var c1 := Strip(p1 + body + p2 + Fence);
      EndsWith(c1, Fence) && Strip(c1[..|c1| - 3]) == body
  {
    assert AllSpace([]);
    if body != [] {
      var c1 := body + p2 + Fence;
      assert p1 + body + p2 + Fence == p1 + c1 + [];
      assert IsStripped(c1);
      StripPadded(p1, c1, []);
      assert c1[..|c1| - 3] == [] + body + p2;
      StripPadded([], body, p2);
    } else {
      assert p1 + body + p2 + Fence == (p1 + p2) + Fence + [] by {
        assert p1 + body == p1;
      }
      assert AllSpace(p1 + p2);
      assert IsStripped(Fence);
      StripPadded(p1 + p2, Fence, []);
      assert Fence[..0] == [] + [] + [];
      StripPadded([], [], []);
    }
  }

  /** A reply without fences is only stripped. */
  lemma UnfencedIsStripped(content: string)
    requires !StartsWith(Strip(content), JsonFence) && !EndsWith(Strip(content), Fence)
    ensures StripFences(content) == Strip(content)
  {
  }

  /** Stripping fences from an already clean reply changes nothing. */
  lemma StripFencesIdempotentOnPlain(content: string)
    requires !StartsWith(Strip(content), JsonFence) && !EndsWith(Strip(content), Fence)
    ensures StripFences(StripFences(content)) == StripFences(content)
  {
    StripIsStripped(content);
    StripOfStripped(Strip(content));
  }

  /** The five fields, in the order the node reads and joins them. */
  const Fields: seq<string> := ["emotion", "genre", "instrumentation", "timbre", "gender_suggestion"]

  /** What makes the node raise once the reply is in: `content.strip()`
      on a `None` content (`AttributeError`), `json.loads` on text that is
      not a JSON object (`JSONDecodeError`), or a lookup of an absent field
      (`KeyError`). */
  datatype AnalysisError = NoContent | InvalidJson | MissingField(key: string)

  /** The first field of `keys` that `analysis` lacks. */
  function FirstMissing(analysis: map<string, string>, keys: seq<string>): (k: Option<string>)
    ensures k.None? <==> forall i :: 0 <= i < |keys| ==> keys[i] in analysis
    ensures k.Some? ==> k.value !in analysis
    ensures k.Some? ==>
      exists i :: 0 <= i < |keys| && keys[i] == k.value && forall j :: 0 <= j < i ==> keys[j] in analysis
  {
    if keys == [] then None
    else if keys[0] !in analysis then Some(keys[0])
    else
      var k := FirstMissing(analysis, keys[1..]);
      if k.Some? then
        var i :| 0 <= i < |keys[1..]| && keys[1..][i] == k.value && forall j :: 0 <= j < i ==> keys[1..][j] in analysis;
        assert keys[i + 1] == k.value;
        k
      else k
  }

  /** The five lookups of `analysis["emotion"]` … `analysis["gender_suggestion"]`
      and their `", ".join`: the validity checks before the join look the
      fields up in this same order, so the first missing one raises its
      `KeyError` there (the checks themselves and the presence check only
      print). */
  function JoinAnalysis(analysis: map<string, string>): (r: Result<string, AnalysisError>)
    ensures r.Err? ==> r.error.MissingField? && r.error.key !in analysis
  {
    if "emotion" !in analysis then Err(MissingField("emotion"))
    else if "genre" !in analysis then Err(MissingField("genre"))
    else if "instrumentation" !in analysis then Err(MissingField("instrumentation"))
    else if "timbre" !in analysis then Err(MissingField("timbre"))
    else if "gender_suggestion" !in analysis then Err(MissingField("gender_suggestion"))
    else
      Ok(Join([analysis["emotion"], analysis["genre"], analysis["instrumentation"], analysis["timbre"],
               analysis["gender_suggestion"]], ", "))
  }

  /** The node after the reply arrives: strip the fences, decode, join.
      `content` is the reply's `message.content`, which may be `None`;
      `decode` stands for `json.loads` restricted to string-valued objects. */
  function AnalyzeReply(content: Option<string>, decode: string -> Option<map<string, string>>)
    : (r: Result<string, AnalysisError>)
    ensures content.None? ==> r == Err(NoContent)
    ensures content.Some? && decode(StripFences(content.value)).None? ==> r == Err(InvalidJson)
    ensures r.Ok? <==>
      content.Some? && decode(StripFences(content.value)).Some? && HasFields(decode(StripFences(content.value)).value)
    ensures r.Ok? ==>
      var a := decode(StripFences(content.value)).value;
      r.value == a["emotion"] + ", " + a["genre"] + ", " + a["instrumentation"] + ", " + a["timbre"] + ", "
                 + a["gender_suggestion"]
    ensures content.Some? && decode(StripFences(content.value)).Some?
            && !HasFields(decode(StripFences(content.value)).value) ==>
      FirstMissing(decode(StripFences(content.value)).value, Fields).Some?
      && r == Err(MissingField(FirstMissing(decode(StripFences(content.value)).value, Fields).value))
    ensures r.Err? && r.error.MissingField? ==>
      content.Some? && decode(StripFences(content.value)).Some?
      && FirstMissing(decode(StripFences(content.value)).value, Fields) == Some(r.error.key)
  {
    if content.None? then Err(NoContent)
    else
      var parsed := decode(StripFences(content.value));
      if parsed.None? then Err(InvalidJson)
      else
        JoinAnalysisFields(parsed.value);
        JoinAnalysisFirstMissing(parsed.value);
        JoinAnalysis(parsed.value)
  }

  /** A reply fenced as a JSON code block, padded as in `FencedRoundTrip`,
      is decoded from the text between the fences and then joined. */
  lemma AnalyzeFencedReply(body: string, p0: string, p1: string, p2: string, p3: string,
                           decode: string -> Option<map<string, string>>)
    requires IsStripped(body)
    requires AllSpace(p0) && AllSpace(p1) && AllSpace(p2) && AllSpace(p3)
    ensures AnalyzeReply(Some(p0 + JsonFence + p1 + body + p2 + Fence + p3), decode)
            == if decode(body).None? then Err(InvalidJson) else JoinAnalysis(decode(body).value)
  {
    FencedRoundTrip(body, p0, p1, p2, p3);
  }

  predicate HasFields(analysis: map<string, string>)
  {
    "emotion" in analysis && "genre" in analysis && "instrumentation" in analysis && "timbre" in analysis
    && "gender_suggestion" in analysis
  }

  /** The join fails exactly on the first of the five fields, in the fixed
      order, that the object lacks. */
  lemma JoinAnalysisFirstMissing(analysis: map<string, string>)
    ensures JoinAnalysis(analysis).Err? <==> FirstMissing(analysis, Fields).Some?
    ensures JoinAnalysis(analysis).Err? ==> JoinAnalysis(analysis).error == MissingField(FirstMissing(analysis, Fields).value)
  {
    var f1 := Fields[1..];
    var f2 := f1[1..];
    var f3 := f2[1..];
    var f4 := f3[1..];
    assert Fields[0] == "emotion" && f1[0] == "genre" && f2[0] == "instrumentation";
    assert f3[0] == "timbre" && f4[0] == "gender_suggestion" && f4[1..] == [];
  }

  /** The join succeeds exactly when all five fields are present, and then
      holds them in the fixed order, separated by ", "; the value each
      field holds, valid or not, does not matter. */
  lemma JoinAnalysisFields(analysis: map<string, string>)
    ensures JoinAnalysis(analysis).Ok? <==> HasFields(analysis)
    ensures HasFields(analysis) ==>
      JoinAnalysis(analysis).value
      == analysis["emotion"] + ", " + analysis["genre"] + ", " + analysis["instrumentation"] + ", "
         + analysis["timbre"] + ", " + analysis["gender_suggestion"]
  {
    if HasFields(analysis) {
      var vs := [analysis["emotion"], analysis["genre"], analysis["instrumentation"], analysis["timbre"],
                 analysis["gender_suggestion"]];
      var v1 := vs[1..];
      var v2 := v1[1..];
      var v3 := v2[1..];
      var e, g, n, t, x := analysis["emotion"], analysis["genre"], analysis["instrumentation"],
        analysis["timbre"], analysis["gender_suggestion"];
      assert v3[1..] == [x];
      assert Join(v3, ", ") == t + ", " + x;
      assert Join(v2, ", ") == n + ", " + (t + ", " + x);
      assert Join(v1, ", ") == g + ", " + (n + ", " + (t + ", " + x));
      assert Join(vs, ", ") == e + ", " + (g + ", " + (n + ", " + (t + ", " + x)));
      assert e + ", " + (g + ", " + (n + ", " + (t + ", " + x))) == e + ", " + g + ", " + n + ", " + t + ", " + x;
    }
  }
}
