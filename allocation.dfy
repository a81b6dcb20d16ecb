/** `calculate_section_timings`: the seconds each section kind of a template
    gets out of a requested total. Values are keyed by kind, so repeated
    kinds share one value; verse and chorus, the bridge and all other kinds
    are clamped to their own ranges, and a positive remainder goes to the
    kind of the last section.

    The section catalog the code reads is a parameter here; the lyric node
    passes `Catalog.SectionTemplates`. */
module Allocation {
  import opened Wrappers
  import opened Arith
  import opened Catalog

  /** The two ways the function fails: the `ValueError` for a label that is
      not catalogued, and the `IndexError` of `sections[-1]` when an empty
      template is left with a positive remainder. */
  datatype AllocError = UnknownSection(name: string) | NoLastSection

  /** The three groups of the allocation, processed in this order. */
  datatype Group = Vocal | Bridge | Instrumental

  function GroupOf(kind: string): Group
  {
    if kind == "verse" || kind == "chorus" then Vocal
    else if kind == "bridge" then Bridge
    else Instrumental
  }

  function Lower(g: Group): int
  {
    match g
    case Vocal => 15
    case Bridge => 10
    case Instrumental => 5
  }

  function Upper(g: Group): int
  {
    match g
    case Vocal => 45
    case Bridge => 30
    case Instrumental => 30
  }

  /** `int(a / b)`: the quotient truncated toward zero. */
  function TruncDiv(a: int, b: int): int
    requires b > 0
  {
    if a >= 0 then a / b else -((-a) / b)
  }

  /** The truncated quotient is the floor for a non-negative dividend and
      the ceiling for a negative one. */
  lemma TruncDivBounds(a: int, b: int)
    requires b > 0
    ensures a >= 0 ==> 0 <= TruncDiv(a, b) * b <= a < (TruncDiv(a, b) + 1) * b
    ensures a < 0 ==> (TruncDiv(a, b) - 1) * b < a <= TruncDiv(a, b) * b <= 0
  {
    if a >= 0 {
      DivBounds(a, b);
    } else {
      DivBounds(-a, b);
      var q := (-a) / b;
      assert (-q) * b == -(q * b);
      assert (-q - 1) * b == -((q + 1) * b);
    }
  }

  lemma DivBounds(a: nat, b: int)
    requires b > 0
    ensures 0 <= (a / b) * b <= a < (a / b + 1) * b
  {
    var q, m := a / b, a % b;
    assert a == q * b + m && 0 <= m < b;
    assert (q + 1) * b == q * b + b;
  }

  /** Python's `int` on a float: truncation toward zero. */
  function Trunc(x: real): int
  {
    if x >= 0.0 then x.Floor else -((-x).Floor)
  }

  /** `TruncDiv` is `int(a / b)` with the division done on exact reals. */
  lemma TruncDivIsTrunc(a: int, b: int)
    requires b > 0
    ensures TruncDiv(a, b) == Trunc(a as real / b as real)
  {
    TruncDivBounds(a, b);
    var q := TruncDiv(a, b);
    var x := a as real / b as real;
    assert x * (b as real) == a as real;
    if a >= 0 {
      FloorOfQuotient(q, a, b);
    } else {
      FloorOfQuotient(-q, -a, b);
      assert -x == (-a) as real / b as real;
    }
  }

  lemma FloorOfQuotient(q: int, a: int, b: int)
    requires b > 0 && 0 <= q * b <= a < (q + 1) * b
    ensures (a as real / b as real).Floor == q && a as real / b as real >= 0.0
  {
    var x := a as real / b as real;
    assert x * (b as real) == a as real;
    assert (q as real) * (b as real) == (q * b) as real;
    assert ((q + 1) as real) * (b as real) == ((q + 1) * b) as real;
    assert q as real <= x;
    assert x < (q + 1) as real;
  }

  /** `total_baseline`: the averages summed once per occurrence. */
  function Baseline(catalog: map<string, SectionInfo>, sections: seq<string>): (b: nat)
    requires KnownIn(catalog, sections) && PositiveAverages(catalog)
    ensures sections != [] ==> b >= |sections|
  {
    if sections == [] then 0
    else Baseline(catalog, sections[..|sections| - 1]) + catalog[sections[|sections| - 1]].durationAvg
  }

  /** The value a kind gets before the remainder step: its average's share
      of the total, truncated, then clamped to its group's range. */
  function Allocated(catalog: map<string, SectionInfo>, kind: string, total: int, baseline: nat): (a: int)
    requires kind in catalog && baseline > 0
    ensures Lower(GroupOf(kind)) <= a <= Upper(GroupOf(kind))
    ensures var share := TruncDiv(catalog[kind].durationAvg * total, baseline);
      Lower(GroupOf(kind)) <= share <= Upper(GroupOf(kind)) ==> a == share
    ensures var share := TruncDiv(catalog[kind].durationAvg * total, baseline);
      share < Lower(GroupOf(kind)) ==> a == Lower(GroupOf(kind))
    ensures var share := TruncDiv(catalog[kind].durationAvg * total, baseline);
      share > Upper(GroupOf(kind)) ==> a == Upper(GroupOf(kind))
  {
    var share := TruncDiv(catalog[kind].durationAvg * total, baseline);
    Max(Lower(GroupOf(kind)), Min(Upper(GroupOf(kind)), share))
  }

  /** What the loop of group `g` subtracts: one value per occurrence. */
  function GroupSum(catalog: map<string, SectionInfo>, sections: seq<string>, total: int, baseline: nat,
                    g: Group): int
    requires KnownIn(catalog, sections) && (sections != [] ==> baseline > 0)
  {
    if sections == [] then 0
    else
      var k := sections[|sections| - 1];
      GroupSum(catalog, sections[..|sections| - 1], total, baseline, g)
      + (if GroupOf(k) == g then Allocated(catalog, k, total, baseline) else 0)
  }

  /** `remaining_seconds` after the three loops: the total less every verse
      and chorus occurrence, the bridge once if present, and every other
      occurrence. */
  function Remaining(catalog: map<string, SectionInfo>, sections: seq<string>, total: int): int
    requires KnownIn(catalog, sections) && PositiveAverages(catalog)
  {
    var b := Baseline(catalog, sections);
    total
    - GroupSum(catalog, sections, total, b, Vocal)
    - (if "bridge" in sections then Allocated(catalog, "bridge", total, b) else 0)
    - GroupSum(catalog, sections, total, b, Instrumental)
  }

  /** Index of the first label that is not catalogued. */
  function FirstUnknown(catalog: map<string, SectionInfo>, sections: seq<string>): (i: nat)
    requires !KnownIn(catalog, sections)
    ensures i < |sections| && sections[i] !in catalog
    ensures KnownIn(catalog, sections[..i])
  {
    if sections[0] !in catalog then 0
    else
      var j := FirstUnknown(catalog, sections[1..]);
      assert sections[..j + 1] == [sections[0]] + sections[1..][..j];
      j + 1
  }

  /** The result of `calculate_section_timings`, raising modelled as `Err`. */
  function Timings(catalog: map<string, SectionInfo>, sections: seq<string>, total: int)
    : Result<map<string, int>, AllocError>
    requires PositiveAverages(catalog)
  {
    if !KnownIn(catalog, sections) then Err(UnknownSection(sections[FirstUnknown(catalog, sections)]))
    else if sections == [] then (if total > 0 then Err(NoLastSection) else Ok(map[]))
    else
      var b := Baseline(catalog, sections);
      var rem := Remaining(catalog, sections, total);
      var last := sections[|sections| - 1];
      Ok(map k | k in sections :: Allocated(catalog, k, total, b) + (if k == last && rem > 0 then rem else 0))
  }

  /** A label preceded only by catalogued ones is the first unknown one. */
  lemma {:induction false} FirstUnknownIs(catalog: map<string, SectionInfo>, sections: seq<string>, i: nat)
    requires i < |sections| && sections[i] !in catalog
    requires KnownIn(catalog, sections[..i])
    ensures !KnownIn(catalog, sections) && FirstUnknown(catalog, sections) == i
  {
    if i > 0 {
      assert sections[..i][0] == sections[0];
      assert sections[1..][..i - 1] == sections[..i][1..];
      FirstUnknownIs(catalog, sections[1..], i - 1);
    }
  }

  /** The function, as the Python code computes it: a validation loop, a
      baseline loop, the verse/chorus loop, the bridge step, the loop over
      the other kinds and the remainder step. */
  method CalculateSectionTimings(catalog: map<string, SectionInfo>, sections: seq<string>, total: int)
    returns (r: Result<map<string, int>, AllocError>)
    requires PositiveAverages(catalog)
    ensures r == Timings(catalog, sections, total)
  {
    var unknown := FindUnknown(catalog, sections);
    if unknown.Some? {
      return Err(UnknownSection(sections[unknown.value]));
    }
    r := AllocateKnown(catalog, sections, total);
  }

  /** The validation loop: the first label that is not catalogued, if any. */
  method FindUnknown(catalog: map<string, SectionInfo>, sections: seq<string>) returns (unknown: Option<nat>)
    ensures unknown.None? <==> KnownIn(catalog, sections)
    ensures unknown.Some? ==> !KnownIn(catalog, sections) && unknown.value == FirstUnknown(catalog, sections)
  {
    var i := 0;
    while i < |sections|
      invariant 0 <= i <= |sections|
      invariant KnownIn(catalog, sections[..i])
    {
      if sections[i] !in catalog {
        FirstUnknownIs(catalog, sections, i);
        return Some(i);
      }
      assert sections[..i + 1] == sections[..i] + [sections[i]];
      i := i + 1;
    }
    assert sections[..|sections|] == sections;
    return None;
  }

  /** The rest of the function, once every label is catalogued. */
  method AllocateKnown(catalog: map<string, SectionInfo>, sections: seq<string>, total: int)
    returns (r: Result<map<string, int>, AllocError>)
    requires PositiveAverages(catalog) && KnownIn(catalog, sections)
    ensures r == Timings(catalog, sections, total)
  {
    var baseline := SumBaseline(catalog, sections);
    var timings, remaining := AllocateVocal(catalog, sections, total, baseline);
    if "bridge" in sections {
      var bridgeSeconds := TruncDiv(catalog["bridge"].durationAvg * total, baseline);
      bridgeSeconds := Max(10, Min(30, bridgeSeconds));
      assert bridgeSeconds == Allocated(catalog, "bridge", total, baseline);
      timings := timings["bridge" := bridgeSeconds];
      remaining := remaining - bridgeSeconds;
    }
    timings, remaining := AllocateInstrumental(catalog, sections, total, baseline, timings, remaining);

    if remaining > 0 {
      if |sections| == 0 {
        return Err(NoLastSection);
      }
      var last := sections[|sections| - 1];
      timings := timings[last := timings[last] + remaining];
    }
    r := Ok(timings);
    if |sections| > 0 {
      KindMap(catalog, sections, total, baseline, remaining, timings);
    }
  }

  /** The baseline loop. */
  method SumBaseline(catalog: map<string, SectionInfo>, sections: seq<string>) returns (baseline: nat)
    requires KnownIn(catalog, sections) && PositiveAverages(catalog)
    ensures baseline == Baseline(catalog, sections)
  {
    baseline := 0;
    var i := 0;
    while i < |sections|
      invariant 0 <= i <= |sections|
      invariant baseline == Baseline(catalog, sections[..i])
    {
      assert sections[..i + 1][..i] == sections[..i];
      baseline := baseline + catalog[sections[i]].durationAvg;
      i := i + 1;
    }
    assert sections[..|sections|] == sections;
  }

  /** One more label of the template: its value joins its group's sum. */
  lemma GroupSumPrefix(catalog: map<string, SectionInfo>, sections: seq<string>, total: int, baseline: nat,
                       i: nat, g: Group)
    requires KnownIn(catalog, sections) && baseline > 0 && i < |sections|
    ensures KnownIn(catalog, sections[..i]) && KnownIn(catalog, sections[..i + 1])
    ensures forall k :: k in sections[..i + 1] <==> k in sections[..i] || k == sections[i]
    ensures GroupSum(catalog, sections[..i + 1], total, baseline, g)
      == GroupSum(catalog, sections[..i], total, baseline, g)
         + (if GroupOf(sections[i]) == g then Allocated(catalog, sections[i], total, baseline) else 0)
  {
    assert sections[..i + 1] == sections[..i] + [sections[i]];
    assert sections[..i + 1][..i] == sections[..i];
  }

  /** The verse/chorus loop, on an empty dict and the full total. */
  method AllocateVocal(catalog: map<string, SectionInfo>, sections: seq<string>, total: int, baseline: nat)
    returns (timings: map<string, int>, remaining: int)
    requires KnownIn(catalog, sections) && PositiveAverages(catalog) && baseline == Baseline(catalog, sections)
    ensures forall k :: k in timings <==> k in sections && GroupOf(k) == Vocal
    ensures forall k :: k in timings ==> timings[k] == Allocated(catalog, k, total, baseline)
    ensures remaining == total - GroupSum(catalog, sections, total, baseline, Vocal)
  {
    timings := map[];
    remaining := total;
    var i := 0;
    while i < |sections|
      invariant 0 <= i <= |sections|
      invariant forall k :: k in timings <==> k in sections[..i] && GroupOf(k) == Vocal
      invariant forall k :: k in timings ==> timings[k] == Allocated(catalog, k, total, baseline)
      invariant remaining == total - GroupSum(catalog, sections[..i], total, baseline, Vocal)
    {
      GroupSumPrefix(catalog, sections, total, baseline, i, Vocal);
      var section := sections[i];
      if section == "verse" || section == "chorus" {
        var share := TruncDiv(catalog[section].durationAvg * total, baseline);
        share := Max(15, Min(45, share));
        assert share == Allocated(catalog, section, total, baseline);
        timings := timings[section := share];
        remaining := remaining - share;
      }
      i := i + 1;
    }
    assert sections[..|sections|] == sections;
  }

  /** The loop over the kinds that are neither verse, chorus nor bridge. */
  method AllocateInstrumental(catalog: map<string, SectionInfo>, sections: seq<string>, total: int,
                              baseline: nat, timings0: map<string, int>, remaining0: int)
    returns (timings: map<string, int>, remaining: int)
    requires KnownIn(catalog, sections) && PositiveAverages(catalog) && baseline == Baseline(catalog, sections)
    requires forall k :: k in timings0 <==> k in sections && GroupOf(k) != Instrumental
    requires forall k :: k in timings0 ==> timings0[k] == Allocated(catalog, k, total, baseline)
    ensures forall k :: k in timings <==> k in sections
    ensures forall k :: k in timings ==> timings[k] == Allocated(catalog, k, total, baseline)
    ensures remaining == remaining0 - GroupSum(catalog, sections, total, baseline, Instrumental)
  {
    timings, remaining := timings0, remaining0;
    var i := 0;
    while i < |sections|
      invariant 0 <= i <= |sections|
      invariant forall k :: k in timings <==>
        (k in sections && GroupOf(k) != Instrumental) || (k in sections[..i] && GroupOf(k) == Instrumental)
      invariant forall k :: k in timings ==> timings[k] == Allocated(catalog, k, total, baseline)
      invariant remaining == remaining0 - GroupSum(catalog, sections[..i], total, baseline, Instrumental)
    {
      GroupSumPrefix(catalog, sections, total, baseline, i, Instrumental);
      var section := sections[i];
      if section != "verse" && section != "chorus" && section != "bridge" {
        var share := TruncDiv(catalog[section].durationAvg * total, baseline);
        share := Max(5, Min(30, share));
        assert GroupOf(section) == Instrumental && share == Allocated(catalog, section, total, baseline);
        timings := timings[section := share];
        remaining := remaining - share;
      } else {
        assert GroupOf(section) != Instrumental;
      }
      assert remaining == remaining0 - (GroupSum(catalog, sections[..i], total, baseline, Instrumental)
        + (if GroupOf(section) == Instrumental then Allocated(catalog, section, total, baseline) else 0));
      i := i + 1;
    }
    assert sections[..|sections|] == sections;
  }

  /** The map the method builds, once its keys and values are known, is
      the one `Timings` describes. */
  lemma KindMap(catalog: map<string, SectionInfo>, sections: seq<string>, total: int, baseline: nat,
                remaining: int, timings: map<string, int>)
    requires KnownIn(catalog, sections) && sections != [] && baseline > 0
    requires forall k :: k in timings <==> k in sections
    requires forall k :: k in timings ==>
      timings[k] == Allocated(catalog, k, total, baseline)
        + (if k == sections[|sections| - 1] && remaining > 0 then remaining else 0)
    ensures (map k | k in sections ::
      Allocated(catalog, k, total, baseline) + (if k == sections[|sections| - 1] && remaining > 0 then remaining else 0))
      == timings
  {
  }

  // ----- properties of the allocation -----

  /** It fails exactly when some label is not catalogued (reported as the
      first such label), or when an empty template meets a positive total. */
  lemma TimingsFails(catalog: map<string, SectionInfo>, sections: seq<string>, total: int)
    requires PositiveAverages(catalog)
    ensures Timings(catalog, sections, total).Err?
      <==> !KnownIn(catalog, sections) || (sections == [] && total > 0)
    ensures !KnownIn(catalog, sections) ==>
      (exists i :: 0 <= i < |sections| && sections[i] !in catalog && KnownIn(catalog, sections[..i])
        && Timings(catalog, sections, total) == Err(UnknownSection(sections[i])))
  {
    if !KnownIn(catalog, sections) {
      var i := FirstUnknown(catalog, sections);
      assert Timings(catalog, sections, total) == Err(UnknownSection(sections[i]));
    }
  }

  /** The uncatalogued label reported is the one the validation loop stops at. */
  lemma UnknownSectionReported(catalog: map<string, SectionInfo>, sections: seq<string>, total: int, i: nat)
    requires PositiveAverages(catalog)
    requires i < |sections| && sections[i] !in catalog
    requires KnownIn(catalog, sections[..i])
    ensures Timings(catalog, sections, total) == Err(UnknownSection(sections[i]))
  {
    FirstUnknownIs(catalog, sections, i);
  }

  /** On success the keys are exactly the distinct kinds of the template. */
  lemma TimingsKeys(catalog: map<string, SectionInfo>, sections: seq<string>, total: int)
    requires PositiveAverages(catalog) && KnownIn(catalog, sections) && sections != []
    ensures Timings(catalog, sections, total).Ok?
    ensures Timings(catalog, sections, total).value.Keys == set k | k in sections
  {
  }

  /** Every kind but the last one's lies in its group's range: [15, 45] for
      verse and chorus, [10, 30] for the bridge, [5, 30] for the others; a
      truncated share already in range is kept as it is. */
  lemma TimingsWithinClamp(catalog: map<string, SectionInfo>, sections: seq<string>, total: int, k: string)
    requires PositiveAverages(catalog) && KnownIn(catalog, sections)
    requires k in sections && k != sections[|sections| - 1]
    ensures Timings(catalog, sections, total).Ok? && k in Timings(catalog, sections, total).value
    ensures Lower(GroupOf(k)) <= Timings(catalog, sections, total).value[k] <= Upper(GroupOf(k))
    ensures var share := TruncDiv(catalog[k].durationAvg * total, Baseline(catalog, sections));
      Lower(GroupOf(k)) <= share <= Upper(GroupOf(k)) ==> Timings(catalog, sections, total).value[k] == share
  {
  }

  /** The remainder goes to the last section's kind only, and only when it
      is positive: that kind gets its clamped share plus `max(remaining, 0)`,
      so it is never below its group's lower bound; every other kind keeps
      its clamped share. */
  lemma LastAbsorbsRemainder(catalog: map<string, SectionInfo>, sections: seq<string>, total: int)
    requires PositiveAverages(catalog) && KnownIn(catalog, sections) && sections != []
    ensures Timings(catalog, sections, total).Ok?
    ensures var r, last, b := Timings(catalog, sections, total).value, sections[|sections| - 1],
        Baseline(catalog, sections);
      last in r
      && r[last] == Allocated(catalog, last, total, b) + Max(Remaining(catalog, sections, total), 0)
      && r[last] >= Lower(GroupOf(last))
      && forall k :: k in r && k != last ==> r[k] == Allocated(catalog, k, total, b)
  {
  }

  // ----- the sum over the occurrences -----

  /** How many times `k` occurs in `s`. */
  function Count(s: seq<string>, k: string): nat
  {
    if s == [] then 0 else Count(s[..|s| - 1], k) + (if s[|s| - 1] == k then 1 else 0)
  }

  /** The values of `m` summed once per occurrence, as the prompt's
      `- [tag]: N秒` lines list them. */
  function OccurrenceSum(s: seq<string>, m: map<string, int>): int
    requires forall i :: 0 <= i < |s| ==> s[i] in m
  {
    if s == [] then 0 else OccurrenceSum(s[..|s| - 1], m) + m[s[|s| - 1]]
  }

  /** The clamped shares summed once per occurrence. */
  function AllocatedSum(catalog: map<string, SectionInfo>, s: seq<string>, total: int, baseline: nat): int
    requires KnownIn(catalog, s) && (s != [] ==> baseline > 0)
  {
    if s == [] then 0
    else AllocatedSum(catalog, s[..|s| - 1], total, baseline) + Allocated(catalog, s[|s| - 1], total, baseline)
  }

  lemma {:induction false} CountPositive(s: seq<string>, k: string)
    ensures Count(s, k) > 0 <==> k in s
  {
    if s != [] {
      CountPositive(s[..|s| - 1], k);
      assert s == s[..|s| - 1] + [s[|s| - 1]];
    }
  }

  /** Every occurrence belongs to exactly one group. */
  lemma {:induction false} SplitByGroup(catalog: map<string, SectionInfo>, s: seq<string>, total: int,
                                        baseline: nat)
    requires KnownIn(catalog, s) && (s != [] ==> baseline > 0)
    ensures AllocatedSum(catalog, s, total, baseline)
      == GroupSum(catalog, s, total, baseline, Vocal) + GroupSum(catalog, s, total, baseline, Bridge)
         + GroupSum(catalog, s, total, baseline, Instrumental)
  {
    if s != [] {
      SplitByGroup(catalog, s[..|s| - 1], total, baseline);
    }
  }

  /** The bridge group is the bridge's value once per occurrence. */
  lemma {:induction false} BridgeGroupSum(catalog: map<string, SectionInfo>, s: seq<string>, total: int,
                                          baseline: nat)
    requires KnownIn(catalog, s) && "bridge" in catalog && baseline > 0
    ensures GroupSum(catalog, s, total, baseline, Bridge)
      == Count(s, "bridge") * Allocated(catalog, "bridge", total, baseline)
  {
    if s != [] {
      BridgeGroupSum(catalog, s[..|s| - 1], total, baseline);
      var c := Count(s[..|s| - 1], "bridge");
      var a := Allocated(catalog, "bridge", total, baseline);
      assert (c + 1) * a == c * a + a;
    }
  }

  /** A map holding each kind's clamped share, plus `extra` on `last`,
      sums over the occurrences to the shares' sum plus `extra` per
      occurrence of `last`. */
  lemma {:induction false} OccurrenceSumOf(catalog: map<string, SectionInfo>, s: seq<string>,
                                           m: map<string, int>, last: string, extra: int,
                                           total: int, baseline: nat)
    requires KnownIn(catalog, s) && baseline > 0
    requires forall i :: 0 <= i < |s| ==>
      s[i] in m && m[s[i]] == Allocated(catalog, s[i], total, baseline) + (if s[i] == last then extra else 0)
    ensures OccurrenceSum(s, m) == AllocatedSum(catalog, s, total, baseline) + Count(s, last) * extra
  {
    if s != [] {
      var init := s[..|s| - 1];
      assert forall i :: 0 <= i < |init| ==> init[i] == s[i];
      OccurrenceSumOf(catalog, init, m, last, extra, total, baseline);
      MulSucc(Count(init, last), extra);
    }
  }

  lemma MulSucc(c: int, x: int)
    ensures (c + 1) * x == c * x + x
  {
  }

  /** What the occurrence values add up to: the total, less the remainder,
      plus the remainder once per occurrence of the last kind when it is
      positive, plus the bridge's value once for every bridge after the
      first (the code subtracts it only once). */
  lemma OccurrenceSumIdentity(catalog: map<string, SectionInfo>, sections: seq<string>, total: int)
    requires PositiveAverages(catalog) && KnownIn(catalog, sections) && sections != []
    requires "bridge" in catalog
    ensures Timings(catalog, sections, total).Ok?
    ensures var r, rem, b := Timings(catalog, sections, total).value, Remaining(catalog, sections, total),
        Baseline(catalog, sections);
      (forall i :: 0 <= i < |sections| ==> sections[i] in r)
      && OccurrenceSum(sections, r)
         == total - rem + Count(sections, sections[|sections| - 1]) * Max(rem, 0)
            + (Count(sections, "bridge") - (if "bridge" in sections then 1 else 0))
              * Allocated(catalog, "bridge", total, b)
  {
    LastAbsorbsRemainder(catalog, sections, total);
    OccurrenceSumOfValues(catalog, sections, total, Timings(catalog, sections, total).value);
  }

  /** `OccurrenceSumIdentity` for any map holding the values that
      `LastAbsorbsRemainder` describes. */
  lemma OccurrenceSumOfValues(catalog: map<string, SectionInfo>, sections: seq<string>, total: int,
                              r: map<string, int>)
    requires PositiveAverages(catalog) && KnownIn(catalog, sections) && sections != []
    requires "bridge" in catalog
    requires var last, b := sections[|sections| - 1], Baseline(catalog, sections);
      last in r
      && r[last] == Allocated(catalog, last, total, b) + Max(Remaining(catalog, sections, total), 0)
      && forall k :: k in sections && k != last ==> k in r && r[k] == Allocated(catalog, k, total, b)
    ensures var rem, b := Remaining(catalog, sections, total), Baseline(catalog, sections);
      (forall i :: 0 <= i < |sections| ==> sections[i] in r)
      && OccurrenceSum(sections, r)
         == total - rem + Count(sections, sections[|sections| - 1]) * Max(rem, 0)
            + (Count(sections, "bridge") - (if "bridge" in sections then 1 else 0))
              * Allocated(catalog, "bridge", total, b)
  {
    var rem, b := Remaining(catalog, sections, total), Baseline(catalog, sections);
    var last := sections[|sections| - 1];
    assert forall i :: 0 <= i < |sections| ==> sections[i] in r;
    OccurrenceSumOf(catalog, sections, r, last, Max(rem, 0), total, b);
    SplitByGroup(catalog, sections, total, b);
    BridgeGroupSum(catalog, sections, total, b);
    SumArithmetic(OccurrenceSum(sections, r), AllocatedSum(catalog, sections, total, b),
                  GroupSum(catalog, sections, total, b, Vocal), GroupSum(catalog, sections, total, b, Instrumental),
                  Count(sections, "bridge"), "bridge" in sections, Allocated(catalog, "bridge", total, b),
                  Count(sections, last) * Max(rem, 0), total, rem);
  }

  /** The arithmetic step of `OccurrenceSumIdentity`. */
  lemma SumArithmetic(occ: int, all: int, vocal: int, instr: int, c: int, hasBridge: bool, a: int,
                      extra: int, total: int, rem: int)
    requires occ == all + extra && all == vocal + c * a + instr
    requires rem == total - vocal - (if hasBridge then a else 0) - instr
    ensures occ == total - rem + extra + (c - (if hasBridge then 1 else 0)) * a
  {
    assert (c - (if hasBridge then 1 else 0)) * a == c * a - (if hasBridge then a else 0);
  }

  /** When the last kind occurs once, the bridge at most once and the
      remainder is not negative, the occurrence values add up to the total
      exactly. */
  lemma SumIsTotal(catalog: map<string, SectionInfo>, sections: seq<string>, total: int)
    requires PositiveAverages(catalog) && KnownIn(catalog, sections) && sections != []
    requires "bridge" in catalog
    requires Count(sections, sections[|sections| - 1]) == 1 && Count(sections, "bridge") <= 1
    requires Remaining(catalog, sections, total) >= 0
    ensures Timings(catalog, sections, total).Ok?
    ensures (forall i :: 0 <= i < |sections| ==> sections[i] in Timings(catalog, sections, total).value)
      && OccurrenceSum(sections, Timings(catalog, sections, total).value) == total
  {
    LastAbsorbsRemainder(catalog, sections, total);
    SumIsTotalOf(catalog, sections, total, Timings(catalog, sections, total).value);
  }

  /** `SumIsTotal` for any map holding the values that
      `LastAbsorbsRemainder` describes. */
  lemma SumIsTotalOf(catalog: map<string, SectionInfo>, sections: seq<string>, total: int, r: map<string, int>)
    requires PositiveAverages(catalog) && KnownIn(catalog, sections) && sections != []
    requires "bridge" in catalog
    requires Count(sections, sections[|sections| - 1]) == 1 && Count(sections, "bridge") <= 1
    requires Remaining(catalog, sections, total) >= 0
    requires var last, b := sections[|sections| - 1], Baseline(catalog, sections);
      last in r
      && r[last] == Allocated(catalog, last, total, b) + Max(Remaining(catalog, sections, total), 0)
      && forall k :: k in sections && k != last ==> k in r && r[k] == Allocated(catalog, k, total, b)
    ensures (forall i :: 0 <= i < |sections| ==> sections[i] in r) && OccurrenceSum(sections, r) == total
  {
    var rem, b := Remaining(catalog, sections, total), Baseline(catalog, sections);
    var last := sections[|sections| - 1];
    assert forall i :: 0 <= i < |sections| ==> sections[i] in r;
    OccurrenceSumOf(catalog, sections, r, last, Max(rem, 0), total, b);
    SplitByGroup(catalog, sections, total, b);
    BridgeGroupSum(catalog, sections, total, b);
    CountPositive(sections, "bridge");
    TotalArithmetic(OccurrenceSum(sections, r), AllocatedSum(catalog, sections, total, b),
                    GroupSum(catalog, sections, total, b, Vocal), GroupSum(catalog, sections, total, b, Instrumental),
                    Count(sections, "bridge"), "bridge" in sections, Allocated(catalog, "bridge", total, b),
                    Count(sections, last), Max(rem, 0), total, rem);
  }

  /** The arithmetic step of `SumIsTotal`. */
  lemma TotalArithmetic(occ: int, all: int, vocal: int, instr: int, countBridge: int, hasBridge: bool, a: int,
                        countLast: int, extra: int, total: int, rem: int)
    requires occ == all + countLast * extra && all == vocal + countBridge * a + instr
    requires rem == total - vocal - (if hasBridge then a else 0) - instr
    requires countLast == 1 && countBridge == (if hasBridge then 1 else 0) && rem >= 0 && extra == rem
    ensures occ == total
  {
  }

  // ----- the catalog the node uses -----

  lemma CatalogAveragesPositive()
    ensures PositiveAverages(SectionTemplates)
  {
    AveragesPositive();
  }

  /** Worked example: intro-medium, verse, chorus, outro-medium over
      120 seconds get 24, 35, 35 and 24 + 2, which add up to 120. */
  lemma ExamplePopShort()
    ensures PositiveAverages(SectionTemplates)
    ensures Timings(SectionTemplates, ["intro-medium", "verse", "chorus", "outro-medium"], 120)
      == Ok(map["intro-medium" := 24, "verse" := 35, "chorus" := 35, "outro-medium" := 26])
    ensures OccurrenceSum(["intro-medium", "verse", "chorus", "outro-medium"],
      map["intro-medium" := 24, "verse" := 35, "chorus" := 35, "outro-medium" := 26]) == 120
  {
    CatalogAveragesPositive();
    var c := SectionTemplates;
    assert c["intro-medium"].durationAvg == 17 && c["outro-medium"].durationAvg == 17;
    assert c["verse"].durationAvg == 25 && c["chorus"].durationAvg == 25;
    PopShortRemaining(c);
    PopShortTimings(c);
    PopShortSum();
  }

  /** The sums of the example, for any catalog with its averages. */
  lemma PopShortRemaining(c: map<string, SectionInfo>)
    requires PositiveAverages(c)
    requires "intro-medium" in c && c["intro-medium"].durationAvg == 17
    requires "verse" in c && c["verse"].durationAvg == 25
    requires "chorus" in c && c["chorus"].durationAvg == 25
    requires "outro-medium" in c && c["outro-medium"].durationAvg == 17
    ensures KnownIn(c, ["intro-medium", "verse", "chorus", "outro-medium"])
    ensures Baseline(c, ["intro-medium", "verse", "chorus", "outro-medium"]) == 84
    ensures Remaining(c, ["intro-medium", "verse", "chorus", "outro-medium"], 120) == 2
    ensures Allocated(c, "intro-medium", 120, 84) == 24 && Allocated(c, "verse", 120, 84) == 35
    ensures Allocated(c, "chorus", 120, 84) == 35 && Allocated(c, "outro-medium", 120, 84) == 24
  {
    var s := ["intro-medium", "verse", "chorus", "outro-medium"];
    var s1, s2, s3 := s[..1], s[..2], s[..3];
    assert s3[..2] == s2 && s2[..1] == s1 && s1[..0] == [];
    assert KnownIn(c, s);
    assert Baseline(c, s1) == 17;
    assert Baseline(c, s2) == 42;
    assert Baseline(c, s3) == 67;
    assert Baseline(c, s) == 84;
    var tv, tc := Allocated(c, "verse", 120, 84), Allocated(c, "chorus", 120, 84);
    var ti, to := Allocated(c, "intro-medium", 120, 84), Allocated(c, "outro-medium", 120, 84);
    assert tv == 35 && tc == 35 && ti == 24 && to == 24;
    assert s1 == ["intro-medium"] && GroupOf("intro-medium") == Instrumental;
    assert GroupSum(c, s1, 120, 84, Instrumental) == GroupSum(c, [], 120, 84, Instrumental) + ti;
    assert GroupSum(c, s1, 120, 84, Vocal) == 0 && GroupSum(c, s1, 120, 84, Instrumental) == 24;
    assert GroupSum(c, s2, 120, 84, Vocal) == 35 && GroupSum(c, s2, 120, 84, Instrumental) == 24;
    assert GroupSum(c, s3, 120, 84, Vocal) == 70 && GroupSum(c, s3, 120, 84, Instrumental) == 24;
    assert GroupSum(c, s, 120, 84, Vocal) == 70 && GroupSum(c, s, 120, 84, Instrumental) == 48;
    assert "bridge" !in s;
  }

  /** The map and its occurrence sum in the example. */
  lemma PopShortTimings(c: map<string, SectionInfo>)
    requires PositiveAverages(c)
    requires KnownIn(c, ["intro-medium", "verse", "chorus", "outro-medium"])
    requires Baseline(c, ["intro-medium", "verse", "chorus", "outro-medium"]) == 84
    requires Remaining(c, ["intro-medium", "verse", "chorus", "outro-medium"], 120) == 2
    requires "intro-medium" in c && "verse" in c && "chorus" in c && "outro-medium" in c
    requires Allocated(c, "intro-medium", 120, 84) == 24 && Allocated(c, "verse", 120, 84) == 35
    requires Allocated(c, "chorus", 120, 84) == 35 && Allocated(c, "outro-medium", 120, 84) == 24
    ensures Timings(c, ["intro-medium", "verse", "chorus", "outro-medium"], 120)
      == Ok(map["intro-medium" := 24, "verse" := 35, "chorus" := 35, "outro-medium" := 26])
  {
    var s := ["intro-medium", "verse", "chorus", "outro-medium"];
    var m := map["intro-medium" := 24, "verse" := 35, "chorus" := 35, "outro-medium" := 26];
    LastAbsorbsRemainder(c, s, 120);
    TimingsKeys(c, s, 120);
    var r := Timings(c, s, 120).value;
    assert s[|s| - 1] == "outro-medium";
    assert r["intro-medium"] == 24 && r["verse"] == 35 && r["chorus"] == 35;
    assert r["outro-medium"] == 26;
    assert r.Keys == {"intro-medium", "verse", "chorus", "outro-medium"};
    MapOfFour(r, "intro-medium", "verse", "chorus", "outro-medium", 24, 35, 35, 26);
  }

  /** A map with four keys is the display of its four entries. */
  lemma MapOfFour(r: map<string, int>, a: string, b: string, c: string, d: string, va: int, vb: int, vc: int,
                  vd: int)
    requires r.Keys == {a, b, c, d}
    requires r[a] == va && r[b] == vb && r[c] == vc && r[d] == vd
    ensures r == map[a := va, b := vb, c := vc, d := vd]
  {
  }

  lemma PopShortSum()
    ensures OccurrenceSum(["intro-medium", "verse", "chorus", "outro-medium"],
      map["intro-medium" := 24, "verse" := 35, "chorus" := 35, "outro-medium" := 26]) == 120
  {
    var s := ["intro-medium", "verse", "chorus", "outro-medium"];
    var m := map["intro-medium" := 24, "verse" := 35, "chorus" := 35, "outro-medium" := 26];
    var s1, s2, s3 := s[..1], s[..2], s[..3];
    assert s3[..2] == s2 && s2[..1] == s1 && s1[..0] == [];
    assert OccurrenceSum(s1, m) == 24 && OccurrenceSum(s2, m) == 59 && OccurrenceSum(s3, m) == 94;
  }

  /** When the clamps' lower bounds exceed the total, the negative remainder
      is discarded: verse and chorus over 10 seconds get 15 each, 30 in all. */
  lemma ExampleOverTotal()
    ensures PositiveAverages(SectionTemplates)
    ensures Timings(SectionTemplates, ["verse", "chorus"], 10) == Ok(map["verse" := 15, "chorus" := 15])
    ensures OccurrenceSum(["verse", "chorus"], map["verse" := 15, "chorus" := 15]) == 30
  {
    CatalogAveragesPositive();
    var c := SectionTemplates;
    assert c["verse"].durationAvg == 25 && c["chorus"].durationAvg == 25;
    OverTotalRemaining(c);
    OverTotalTimings(c);
    OverTotalSum();
  }

  /** The sums of the second example, for any catalog with its averages. */
  lemma OverTotalRemaining(c: map<string, SectionInfo>)
    requires PositiveAverages(c)
    requires "verse" in c && c["verse"].durationAvg == 25
    requires "chorus" in c && c["chorus"].durationAvg == 25
    ensures KnownIn(c, ["verse", "chorus"])
    ensures Baseline(c, ["verse", "chorus"]) == 50
    ensures Remaining(c, ["verse", "chorus"], 10) == -20
  {
    var s := ["verse", "chorus"];
    var s1 := s[..1];
    assert s1[..0] == [];
    assert KnownIn(c, s);
    assert Baseline(c, s1) == 25;
    assert Baseline(c, s) == 50;
    assert Allocated(c, "verse", 10, 50) == 15;
    assert Allocated(c, "chorus", 10, 50) == 15;
    assert s1 == ["verse"] && GroupOf("verse") == Vocal && GroupOf("chorus") == Vocal;
    assert GroupSum(c, s1, 10, 50, Vocal) == GroupSum(c, [], 10, 50, Vocal) + 15;
    assert GroupSum(c, s1, 10, 50, Vocal) == 15 && GroupSum(c, s1, 10, 50, Instrumental) == 0;
    assert GroupSum(c, s, 10, 50, Vocal) == 30 && GroupSum(c, s, 10, 50, Instrumental) == 0;
    assert "bridge" !in s;
  }

  /** The map of the second example. */
  lemma OverTotalTimings(c: map<string, SectionInfo>)
    requires PositiveAverages(c)
    requires "verse" in c && c["verse"].durationAvg == 25
    requires "chorus" in c && c["chorus"].durationAvg == 25
    requires KnownIn(c, ["verse", "chorus"])
    requires Baseline(c, ["verse", "chorus"]) == 50
    requires Remaining(c, ["verse", "chorus"], 10) == -20
    ensures Timings(c, ["verse", "chorus"], 10) == Ok(map["verse" := 15, "chorus" := 15])
  {
    var s := ["verse", "chorus"];
    var m := map["verse" := 15, "chorus" := 15];
    LastAbsorbsRemainder(c, s, 10);
    TimingsKeys(c, s, 10);
    var r := Timings(c, s, 10).value;
    assert Allocated(c, "verse", 10, 50) == 15 && Allocated(c, "chorus", 10, 50) == 15;
    assert r["verse"] == 15 && r["chorus"] == 15;
    assert r.Keys == m.Keys;
    assert r == m;
  }

  lemma OverTotalSum()
    ensures OccurrenceSum(["verse", "chorus"], map["verse" := 15, "chorus" := 15]) == 30
  {
    var s := ["verse", "chorus"];
    var m := map["verse" := 15, "chorus" := 15];
    var s1 := s[..1];
    assert s1[..0] == [];
    assert OccurrenceSum(s1, m) == 15;
  }
}
