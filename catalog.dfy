/** The fixed reference data of the lyric node: the section catalog
    (`MUSIC_SECTION_TEMPLATES`), the structure templates
    (`STRUCTURE_TEMPLATES`), the display-name map of the node
    (`structure_name_map`) and the structure choices the node offers. */
module Catalog {
  import opened Wrappers

  /** One entry of the section catalog. `lines` is the suggested line-count
      text, present only on sections that carry lyrics. */
  datatype SectionInfo = SectionInfo(
    description: string,
    duration: string,
    durationAvg: nat,
    lyricRequired: bool,
    lines: Option<string>)

  /** A structure template: a display name and the ordered section kinds,
      repeats allowed. */
  datatype StructureTemplate = StructureTemplate(name: string, sections: seq<string>)

  datatype LookupError = UnknownStructure(name: string)

  const SectionTemplates: map<string, SectionInfo> := map[
    "intro-short" := SectionInfo("前奏超短版(0-10秒)", "5-10秒", 7, false, None),
    "intro-medium" := SectionInfo("前奏中等版(10-20秒)", "15-20秒", 17, false, None),
    "intro-long" := SectionInfo("前奏完整版(20-30秒)", "20-30秒", 25, false, None),
    "outro-short" := SectionInfo("尾奏超短版(0-10秒)", "5-10秒", 7, false, None),
    "outro-medium" := SectionInfo("尾奏中等版(10-20秒)", "15-20秒", 17, false, None),
    "outro-long" := SectionInfo("尾奏完整版(20-30秒)", "20-30秒", 25, false, None),
    "inst-short" := SectionInfo("间奏短版(5-10秒)", "5-10秒", 7, false, None),
    "inst-medium" := SectionInfo("间奏中等版(10-20秒)", "15-20秒", 17, false, None),
    "inst-long" := SectionInfo("间奏完整版(20-30秒)", "20-30秒", 25, false, None),
    "silence" := SectionInfo("空白停顿(1-3秒)", "1-3秒", 2, false, None),
    "verse" := SectionInfo("主歌段落(20-30秒)", "20-30秒", 25, true, Some("4-8行")),
    "chorus" := SectionInfo("副歌(高潮段落)", "20-30秒", 25, true, Some("4-8行")),
    "bridge" := SectionInfo("过渡桥段", "15-25秒", 20, true, Some("2-4行"))
  ]

  const StructureTemplates: map<string, StructureTemplate> := map[
    "pop_basic" := PopBasic,
    "pop_with_bridge" := PopWithBridge,
    "pop_with_prechorus" := PopWithPrechorus,
    "pop_doublechorus" := PopDoublechorus,
    "pop_postchorus" := PopPostchorus,
    "rock_classic" := RockClassic,
    "metal_progressive" := MetalProgressive,
    "punk" := Punk,
    "hardrock" := Hardrock,
    "rock_ballad" := RockBallad,
    "metalcore" := Metalcore,
    "blues_rock" := BluesRock,
    "rock_instrumental" := RockInstrumental,
    "edm_builddrop" := EdmBuilddrop,
    "house" := House,
    "trance" := Trance,
    "dubstep" := Dubstep,
    "techno" := Techno,
    "drum_bass" := DrumBass,
    "ambient" := Ambient,
    "hiphop_classic" := HiphopClassic,
    "trap" := Trap,
    "rap_storytelling" := RapStorytelling,
    "hiphop_jazzy" := HiphopJazzy,
    "rap_battle" := RapBattle,
    "chinese_folk" := ChineseFolk,
    "chinese_opera" := ChineseOpera,
    "guqin" := Guqin,
    "ethnic_fusion" := EthnicFusion,
    "chinese_pop" := ChinesePop,
    "mongolian_throat" := MongolianThroat,
    "jazz_standard" := JazzStandard,
    "blues_12bar" := Blues12Bar,
    "jazz_fusion" := JazzFusion,
    "bebop" := Bebop,
    "jazz_ballad" := JazzBallad
  ]

  const PopBasic := StructureTemplate("流行基础结构", ["intro-medium", "verse", "chorus", "verse", "chorus", "outro-medium"])
  const PopWithBridge := StructureTemplate("流行带桥段结构", ["intro-medium", "verse", "chorus", "verse", "chorus", "bridge", "chorus", "outro-medium"])
  const PopWithPrechorus := StructureTemplate("流行带预副歌结构", ["intro-short", "verse", "verse", "chorus", "verse", "verse", "chorus", "outro-short"])
  const PopDoublechorus := StructureTemplate("流行双副歌结构", ["intro-short", "verse", "chorus", "chorus", "verse", "chorus", "chorus", "outro-short"])
  const PopPostchorus := StructureTemplate("流行带后副歌结构", ["intro-medium", "verse", "verse", "chorus", "inst-short", "verse", "verse", "chorus", "inst-short", "outro-medium"])
  const RockClassic := StructureTemplate("经典摇滚结构", ["intro-long", "verse", "chorus", "verse", "chorus", "inst-long", "chorus", "outro-long"])
  const MetalProgressive := StructureTemplate("前卫金属结构", ["intro-long", "verse", "bridge", "chorus", "inst-long", "verse", "bridge", "chorus", "inst-long", "outro-long"])
  const Punk := StructureTemplate("朋克结构", ["intro-short", "verse", "chorus", "verse", "chorus", "bridge", "chorus", "outro-short"])
  const Hardrock := StructureTemplate("硬摇滚结构", ["intro-long", "verse", "chorus", "verse", "chorus", "inst-long", "inst-long", "chorus", "outro-long"])
  const RockBallad := StructureTemplate("摇滚抒情曲结构", ["intro-long", "verse", "verse", "chorus", "inst-long", "verse", "chorus", "outro-long"])
  const Metalcore := StructureTemplate("金属核结构", ["intro-short", "verse", "chorus", "verse", "chorus", "inst-short", "chorus", "outro-short"])
  const BluesRock := StructureTemplate("蓝调摇滚结构", ["intro-medium", "verse", "verse", "chorus", "inst-medium", "verse", "chorus", "outro-medium"])
  const RockInstrumental := StructureTemplate("摇滚器乐曲结构", ["intro-long", "inst-long", "inst-medium", "inst-long", "inst-medium", "inst-long", "inst-long", "outro-long"])
  const EdmBuilddrop := StructureTemplate("EDM构建-高潮结构", ["intro-long", "inst-medium", "inst-short", "inst-medium", "inst-medium", "inst-short", "outro-medium"])
  const House := StructureTemplate("浩室结构", ["intro-long", "inst-long", "inst-medium", "inst-long", "inst-medium", "inst-short", "outro-long"])
  const Trance := StructureTemplate("迷幻结构", ["intro-long", "inst-long", "inst-medium", "inst-short", "inst-medium", "inst-medium", "inst-short", "outro-long"])
  const Dubstep := StructureTemplate("回响贝斯结构", ["intro-medium", "verse", "inst-short", "inst-medium", "verse", "inst-short", "outro-short"])
  const Techno := StructureTemplate("科技结构", ["intro-long", "inst-long", "inst-medium", "inst-long", "inst-short", "inst-long", "outro-long"])
  const DrumBass := StructureTemplate("鼓打贝斯结构", ["intro-medium", "inst-short", "verse", "inst-short", "inst-medium", "inst-short", "outro-medium"])
  const Ambient := StructureTemplate("氛围结构", ["intro-long", "inst-long", "inst-medium", "inst-short", "inst-medium", "outro-long"])
  const HiphopClassic := StructureTemplate("经典嘻哈结构", ["intro-short", "verse", "chorus", "verse", "chorus", "bridge", "verse", "chorus", "outro-short"])
  const Trap := StructureTemplate("陷阱结构", ["intro-short", "verse", "chorus", "verse", "chorus", "inst-short", "chorus", "outro-short"])
  const RapStorytelling := StructureTemplate("叙事说唱结构", ["intro-medium", "verse", "chorus", "verse", "chorus", "verse", "chorus", "outro-medium"])
  const HiphopJazzy := StructureTemplate("爵士嘻哈结构", ["intro-medium", "verse", "chorus", "verse", "chorus", "inst-medium", "chorus", "outro-medium"])
  const RapBattle := StructureTemplate("对战说唱结构", ["intro-short", "verse", "verse", "verse", "verse", "outro-short"])
  const ChineseFolk := StructureTemplate("中国民谣结构", ["intro-long", "verse", "inst-medium", "verse", "inst-medium", "outro-long"])
  const ChineseOpera := StructureTemplate("戏曲结构", ["intro-long", "verse", "inst-short", "verse", "inst-medium", "inst-short", "verse", "outro-long"])
  const Guqin := StructureTemplate("古琴曲结构", ["intro-long", "inst-long", "inst-medium", "inst-long", "inst-medium", "outro-long"])
  const EthnicFusion := StructureTemplate("民族融合结构", ["intro-long", "verse", "chorus", "verse", "chorus", "inst-long", "outro-long"])
  const ChinesePop := StructureTemplate("中国流行结构", ["intro-medium", "verse", "verse", "chorus", "inst-medium", "verse", "verse", "chorus", "outro-medium"])
  const MongolianThroat := StructureTemplate("蒙古呼麦结构", ["intro-long", "verse", "inst-long", "inst-short", "verse", "inst-short", "outro-long"])
  const JazzStandard := StructureTemplate("爵士标准结构", ["intro-medium", "inst-medium", "inst-long", "inst-medium", "inst-medium", "outro-medium"])
  const Blues12Bar := StructureTemplate("12小节蓝调结构", ["intro-short", "verse", "verse", "verse", "inst-medium", "verse", "outro-short"])
  const JazzFusion := StructureTemplate("爵士融合结构", ["intro-long", "inst-medium", "inst-long", "inst-medium", "inst-short", "inst-medium", "outro-long"])
  const Bebop := StructureTemplate("比博普结构", ["intro-short", "inst-short", "inst-medium", "inst-long", "inst-medium", "inst-short", "outro-short"])
  const JazzBallad := StructureTemplate("爵士抒情曲结构", ["intro-long", "inst-long", "inst-medium", "inst-long", "outro-long"])

  const StructureNameMap: map<string, string> := map[
    "流行基础结构" := "pop_basic",
    "流行带桥段结构" := "pop_with_bridge",
    "流行带预副歌结构" := "pop_with_prechorus",
    "流行双副歌结构" := "pop_doublechorus",
    "流行带后副歌结构" := "pop_postchorus",
    "中国民谣结构" := "chinese_folk",
    "戏曲结构" := "chinese_opera",
    "古琴曲结构" := "guqin",
    "民族融合结构" := "ethnic_fusion",
    "中国流行结构" := "chinese_pop",
    "蒙古呼麦结构" := "mongolian_throat",
    "经典摇滚结构" := "rock_classic",
    "前卫金属结构" := "metal_progressive",
    "朋克结构" := "punk",
    "硬摇滚结构" := "hardrock",
    "摇滚抒情曲结构" := "rock_ballad",
    "金属核结构" := "metalcore",
    "蓝调摇滚结构" := "blues_rock",
    "摇滚器乐曲结构" := "rock_instrumental",
    "EDM构建-高潮结构" := "edm_builddrop",
    "浩室结构" := "house",
    "回响贝斯结构" := "dubstep",
    "科技结构" := "techno",
    "鼓打贝斯结构" := "drum_bass",
    "氛围结构" := "ambient",
    "经典嘻哈结构" := "hiphop_classic",
    "陷阱结构" := "trap",
    "叙事说唱结构" := "rap_storytelling",
    "爵士嘻哈结构" := "hiphop_jazzy",
    "对战说唱结构" := "rap_battle",
    "爵士标准结构" := "jazz_standard",
    "12小节蓝调结构" := "blues_12bar",
    "爵士融合结构" := "jazz_fusion",
    "比博普结构" := "bebop",
    "爵士抒情曲结构" := "jazz_ballad"
  ]

  const StructureChoices: seq<string> := ["None"] + [
    "流行基础结构", "流行带桥段结构", "流行带预副歌结构", "流行双副歌结构", "流行带后副歌结构", "中国民谣结构",
    "戏曲结构", "古琴曲结构", "民族融合结构", "中国流行结构", "蒙古呼麦结构", "经典摇滚结构",
    "前卫金属结构", "朋克结构", "硬摇滚结构", "摇滚抒情曲结构", "金属核结构", "蓝调摇滚结构",
    "摇滚器乐曲结构", "EDM构建-高潮结构", "浩室结构", "回响贝斯结构", "科技结构", "鼓打贝斯结构",
    "氛围结构", "经典嘻哈结构", "陷阱结构", "叙事说唱结构", "爵士嘻哈结构", "对战说唱结构",
    "爵士标准结构", "12小节蓝调结构", "爵士融合结构", "比博普结构", "爵士抒情曲结构", "12小节蓝调结构"
  ]

  /** Every label of `sections` is a section kind of `catalog`. */
  predicate KnownIn(catalog: map<string, SectionInfo>, sections: seq<string>)
  {
    forall i :: 0 <= i < |sections| ==> sections[i] in catalog
  }

  /** Every label of `sections` is a section kind of the section catalog. */
  predicate KnownSections(sections: seq<string>)
  {
    KnownIn(SectionTemplates, sections)
  }

  /** A catalog whose averages are all positive, so that a non-empty
      template has a positive baseline. */
  predicate PositiveAverages(catalog: map<string, SectionInfo>)
  {
    forall k :: k in catalog ==> catalog[k].durationAvg > 0
  }

  /** The templates are exactly the named constants above. */
  lemma TemplateValues()
    ensures forall t :: t in StructureTemplates.Values ==>
      t == PopBasic
      || t == PopWithBridge
      || t == PopWithPrechorus
      || t == PopDoublechorus
      || t == PopPostchorus
      || t == RockClassic
      || t == MetalProgressive
      || t == Punk
      || t == Hardrock
      || t == RockBallad
      || t == Metalcore
      || t == BluesRock
      || t == RockInstrumental
      || t == EdmBuilddrop
      || t == House
      || t == Trance
      || t == Dubstep
      || t == Techno
      || t == DrumBass
      || t == Ambient
      || t == HiphopClassic
      || t == Trap
      || t == RapStorytelling
      || t == HiphopJazzy
      || t == RapBattle
      || t == ChineseFolk
      || t == ChineseOpera
      || t == Guqin
      || t == EthnicFusion
      || t == ChinesePop
      || t == MongolianThroat
      || t == JazzStandard
      || t == Blues12Bar
      || t == JazzFusion
      || t == Bebop
      || t == JazzBallad
  {
  }

  /** The basic pop templates use only catalogued section kinds. */
  lemma PopTemplatesKnown()
    ensures KnownSections(PopBasic.sections)
      && KnownSections(PopWithBridge.sections)
      && KnownSections(PopWithPrechorus.sections)
      && KnownSections(PopDoublechorus.sections)
      && KnownSections(PopPostchorus.sections)
  {
  }

  /** The rock and metal templates use only catalogued section kinds. */
  lemma RockTemplatesKnown()
    ensures KnownSections(RockClassic.sections)
      && KnownSections(MetalProgressive.sections)
      && KnownSections(Punk.sections)
      && KnownSections(Hardrock.sections)
      && KnownSections(RockBallad.sections)
      && KnownSections(Metalcore.sections)
      && KnownSections(BluesRock.sections)
      && KnownSections(RockInstrumental.sections)
  {
  }

  /** The electronic templates use only catalogued section kinds. */
  lemma ElectronicTemplatesKnown()
    ensures KnownSections(EdmBuilddrop.sections)
      && KnownSections(House.sections)
      && KnownSections(Trance.sections)
      && KnownSections(Dubstep.sections)
      && KnownSections(Techno.sections)
      && KnownSections(DrumBass.sections)
      && KnownSections(Ambient.sections)
  {
  }

  /** The hip-hop and rap templates use only catalogued section kinds. */
  lemma HipHopTemplatesKnown()
    ensures KnownSections(HiphopClassic.sections)
      && KnownSections(Trap.sections)
      && KnownSections(RapStorytelling.sections)
      && KnownSections(HiphopJazzy.sections)
      && KnownSections(RapBattle.sections)
  {
  }

  /** The Chinese traditional and ethnic templates use only catalogued section kinds. */
  lemma ChineseTemplatesKnown()
    ensures KnownSections(ChineseFolk.sections)
      && KnownSections(ChineseOpera.sections)
      && KnownSections(Guqin.sections)
      && KnownSections(EthnicFusion.sections)
      && KnownSections(ChinesePop.sections)
      && KnownSections(MongolianThroat.sections)
  {
  }

  /** The jazz and blues templates use only catalogued section kinds. */
  lemma JazzTemplatesKnown()
    ensures KnownSections(JazzStandard.sections)
      && KnownSections(Blues12Bar.sections)
      && KnownSections(JazzFusion.sections)
      && KnownSections(Bebop.sections)
      && KnownSections(JazzBallad.sections)
  {
  }

  /** Every section kind named by any structure template is in the section
      catalog. */
  lemma TemplatesUseKnownSections()
    ensures forall key :: key in StructureTemplates ==> KnownSections(StructureTemplates[key].sections)
  {
    TemplateValues();
    PopTemplatesKnown();
    RockTemplatesKnown();
    ElectronicTemplatesKnown();
    HipHopTemplatesKnown();
    ChineseTemplatesKnown();
    JazzTemplatesKnown();
    forall key | key in StructureTemplates
      ensures KnownSections(StructureTemplates[key].sections)
    {
      assert StructureTemplates[key] in StructureTemplates.Values;
    }
  }

  /** Every template key the display-name map yields is a structure template. */
  lemma NameMapTargetsExist()
    ensures forall name :: name in StructureNameMap ==> StructureNameMap[name] in StructureTemplates
  {
  }

  /** Every choice the node offers except "None" has a template. */
  lemma ChoicesResolve()
    ensures forall c :: c in StructureChoices && c != "None" ==> c in StructureNameMap
  {
  }

  /** The "None" choice has no template, and neither has "trance": no choice
      reaches that template. */
  lemma UnmappedNames()
    ensures "None" in StructureChoices && "None" !in StructureNameMap
    ensures "trance" in StructureTemplates && "trance" !in StructureNameMap.Values
  {
  }

  /** Every section average is positive, so a non-empty template has a
      positive baseline. */
  lemma AveragesPositive()
    ensures forall k :: k in SectionTemplates ==> SectionTemplates[k].durationAvg >= 2
  {
  }

  /** The node's lookup: `structure_name_map.get(name)`, then
      `STRUCTURE_TEMPLATES[key]`; an unmapped name raises. */
  function LookupStructure(name: string): (r: Result<StructureTemplate, LookupError>)
    ensures r.Ok? <==> name in StructureNameMap
    ensures r.Err? ==> r.error == UnknownStructure(name)
    ensures r.Ok? ==> StructureNameMap[name] in StructureTemplates
    ensures r.Ok? ==> r.value == StructureTemplates[StructureNameMap[name]]
    ensures r.Ok? ==> KnownSections(r.value.sections)
  {
    if name !in StructureNameMap then Err(UnknownStructure(name))
    else
      NameMapTargetsExist();
      TemplatesUseKnownSections();
      Ok(StructureTemplates[StructureNameMap[name]])
  }
}
