/** `fallback_analysis`: the offline resolver that turns free text into a
    parameter record by keyword matching. It starts from a default record and
    applies four categories in a fixed order, each by substring tests on the
    lower-cased text: terrain type (first match wins), size, detail and water.
    The categories stack: each one changes only its own fields. */
module KeywordAnalysis {
  import opened TextMatch
  import P = Parameters

  /** The terrain types and their `terrain_type` codes. */
  datatype Terrain = Flat | Hills | Mountains | Valleys | Plateau | Custom

  function Code(t: Terrain): real {
    match t
    case Flat => 0.0
    case Hills => 1.0
    case Mountains => 2.0
    case Valleys => 3.0
    case Plateau => 4.0
    case Custom => 5.0
  }

  datatype Size = Large | Small

  datatype Detail = Rough | Smooth

  const MountainWords: seq<string> := ["mountain", "mountains", "peak", "peaks"]
  const HillWords: seq<string> := ["hill", "hills", "hilly", "rolling"]
  const ValleyWords: seq<string> := ["valley", "valleys", "depression", "low"]
  const FlatWords: seq<string> := ["flat", "plain", "plains", "level"]
  const PlateauWords: seq<string> := ["plateau", "mesa", "tableland"]
  const LargeWords: seq<string> := ["large", "big", "huge", "massive"]
  const SmallWords: seq<string> := ["small", "tiny", "little", "mini"]
  const RoughWords: seq<string> := ["rough", "jagged", "rocky", "detailed"]
  const SmoothWords: seq<string> := ["smooth", "gentle", "soft", "simple"]
  const WaterWords: seq<string> := ["river", "stream", "water", "creek"]

  /** The terrain-type branches in the order the `if`/`elif` chain tests them. */
  const TypeRules: seq<Rule<Terrain>> := [
    Rule(Mountains, MountainWords), Rule(Hills, HillWords), Rule(Valleys, ValleyWords),
    Rule(Flat, FlatWords), Rule(Plateau, PlateauWords)
  ]

  const SizeRules: seq<Rule<Size>> := [Rule(Large, LargeWords), Rule(Small, SmallWords)]

  const DetailRules: seq<Rule<Detail>> := [Rule(Rough, RoughWords), Rule(Smooth, SmoothWords)]

  /** The record the analysis starts from; `seed` is the random draw. */
  function InitialRecord(seed: int): P.Record {
    map[
      P.Seed := seed as real, P.Frequency := 0.1, P.Amplitude := 5.0,
      P.Octaves := 3.0, P.Lacunarity := 2.0, P.Persistence := 0.5,
      P.TerrainType := 1.0, P.Erosion := 0.0, P.Plateau := 0.0
    ]
  }

  // Field by field: what each outcome of a category contributes.

  function TypeCode(m: Option<Terrain>): real {
    match m
    case None => 1.0
    case Some(t) => Code(t)
  }

  function TypeFrequency(m: Option<Terrain>): real {
    if m == Some(Mountains) then 0.05 else 0.1
  }

  function TypeAmplitude(m: Option<Terrain>): real {
    match m
    case Some(Mountains) => 15.0
    case Some(Hills) => 8.0
    case Some(Valleys) => 6.0
    case Some(Flat) => 1.0
    case Some(Plateau) => 8.0
    case _ => 5.0
  }

  function TypePlateau(m: Option<Terrain>): real {
    if m == Some(Plateau) then 5.0 else 0.0
  }

  /** A frequency after the size modifier: halved for large, doubled for small. */
  function SizedFrequency(base: real, m: Option<Size>): real {
    match m
    case Some(Large) => base * 0.5
    case Some(Small) => base * 2.0
    case None => base
  }

  /** An amplitude after the size modifier: times 1.5 for large, 0.7 for small. */
  function SizedAmplitude(base: real, m: Option<Size>): real {
    match m
    case Some(Large) => base * 1.5
    case Some(Small) => base * 0.7
    case None => base
  }

  function DetailOctaves(m: Option<Detail>): real {
    match m
    case Some(Rough) => 5.0
    case Some(Smooth) => 2.0
    case None => 3.0
  }

  function DetailLacunarity(m: Option<Detail>): real {
    if m == Some(Rough) then 2.5 else 2.0
  }

  function DetailPersistence(m: Option<Detail>): real {
    if m == Some(Smooth) then 0.3 else 0.5
  }

  function WaterErosion(wet: bool): real {
    if wet then 0.3 else 0.0
  }

  /** The record that results when the categories come out as `ty`, `size`,
      `detail` and `wet`, stated field by field. */
  function Combined(ty: Option<Terrain>, size: Option<Size>, detail: Option<Detail>, wet: bool, seed: int): P.Record {
    map[
      P.Seed := seed as real,
      P.Frequency := SizedFrequency(TypeFrequency(ty), size),
      P.Amplitude := SizedAmplitude(TypeAmplitude(ty), size),
      P.Octaves := DetailOctaves(detail),
      P.Lacunarity := DetailLacunarity(detail),
      P.Persistence := DetailPersistence(detail),
      P.TerrainType := TypeCode(ty),
      P.Erosion := WaterErosion(wet),
      P.Plateau := TypePlateau(ty)
    ]
  }

  /** The record the analysis resolves from lower-cased text `lower`: each
      exclusive category is decided by its first matching rule. */
  function Resolved(lower: string, seed: int): (r: P.Record)
    ensures r.Keys == P.AllParams
  {
    Combined(FirstMatch(TypeRules, lower), FirstMatch(SizeRules, lower),
             FirstMatch(DetailRules, lower), AnyIn(WaterWords, lower), seed)
  }

  /** `fallback_analysis(text)`; `entropy` is the four random bytes read
      big-endian, so below 2^32, and the seed is its remainder modulo 10000. */
  method FallbackAnalysis(text: string, entropy: nat) returns (params: P.Record)
    requires entropy < 0x1_0000_0000
    ensures params == Resolved(Lower(text), entropy % 10000)
  {
    var textLower := Lower(text);
    ghost var seed := entropy % 10000;
    params := InitialRecord(entropy % 10000);

    ghost var ty, size, detail := FirstMatch(TypeRules, textLower), FirstMatch(SizeRules, textLower), FirstMatch(DetailRules, textLower);
    params := TerrainTypeKeywords(params, textLower, seed);
    params := SizeModifiers(params, textLower, ty, seed);
    params := DetailModifiers(params, textLower, ty, size, seed);
    params := WaterFeatures(params, textLower, ty, size, detail, seed);
  }

  /** `analyze_terrain_request` when no language-model client is configured:
      the request goes straight to the keyword analysis, and its result is
      returned without validation. */
  method AnalyzeTerrainRequest(text: string, entropy: nat) returns (params: P.Record)
    requires entropy < 0x1_0000_0000
    ensures params == Resolved(Lower(text), entropy % 10000)
  {
    params := FallbackAnalysis(text, entropy);
  }

  // Properties of the resolved record.

  /** The terrain type is that of the first branch, in order, having a word
      in the text. */
  lemma TypeIsFirstRuleHit(lower: string, seed: int, i: int)
    requires WinsAt(TypeRules, lower, i)
    ensures Resolved(lower, seed)[P.TerrainType] == Code(TypeRules[i].tag)
  {
    FirstMatchWins(TypeRules, lower, i);
  }

  /** The type code stays at 1 (hills) exactly when the hills branch wins or
      no terrain-type word occurs at all. */
  lemma {:induction false} HillsCodeIff(lower: string, seed: int)
    ensures Resolved(lower, seed)[P.TerrainType] == 1.0 <==>
      (WinsAt(TypeRules, lower, 1) || forall i :: 0 <= i < |TypeRules| ==> !AnyIn(TypeRules[i].words, lower))
  {
    var m := FirstMatch(TypeRules, lower);
    if WinsAt(TypeRules, lower, 1) {
      FirstMatchWins(TypeRules, lower, 1);
    }
    if m.Some? {
      FirstMatchHasWinner(TypeRules, lower, m.value);
      var i :| WinsAt(TypeRules, lower, i) && TypeRules[i].tag == m.value;
      assert i == 1 <==> m.value == Hills;
    }
  }

  /** With no terrain-type word the type-dependent fields keep their
      defaults: hills, frequency 0.1 and amplitude 5.0 before the size
      modifier, no plateau. */
  lemma NoTypeWordKeepsDefaults(lower: string, seed: int)
    requires forall i :: 0 <= i < |TypeRules| ==> !AnyIn(TypeRules[i].words, lower)
    ensures var r := Resolved(lower, seed);
      && r[P.TerrainType] == 1.0
      && r[P.Plateau] == 0.0
      && r[P.Frequency] == SizedFrequency(0.1, FirstMatch(SizeRules, lower))
      && r[P.Amplitude] == SizedAmplitude(5.0, FirstMatch(SizeRules, lower))
  {
  }

  // The fields each decided category writes.

  function TypeTouched(ty: Option<Terrain>): set<P.Param> {
    match ty
    case Some(Mountains) => {P.TerrainType, P.Amplitude, P.Frequency}
    case Some(Hills) => {P.TerrainType, P.Amplitude, P.Frequency}
    case Some(Valleys) => {P.TerrainType, P.Amplitude}
    case Some(Flat) => {P.TerrainType, P.Amplitude}
    case Some(Plateau) => {P.TerrainType, P.Plateau, P.Amplitude}
    case _ => {}
  }

  function SizeTouched(size: Option<Size>): set<P.Param> {
    if size.Some? then {P.Frequency, P.Amplitude} else {}
  }

  function DetailTouched(detail: Option<Detail>): set<P.Param> {
    match detail
    case Some(Rough) => {P.Octaves, P.Lacunarity}
    case Some(Smooth) => {P.Octaves, P.Persistence}
    case None => {}
  }

  function Touched(ty: Option<Terrain>, size: Option<Size>, detail: Option<Detail>, wet: bool): set<P.Param> {
    TypeTouched(ty) + SizeTouched(size) + DetailTouched(detail) + (if wet then {P.Erosion} else {})
  }

  /** Every field that no decided category writes keeps its starting value. */
  lemma UntouchedFieldsKeepInitial(lower: string, seed: int)
    ensures var ty, size, detail, wet :=
        FirstMatch(TypeRules, lower), FirstMatch(SizeRules, lower), FirstMatch(DetailRules, lower), AnyIn(WaterWords, lower);
      forall p :: p in P.AllParams && p !in Touched(ty, size, detail, wet) ==>
        Resolved(lower, seed)[p] == InitialRecord(seed)[p]
  {
    var ty, size, detail, wet :=
      FirstMatch(TypeRules, lower), FirstMatch(SizeRules, lower), FirstMatch(DetailRules, lower), AnyIn(WaterWords, lower);
    NeverCustom(lower);
    CombinedUntouched(ty, size, detail, wet, seed);
  }

  lemma CombinedUntouched(ty: Option<Terrain>, size: Option<Size>, detail: Option<Detail>, wet: bool, seed: int)
    requires ty != Some(Custom)
    ensures forall p :: p in P.AllParams && p !in Touched(ty, size, detail, wet) ==>
      Combined(ty, size, detail, wet, seed)[p] == InitialRecord(seed)[p]
  {
    forall p | p in P.AllParams && p !in Touched(ty, size, detail, wet)
      ensures Combined(ty, size, detail, wet, seed)[p] == InitialRecord(seed)[p]
    {
      if p in {P.Frequency, P.Amplitude, P.TerrainType, P.Plateau} {
        TypeFieldUntouched(ty, size, detail, wet, seed, p);
      } else {
        assert p !in DetailTouched(detail);
        match p
        case Octaves => match detail { case None => case Some(d) => }
        case Lacunarity => match detail { case None => case Some(d) => }
        case Persistence => match detail { case None => case Some(d) => }
        case _ =>
      }
    }
  }

  lemma TypeFieldUntouched(ty: Option<Terrain>, size: Option<Size>, detail: Option<Detail>, wet: bool, seed: int, p: P.Param)
    requires ty != Some(Custom)
    requires p in {P.Frequency, P.Amplitude, P.TerrainType, P.Plateau}
    requires p !in Touched(ty, size, detail, wet)
    ensures Combined(ty, size, detail, wet, seed)[p] == InitialRecord(seed)[p]
  {
    assert p !in TypeTouched(ty) && p !in SizeTouched(size);
    match ty
    case None =>
    case Some(t) =>
  }

  /** No keyword branch selects the custom type. */
  lemma NeverCustom(lower: string)
    ensures FirstMatch(TypeRules, lower) != Some(Custom)
  {
    var m := FirstMatch(TypeRules, lower);
    if m.Some? {
      FirstMatchHasWinner(TypeRules, lower, m.value);
      var i :| WinsAt(TypeRules, lower, i) && TypeRules[i].tag == m.value;
      assert TypeRules[i].tag != Custom;
    }
  }

  /** A large word overrides any small word: frequency is halved and
      amplitude scaled by 1.5. */
  lemma LargeOutranksSmall(lower: string, seed: int)
    requires AnyIn(LargeWords, lower)
    ensures var ty := FirstMatch(TypeRules, lower);
      && Resolved(lower, seed)[P.Frequency] == TypeFrequency(ty) * 0.5
      && Resolved(lower, seed)[P.Amplitude] == TypeAmplitude(ty) * 1.5
  {
    SizeChain(lower);
  }

  /** A rough word overrides any smooth word: five octaves, lacunarity 2.5,
      persistence left at 0.5. */
  lemma RoughOutranksSmooth(lower: string, seed: int)
    requires AnyIn(RoughWords, lower)
    ensures var r := Resolved(lower, seed);
      r[P.Octaves] == 5.0 && r[P.Lacunarity] == 2.5 && r[P.Persistence] == 0.5
  {
    DetailChain(lower);
  }

  /** Erosion is 0.3 exactly when a water word occurs, and 0 otherwise. */
  lemma ErosionIff(lower: string, seed: int)
    ensures Resolved(lower, seed)[P.Erosion] == (if AnyIn(WaterWords, lower) then 0.3 else 0.0)
    ensures Resolved(lower, seed)[P.Erosion] == 0.3 <==> exists i :: 0 <= i < |WaterWords| && Contains(WaterWords[i], lower)
  {
    AnyInIff(WaterWords, lower);
  }

  /** Every field but amplitude lands inside the validator's range (whole
      where it is an integer parameter). Amplitude lies in [0.7, 22.5]. */
  lemma FallbackRanges(lower: string, seed: int)
    requires 0 <= seed < 10000
    ensures var r := Resolved(lower, seed);
      && (forall p :: p in r && p != P.Amplitude ==> P.RangeOf(p).lo <= r[p] <= P.RangeOf(p).hi)
      && (forall p :: p in r && P.IsIntegerParam(p) ==> P.IsIntegral(r[p]))
      && 0.7 <= r[P.Amplitude] <= 22.5
  {
    CombinedRanges(FirstMatch(TypeRules, lower), FirstMatch(SizeRules, lower),
                   FirstMatch(DetailRules, lower), AnyIn(WaterWords, lower), seed);
  }

  lemma CombinedRanges(ty: Option<Terrain>, size: Option<Size>, detail: Option<Detail>, wet: bool, seed: int)
    requires 0 <= seed < 10000
    ensures var r := Combined(ty, size, detail, wet, seed);
      && (forall p :: p in r && p != P.Amplitude ==> P.RangeOf(p).lo <= r[p] <= P.RangeOf(p).hi)
      && (forall p :: p in r && P.IsIntegerParam(p) ==> P.IsIntegral(r[p]))
      && 0.7 <= r[P.Amplitude] <= 22.5
  {
    var r := Combined(ty, size, detail, wet, seed);
    var f, a := TypeFrequency(ty), TypeAmplitude(ty);
    assert 0.05 <= f <= 0.1 && 1.0 <= a <= 15.0;
    assert 0.01 <= SizedFrequency(f, size) <= 1.0 && 0.7 <= SizedAmplitude(a, size) <= 22.5 by {
      match size
      case None =>
      case Some(Large) =>
      case Some(Small) =>
    }
    forall p | p in r && p != P.Amplitude ensures P.RangeOf(p).lo <= r[p] <= P.RangeOf(p).hi {
      match p
      case Frequency =>
      case TerrainType => match ty { case None => case Some(t) => }
      case _ =>
    }
    CombinedIntegral(ty, size, detail, wet, seed);
  }

  lemma CombinedIntegral(ty: Option<Terrain>, size: Option<Size>, detail: Option<Detail>, wet: bool, seed: int)
    ensures var r := Combined(ty, size, detail, wet, seed);
      forall p :: p in r && P.IsIntegerParam(p) ==> P.IsIntegral(r[p])
  {
    var r := Combined(ty, size, detail, wet, seed);
    forall p | p in r && P.IsIntegerParam(p) ensures P.IsIntegral(r[p]) {
      match p
      case TerrainType => match ty { case None => case Some(t) => match t { case _ => } }
      case Octaves => match detail { case None => case Some(d) => }
      case _ =>
    }
  }

  /** Passing the analysis result through the validator changes at most one
      field: an amplitude above 20 is capped at 20. */
  lemma {:induction false} ValidatingFallback(lower: string, seed: int)
    requires 0 <= seed < 10000
    ensures var r := Resolved(lower, seed);
      P.Validated(P.AsDict(r)) == if r[P.Amplitude] > 20.0 then r[P.Amplitude := 20.0] else r
  {
    FallbackRanges(lower, seed);
    P.OnlyAmplitudeCapped(Resolved(lower, seed));
  }

  /** Amplitude exceeds the validator's cap of 20 exactly for large
      mountains. */
  lemma AmplitudeOverCapIff(lower: string, seed: int)
    ensures Resolved(lower, seed)[P.Amplitude] > 20.0 <==>
      FirstMatch(TypeRules, lower) == Some(Mountains) && FirstMatch(SizeRules, lower) == Some(Large)
  {
  }

  /** A request naming "large", "rocky" and "mountain" resolves to
      mountains with halved frequency 0.025, amplitude 15 scaled to 22.5,
      five octaves and lacunarity 2.5, whatever else it says. */
  lemma LargeRockyMountains(lower: string, seed: int)
    requires Contains("large", lower) && Contains("rocky", lower) && Contains("mountain", lower)
    ensures var r := Resolved(lower, seed);
      && r[P.TerrainType] == 2.0 && r[P.Frequency] == 0.025 && r[P.Amplitude] == 22.5
      && r[P.Octaves] == 5.0 && r[P.Lacunarity] == 2.5
  {
    AnyInAt(MountainWords, lower, 0);
    AnyInAt(LargeWords, lower, 0);
    AnyInAt(RoughWords, lower, 2);
  }

  /** "Large Rocky Mountains" lower-cases to "large rocky mountains". */
  lemma LowerLargeRockyMountains()
    ensures Lower("Large Rocky Mountains") == "large rocky mountains"
  {
  }

  /** "large rocky mountains" names all three words. */
  lemma LargeRockyMountainsWords(t: string)
    requires t == "large rocky mountains"
    ensures Contains("large", t) && Contains("rocky", t) && Contains("mountain", t)
  {
    ContainsAt("large", t, 0);
    ContainsAt("rocky", t, 6);
    ContainsAt("mountain", t, 12);
  }

  /** The request "Large Rocky Mountains" itself. */
  lemma LargeRockyMountainsRequest(lower: string, seed: int)
    requires lower == Lower("Large Rocky Mountains")
    ensures var r := Resolved(lower, seed);
      && r[P.TerrainType] == 2.0 && r[P.Frequency] == 0.025 && r[P.Amplitude] == 22.5
      && r[P.Octaves] == 5.0 && r[P.Lacunarity] == 2.5
  {
    LowerLargeRockyMountains();
    LargeRockyMountainsWords(lower);
    LargeRockyMountains(lower, seed);
  }

  /** Matching is by substring: with no mountain or hill word, a "low"
      anywhere, even inside "yellow", selects valleys. */
  lemma LowSelectsValleys(lower: string, seed: int)
    requires !AnyIn(MountainWords, lower) && !AnyIn(HillWords, lower)
    requires Contains("low", lower)
    ensures Resolved(lower, seed)[P.TerrainType] == 3.0
  {
    AnyInAt(ValleyWords, lower, 3);
    TypeChain(lower);
  }

  /** "a yellow meadow" has no mountain word: it lacks 'u' and 'k'. */
  lemma YellowMeadowNoMountain(t: string)
    requires t == "a yellow meadow"
    ensures !AnyIn(MountainWords, t)
  {
    forall i | 0 <= i < |MountainWords| ensures !Contains(MountainWords[i], t) {
      if i < 2 { AbsentCharRulesOut(MountainWords[i], t, 'u'); }
      else { AbsentCharRulesOut(MountainWords[i], t, 'k'); }
    }
    AnyInIff(MountainWords, t);
  }

  /** "a yellow meadow" has no hill word: it lacks 'i'. */
  lemma YellowMeadowNoHill(t: string)
    requires t == "a yellow meadow"
    ensures !AnyIn(HillWords, t)
  {
    forall i | 0 <= i < |HillWords| ensures !Contains(HillWords[i], t) {
      AbsentCharRulesOut(HillWords[i], t, 'i');
    }
    AnyInIff(HillWords, t);
  }

  /** "low" occurs in "a yellow meadow", inside "yellow". */
  lemma YellowMeadowHasLow(t: string)
    requires t == "a yellow meadow"
    ensures Contains("low", t)
  {
    assert t[5..8] == ['l', 'o', 'w'];
    ContainsAt("low", t, 5);
  }

  /** The request "A yellow meadow" asks for valleys. */
  lemma YellowMeadowRequest(lower: string, seed: int)
    requires lower == Lower("A yellow meadow")
    ensures Resolved(lower, seed)[P.TerrainType] == 3.0
  {
    assert lower == "a yellow meadow";
    YellowMeadowNoMountain(lower);
    YellowMeadowNoHill(lower);
    YellowMeadowHasLow(lower);
    LowSelectsValleys(lower, seed);
  }

  // The four blocks of the analysis, each as a step of its own. Each takes
  // the record the earlier blocks leave and decides one more category.

  /** Terrain type: the first branch, in order, with a word in the text sets
      the type and the fields that type fixes; with none, nothing changes. */
  method TerrainTypeKeywords(params: P.Record, textLower: string, ghost seed: int) returns (out: P.Record)
    requires params == InitialRecord(seed)
    ensures out == Combined(FirstMatch(TypeRules, textLower), None, None, false, seed)
  {
    out := params;
    ghost var ty: Option<Terrain> := None;
    NoTypeStep(seed);
    if AnyIn(MountainWords, textLower) {
      out := out + map[P.TerrainType := 2.0, P.Amplitude := 15.0, P.Frequency := 0.05];
      ty := Some(Mountains);
      MountainsStep(seed);
    } else if AnyIn(HillWords, textLower) {
      out := out + map[P.TerrainType := 1.0, P.Amplitude := 8.0, P.Frequency := 0.1];
      ty := Some(Hills);
      HillsStep(seed);
    } else if AnyIn(ValleyWords, textLower) {
      out := out + map[P.TerrainType := 3.0, P.Amplitude := 6.0];
      ty := Some(Valleys);
      ValleysStep(seed);
    } else if AnyIn(FlatWords, textLower) {
      out := out + map[P.TerrainType := 0.0, P.Amplitude := 1.0];
      ty := Some(Flat);
      FlatStep(seed);
    } else if AnyIn(PlateauWords, textLower) {
      out := out + map[P.TerrainType := 4.0, P.Plateau := 5.0, P.Amplitude := 8.0];
      ty := Some(Plateau);
      PlateauStep(seed);
    }
    assert ty == FirstMatch(TypeRules, textLower) by { TypeChain(textLower); }
  }

  /** Size: large halves frequency and scales amplitude by 1.5; otherwise
      small doubles frequency and scales amplitude by 0.7. */
  method SizeModifiers(params: P.Record, textLower: string, ghost ty: Option<Terrain>, ghost seed: int) returns (out: P.Record)
    requires params == Combined(ty, None, None, false, seed)
    ensures out == Combined(ty, FirstMatch(SizeRules, textLower), None, false, seed)
  {
    out := params;
    ghost var size: Option<Size> := None;
    if AnyIn(LargeWords, textLower) {
      out := out[P.Frequency := out[P.Frequency] * 0.5];
      out := out[P.Amplitude := out[P.Amplitude] * 1.5];
      size := Some(Large);
      LargeStep(ty, seed);
    } else if AnyIn(SmallWords, textLower) {
      out := out[P.Frequency := out[P.Frequency] * 2.0];
      out := out[P.Amplitude := out[P.Amplitude] * 0.7];
      size := Some(Small);
      SmallStep(ty, seed);
    }
    assert size == FirstMatch(SizeRules, textLower) by { SizeChain(textLower); }
  }

  /** Detail: rough sets five octaves and lacunarity 2.5; otherwise smooth
      sets two octaves and persistence 0.3. */
  method DetailModifiers(params: P.Record, textLower: string, ghost ty: Option<Terrain>, ghost size: Option<Size>, ghost seed: int) returns (out: P.Record)
    requires params == Combined(ty, size, None, false, seed)
    ensures out == Combined(ty, size, FirstMatch(DetailRules, textLower), false, seed)
  {
    out := params;
    ghost var detail: Option<Detail> := None;
    if AnyIn(RoughWords, textLower) {
      out := out[P.Octaves := 5.0];
      out := out[P.Lacunarity := 2.5];
      detail := Some(Rough);
      RoughStep(ty, size, seed);
    } else if AnyIn(SmoothWords, textLower) {
      out := out[P.Octaves := 2.0];
      out := out[P.Persistence := 0.3];
      detail := Some(Smooth);
      SmoothStep(ty, size, seed);
    }
    assert detail == FirstMatch(DetailRules, textLower) by { DetailChain(textLower); }
  }

  /** Water: any water word sets erosion to 0.3. */
  method WaterFeatures(params: P.Record, textLower: string, ghost ty: Option<Terrain>, ghost size: Option<Size>, ghost detail: Option<Detail>, ghost seed: int) returns (out: P.Record)
    requires params == Combined(ty, size, detail, false, seed)
    ensures out == Combined(ty, size, detail, AnyIn(WaterWords, textLower), seed)
  {
    out := params;
    if AnyIn(WaterWords, textLower) {
      out := out[P.Erosion := 0.3];
      WaterStep(ty, size, detail, seed);
    }
  }

  // One lemma per branch: the update it performs takes the record of the
  // earlier blocks to the record with that category decided.

  lemma MountainsStep(seed: int)
    ensures InitialRecord(seed) + map[P.TerrainType := 2.0, P.Amplitude := 15.0, P.Frequency := 0.05]
      == Combined(Some(Mountains), None, None, false, seed)
  {
  }

  lemma HillsStep(seed: int)
    ensures InitialRecord(seed) + map[P.TerrainType := 1.0, P.Amplitude := 8.0, P.Frequency := 0.1]
      == Combined(Some(Hills), None, None, false, seed)
  {
  }

  lemma ValleysStep(seed: int)
    ensures InitialRecord(seed) + map[P.TerrainType := 3.0, P.Amplitude := 6.0]
      == Combined(Some(Valleys), None, None, false, seed)
  {
  }

  lemma FlatStep(seed: int)
    ensures InitialRecord(seed) + map[P.TerrainType := 0.0, P.Amplitude := 1.0]
      == Combined(Some(Flat), None, None, false, seed)
  {
  }

  lemma PlateauStep(seed: int)
    ensures InitialRecord(seed) + map[P.TerrainType := 4.0, P.Plateau := 5.0, P.Amplitude := 8.0]
      == Combined(Some(Plateau), None, None, false, seed)
  {
  }

  lemma NoTypeStep(seed: int)
    ensures InitialRecord(seed) == Combined(None, None, None, false, seed)
  {
  }

  lemma LargeStep(ty: Option<Terrain>, seed: int)
    ensures var c := Combined(ty, None, None, false, seed);
      c[P.Frequency := c[P.Frequency] * 0.5][P.Amplitude := c[P.Amplitude] * 1.5]
      == Combined(ty, Some(Large), None, false, seed)
  {
  }

  lemma SmallStep(ty: Option<Terrain>, seed: int)
    ensures var c := Combined(ty, None, None, false, seed);
      c[P.Frequency := c[P.Frequency] * 2.0][P.Amplitude := c[P.Amplitude] * 0.7]
      == Combined(ty, Some(Small), None, false, seed)
  {
  }

  lemma RoughStep(ty: Option<Terrain>, size: Option<Size>, seed: int)
    ensures Combined(ty, size, None, false, seed)[P.Octaves := 5.0][P.Lacunarity := 2.5]
      == Combined(ty, size, Some(Rough), false, seed)
  {
  }

  lemma SmoothStep(ty: Option<Terrain>, size: Option<Size>, seed: int)
    ensures Combined(ty, size, None, false, seed)[P.Octaves := 2.0][P.Persistence := 0.3]
      == Combined(ty, size, Some(Smooth), false, seed)
  {
  }

  lemma WaterStep(ty: Option<Terrain>, size: Option<Size>, detail: Option<Detail>, seed: int)
    ensures Combined(ty, size, detail, false, seed)[P.Erosion := 0.3]
      == Combined(ty, size, detail, true, seed)
  {
  }

  /** The terrain-type rule table is the `if`/`elif` chain. */
  lemma TypeChain(t: string)
    ensures FirstMatch(TypeRules, t) ==
      if AnyIn(MountainWords, t) then Some(Mountains)
      else if AnyIn(HillWords, t) then Some(Hills)
      else if AnyIn(ValleyWords, t) then Some(Valleys)
      else if AnyIn(FlatWords, t) then Some(Flat)
      else if AnyIn(PlateauWords, t) then Some(Plateau)
      else None
  {
    var r1 := [Rule(Hills, HillWords), Rule(Valleys, ValleyWords), Rule(Flat, FlatWords), Rule(Plateau, PlateauWords)];
    var r2 := [Rule(Valleys, ValleyWords), Rule(Flat, FlatWords), Rule(Plateau, PlateauWords)];
    var r3 := [Rule(Flat, FlatWords), Rule(Plateau, PlateauWords)];
    var r4 := [Rule(Plateau, PlateauWords)];
    assert TypeRules[1..] == r1 && r1[1..] == r2 && r2[1..] == r3 && r3[1..] == r4 && r4[1..] == [];
    assert FirstMatch(r4, t) == if AnyIn(PlateauWords, t) then Some(Plateau) else None;
    assert FirstMatch(r3, t) == if AnyIn(FlatWords, t) then Some(Flat) else FirstMatch(r4, t);
    assert FirstMatch(r2, t) == if AnyIn(ValleyWords, t) then Some(Valleys) else FirstMatch(r3, t);
    assert FirstMatch(r1, t) == if AnyIn(HillWords, t) then Some(Hills) else FirstMatch(r2, t);
  }

  lemma SizeChain(t: string)
    ensures FirstMatch(SizeRules, t) ==
      if AnyIn(LargeWords, t) then Some(Large)
      else if AnyIn(SmallWords, t) then Some(Small)
      else None
  {
    assert SizeRules[1..][1..] == [];
  }

  lemma DetailChain(t: string)
    ensures FirstMatch(DetailRules, t) ==
      if AnyIn(RoughWords, t) then Some(Rough)
      else if AnyIn(SmoothWords, t) then Some(Smooth)
      else None
  {
    assert DetailRules[1..][1..] == [];
  }
}
