# Offline terrain-parameter resolver of the voice processor

This project models the offline part of `python/voice_processor.py`, the
component that turns a spoken or typed terrain request into the nine numbers
the terrain generator consumes: seed, frequency, amplitude, octaves,
lacunarity, persistence, terrain type, erosion and plateau. The four modelled
functions are:

- `validate_parameters`. It clamps an arbitrary dictionary into a complete,
  in-range record. A missing key gets its default, a non-number gets its range
  minimum, and unknown keys are dropped. `seed`, `octaves` and `terrain_type`
  are converted to integers.
- `fallback_analysis`. It is the keyword resolver used when no language model
  is configured. It starts from a default record and applies four blocks in
  order on the lower-cased text:
  - terrain type, where the first match wins;
  - size;
  - detail;
  - water.
- `extract_keywords`. It lists the terrain words that occur in the text, in the
  order of a fixed list.
- `fallback_transcription`. It stands in for speech recognition and picks a
  canned phrase from the audio file's stem.

The Dafny model is imperative where the source is:

- Each of the four functions is a `method` whose `ensures` ties the result
  to a specification function (`Validated`, `Resolved`, `Hits`,
  `FirstPhrase`).
- `validate_parameters` and `fallback_analysis` fill and update a
  `map<Param, real>` record step by step. `extract_keywords` appends to a
  list of strings in a loop. `fallback_transcription` loops over the
  keyword/phrase pairs and returns early.
- The properties the source promises are proved as lemmas about those
  functions.
- Keyword matching is Python's substring test `word in text`. It is modelled
  by `TextMatch.Contains` and proved equal to "is a substring" in
  `TextMatch.ContainsIffOccurs`.

Modules and files:

- `text_match.dfy` (`TextMatch`): lower-casing, substring search, "any word
  of a list occurs", and first-matching rule of an ordered `if`/`elif` chain.
- `parameters.dfy` (`Parameters`): the nine parameters, their ranges and
  defaults, and `validate_parameters`.
- `keyword_analysis.dfy` (`KeywordAnalysis`): `fallback_analysis`, one
  method per block of the source. The record the blocks produce once the
  categories are decided is `Combined`; the record decided by the text is
  `Resolved`.
- `keywords.dfy` (`Keywords`): `extract_keywords`.
- `transcription.dfy` (`Transcription`): `fallback_transcription`.

Integer parameters are held as `real` values with no fractional part.
`Parameters.IsIntegral` states this.

`analyze_terrain_request` returns the output of `fallback_analysis` without
validating it (python/voice_processor.py:152-153, 185, 188). Its offline
branch is `KeywordAnalysis.AnalyzeTerrainRequest`.
`KeywordAnalysis.FallbackRanges` and `KeywordAnalysis.AmplitudeOverCapIff`
show what that means:

- every field except amplitude lies in the validator's range;
- amplitude exceeds the cap of 20 exactly for large mountains (22.5).

`KeywordAnalysis.ValidatingFallback` shows that validating such a record
changes only that amplitude.

## Model

| member | source | states |
|---|---|---|
| TextMatch.Lower | python/voice_processor.py:193 | same length; each upper-case ASCII letter becomes its lower-case letter, every other character is kept; no upper-case letter remains |
| TextMatch.LowerIdempotent | python/voice_processor.py:193 | lower-casing an already lower-cased text changes nothing |
| TextMatch.Contains | python/voice_processor.py:209 | Python's `word in text`: a scan of the text for a prefix equal to the word (also used at lines 141 and 357) |
| TextMatch.ContainsIffOccurs | python/voice_processor.py:209 | the scan `word in text` succeeds exactly when the word is a contiguous substring of the text |
| TextMatch.OccursTransitive | python/voice_processor.py:357 | a substring of a substring of the text is a substring of the text |
| TextMatch.AnyIn | python/voice_processor.py:209 | `any(word in text for word in words)`: some word of the list, tried in order, occurs |
| TextMatch.AnyInIff | python/voice_processor.py:209 | `any(word in text for word in words)` holds exactly when some listed word occurs |
| TextMatch.FirstMatch | python/voice_processor.py:209-236 | an `if`/`elif` chain over keyword lists selects nothing exactly when no list has a word in the text |
| TextMatch.FirstMatchWins | python/voice_processor.py:209-236 | the branch whose words occur, with no earlier branch matching, is the one selected |
| TextMatch.FirstMatchHasWinner | python/voice_processor.py:209-236 | every selection comes from a branch that matches while no earlier branch does |
| Parameters.EveryParamListed | python/voice_processor.py:264-274 | the constraint table covers every parameter |
| Parameters.RangeOf | python/voice_processor.py:264-274 | the `constraints` dictionary: the inclusive range of each parameter |
| Parameters.DefaultOf | python/voice_processor.py:287-297 | the `defaults` dictionary: the value of each parameter when its key is missing |
| Parameters.Clamp | python/voice_processor.py:281 | `max(min, min(max, v))` lies in the range, keeps an in-range value, gives min below the range and max above it |
| Parameters.Trunc | python/voice_processor.py:301-303 | `int(x)` truncates toward zero: floor for non-negative x, ceiling for negative x |
| Parameters.Clamped | python/voice_processor.py:278-298 | the loop body for one parameter: a number is clamped into the range, a non-number gives the range minimum, a missing key gives the default |
| Parameters.ValidatedValue | python/voice_processor.py:277-303 | each validated value lies in its parameter's range and is whole for seed, octaves and terrain_type |
| Parameters.Validated | python/voice_processor.py:264-306 | the validated record has exactly the nine keys, all in range, the integer ones whole |
| Parameters.ClampAll | python/voice_processor.py:276-298 | the loop fills all nine keys, each with the clamped number, the range minimum for a non-number, or the default for a missing key |
| Parameters.ValidateParameters | python/voice_processor.py:261-306 | the method returns the record `Validated` describes: the loop followed by the three integer conversions |
| Parameters.MissingKeyGetsDefault | python/voice_processor.py:285-298 | a missing parameter gets its default (seed 42, frequency 0.1, amplitude 5.0, octaves 3, lacunarity 2.0, persistence 0.5, terrain_type 1, erosion 0, plateau 0) |
| Parameters.NonNumberGetsMinimum | python/voice_processor.py:280-284 | a present non-numeric value becomes its range minimum |
| Parameters.InRangeValueKept | python/voice_processor.py:281 | a number already in range (and whole, where required) passes through unchanged |
| Parameters.TruncationIsFloor | python/voice_processor.py:264-273 | every integer parameter's range starts at zero or above, so its conversion rounds the clamped value down |
| Parameters.ExtraKeyIgnored | python/voice_processor.py:277 | adding a key that is not a parameter name does not change the result |
| Parameters.EmptyGivesDefaults | python/voice_processor.py:285-298 | an empty dictionary validates to the defaults |
| Parameters.InRangeRecordIsFixedPoint | python/voice_processor.py:276-303 | validating an in-range record, written out as a dictionary, returns it unchanged |
| Parameters.ValidateIdempotent | python/voice_processor.py:261-306 | validating a validated record gives the same record |
| Parameters.OnlyAmplitudeCapped | python/voice_processor.py:267 | a complete record in range except for an amplitude above 20 validates to itself with amplitude 20 |
| Parameters.FrequencyClampExamples | python/voice_processor.py:266 | frequency 5.0 becomes 1.0 and -1.0 becomes 0.01 |
| Parameters.IntegerParamExamples | python/voice_processor.py:301-303 | octaves 6.9 becomes 6; a non-numeric seed becomes 0 |
| KeywordAnalysis.InitialRecord | python/voice_processor.py:196-206 | the starting `params`: the drawn seed and the hills defaults |
| KeywordAnalysis.Combined | python/voice_processor.py:196-256 | the record once the terrain type, size, detail and water categories are decided, field by field |
| KeywordAnalysis.Resolved | python/voice_processor.py:196-256 | the resolved record has exactly the nine parameters |
| KeywordAnalysis.FallbackAnalysis | python/voice_processor.py:190-259 | for four random bytes `entropy`, the method returns `Resolved` of the lower-cased text and the seed `entropy % 10000` |
| KeywordAnalysis.AnalyzeTerrainRequest | python/voice_processor.py:150-153 | with no language-model client, the request's result is the keyword analysis of the text, unvalidated |
| KeywordAnalysis.TerrainTypeKeywords | python/voice_processor.py:208-236 | from the default record, the first terrain branch with a word in the text decides type, amplitude, frequency and plateau; with none, nothing changes |
| KeywordAnalysis.SizeModifiers | python/voice_processor.py:238-244 | frequency and amplitude of the type's record are scaled by the first size branch that matches (×0.5/×1.5 large, ×2.0/×0.7 small) |
| KeywordAnalysis.DetailModifiers | python/voice_processor.py:246-252 | the first detail branch that matches sets octaves 5 and lacunarity 2.5 (rough) or octaves 2 and persistence 0.3 (smooth) |
| KeywordAnalysis.WaterFeatures | python/voice_processor.py:254-256 | erosion becomes 0.3 when a water word occurs and stays otherwise |
| KeywordAnalysis.TypeChain | python/voice_processor.py:209-236 | the terrain-type rule table selects exactly what the `if`/`elif` chain selects, in the order mountains, hills, valleys, flat, plateau |
| KeywordAnalysis.SizeChain | python/voice_processor.py:239-244 | the size rule table is the large-then-small chain |
| KeywordAnalysis.DetailChain | python/voice_processor.py:247-252 | the detail rule table is the rough-then-smooth chain |
| KeywordAnalysis.TypeIsFirstRuleHit | python/voice_processor.py:209-236 | the terrain type is the code of the first branch, in order, having a word in the text |
| KeywordAnalysis.HillsCodeIff | python/voice_processor.py:203 | type code 1 results exactly when the hills branch wins or no type word occurs |
| KeywordAnalysis.NoTypeWordKeepsDefaults | python/voice_processor.py:196-206 | with no type word: type 1, plateau 0, and frequency 0.1 and amplitude 5.0 before the size modifier |
| KeywordAnalysis.NeverCustom | python/voice_processor.py:209-236 | no branch selects the custom type |
| KeywordAnalysis.UntouchedFieldsKeepInitial | python/voice_processor.py:196-256 | every field that no decided category writes keeps its starting value |
| KeywordAnalysis.LargeOutranksSmall | python/voice_processor.py:239-244 | with a large word, frequency is the type's ×0.5 and amplitude the type's ×1.5, whatever small words occur |
| KeywordAnalysis.RoughOutranksSmooth | python/voice_processor.py:247-252 | with a rough word: octaves 5, lacunarity 2.5, persistence 0.5, whatever smooth words occur |
| KeywordAnalysis.ErosionIff | python/voice_processor.py:255-256 | erosion is 0.3 exactly when some water word occurs, and 0 otherwise |
| KeywordAnalysis.FallbackRanges | python/voice_processor.py:196-256 | for a seed in [0, 10000), every field but amplitude is in the validator's range and the integer fields are whole; amplitude lies in [0.7, 22.5] |
| KeywordAnalysis.AmplitudeOverCapIff | python/voice_processor.py:209-244 | amplitude exceeds 20 exactly when the type is mountains and the size is large |
| KeywordAnalysis.ValidatingFallback | python/voice_processor.py:261-306 | passing the keyword result through the validator changes nothing except capping an amplitude above 20 at 20 |
| KeywordAnalysis.LargeRockyMountains | python/voice_processor.py:209-249 | text naming "large", "rocky" and "mountain" gives type 2, frequency 0.025, amplitude 22.5, octaves 5, lacunarity 2.5 |
| KeywordAnalysis.LargeRockyMountainsRequest | python/voice_processor.py:193-249 | the request "Large Rocky Mountains" gives those values |
| KeywordAnalysis.LowSelectsValleys | python/voice_processor.py:221-225 | with no mountain or hill word, "low" anywhere in the text selects valleys |
| KeywordAnalysis.YellowMeadowRequest | python/voice_processor.py:193-225 | "A yellow meadow" selects valleys because "low" occurs inside "yellow" |
| Keywords.ExtractKeywords | python/voice_processor.py:332-360 | the method returns the listed keywords, in list order, that occur in the lower-cased text |
| Keywords.Hits | python/voice_processor.py:356-358 | the listed words that occur in the text, in list order |
| Keywords.HitsMembership | python/voice_processor.py:356-358 | a word is reported exactly when it is listed and occurs in the text |
| Keywords.HitsLength | python/voice_processor.py:356-358 | no more words are reported than are listed |
| Keywords.HitsDistinct | python/voice_processor.py:356-358 | a list without repeats yields a report without repeats |
| Keywords.HitsKeepOrder | python/voice_processor.py:356-358 | of two reported words, the earlier is listed earlier |
| Keywords.AllKeywordsDistinct | python/voice_processor.py:338-354 | the 29 keywords are pairwise different |
| Keywords.ExtractedDistinct | python/voice_processor.py:332-360 | `extract_keywords` never reports a keyword twice |
| Keywords.MountainsReportsBoth | python/voice_processor.py:339 | text containing "mountains" reports both "mountain" and "mountains" |
| Transcription.FallbackTranscription | python/voice_processor.py:126-148 | the method returns the phrase of the first keyword, in the order mountain, hill, valley, flat, rough, smooth, found in the lower-cased stem, else the default |
| Transcription.FirstPhrase | python/voice_processor.py:140-148 | the phrase of the first pair whose keyword occurs, else the default phrase |
| Transcription.FirstHitChosen | python/voice_processor.py:140-143 | the first pair whose keyword occurs decides the phrase |
| Transcription.NoHitGivesDefault | python/voice_processor.py:145-148 | with no keyword in the stem the phrase is "Create hilly terrain" |
| Transcription.HitGivesListedPhrase | python/voice_processor.py:140-143 | once a keyword occurs, the phrase is that of a pair no later than it |
| Transcription.DefaultIff | python/voice_processor.py:131-148 | the default phrase is returned exactly when no keyword is in the stem |
| Transcription.MountainStem | python/voice_processor.py:132 | a stem containing "mountain" gives "I want some mountains" |
| Transcription.HillStem | python/voice_processor.py:133 | a stem containing "hill" but not "mountain" gives "Make rolling hills" |

## Left out

- Speech recognition and the language-model path are not modelled: `setup_openai`, `setup_whisper`, `transcribe_audio` and the network branch of `analyze_terrain_request`. They are foreign library and network calls. Only the branch that calls `fallback_analysis` when no model client exists (python/voice_processor.py:152-153) is modelled, as `KeywordAnalysis.AnalyzeTerrainRequest`.
- `process_voice_command` and `main` are not modelled. They are plumbing: file-existence checks, `sys.argv`, `json.dumps` output and reading the API key.
- `json.loads` of the model's reply is not modelled. The validator takes an already-parsed dictionary whose values are `Num(real)` or `NonNum`.
- `os.urandom` is replaced by the `entropy` input of `KeywordAnalysis.FallbackAnalysis`. It is the four random bytes read big-endian, so a number below 2^32; the seed is `entropy % 10000`.
- `Path(...).stem` is not modelled. `Transcription.FallbackTranscription` takes the stem as its input.
- Logging is not modelled; it has no effect on results.
- Parameters.Validated: Python's `bool` counts as a number in the `isinstance` check. The model only has numbers and non-numbers, so a boolean input is not distinguished.
- Parameters.Validated: numbers are exact reals. NaN and infinities among the input values are not modelled.
- KeywordAnalysis.SizeModifiers: the products are exact reals, not IEEE doubles. For example, valleys with a small word give amplitude 6.0 × 0.7 = 4.2 in the model, where Python computes 4.199999999999999.
- Parameters.ValidateParameters: the result is a map, so the insertion order of the returned dictionary is not modelled.
- KeywordAnalysis.FallbackAnalysis: integer fields (`terrain_type`, `octaves`, `seed`) are reals with no fractional part, not Python ints.
- TextMatch.Lower: only ASCII letters are lower-cased. Python's `str.lower` also maps other Unicode upper-case letters.
- The grid, heightfield, mesh and tile-stitching engine written in GDScript is not part of this model.
