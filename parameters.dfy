/** The nine terrain parameters and `validate_parameters`, which turns an
    arbitrary dictionary (as parsed from a language model's JSON reply) into a
    record holding exactly those nine parameters, each clamped into its range.

    A dictionary coming in is keyed by strings; a record going out is keyed by
    `Param`, whose `Name` is the string key the dictionary uses. */
module Parameters {

  /** The nine parameters; `Name` gives the dictionary key of each. */
  datatype Param =
    | Seed | Frequency | Amplitude | Octaves | Lacunarity
    | Persistence | TerrainType | Erosion | Plateau

  function Name(p: Param): string {
    match p
    case Seed => "seed"
    case Frequency => "frequency"
    case Amplitude => "amplitude"
    case Octaves => "octaves"
    case Lacunarity => "lacunarity"
    case Persistence => "persistence"
    case TerrainType => "terrain_type"
    case Erosion => "erosion"
    case Plateau => "plateau"
  }

  /** No two parameters share a dictionary key. */
  lemma NameInjective(p: Param, q: Param)
    ensures Name(p) == Name(q) ==> p == q
  {
  }

  /** The parameters in the insertion order of the `constraints` dictionary. */
  const ParamOrder: seq<Param> := [
    Seed, Frequency, Amplitude, Octaves, Lacunarity,
    Persistence, TerrainType, Erosion, Plateau
  ]

  const AllParams: set<Param> := set p | p in ParamOrder

  /** `ParamOrder` lists every parameter. */
  lemma EveryParamListed(p: Param)
    ensures p in AllParams
  {
    match p
    case Seed => assert ParamOrder[0] == p;
    case Frequency => assert ParamOrder[1] == p;
    case Amplitude => assert ParamOrder[2] == p;
    case Octaves => assert ParamOrder[3] == p;
    case Lacunarity => assert ParamOrder[4] == p;
    case Persistence => assert ParamOrder[5] == p;
    case TerrainType => assert ParamOrder[6] == p;
    case Erosion => assert ParamOrder[7] == p;
    case Plateau => assert ParamOrder[8] == p;
  }

  /** A parameter record: one number per parameter. */
  type Record = map<Param, real>

  /** A dictionary value as the validator sees it: a number, or anything else
      (a string, a list, `None`, ...). */
  datatype Value = Num(x: real) | NonNum

  /** An inclusive `(min, max)` range. */
  datatype Range = Range(lo: real, hi: real)

  /** The `constraints` dictionary: the accepted range of each parameter. */
  function RangeOf(p: Param): Range {
    match p
    case Seed => Range(0.0, 10000.0)
    case Frequency => Range(0.01, 1.0)
    case Amplitude => Range(0.5, 20.0)
    case Octaves => Range(1.0, 6.0)
    case Lacunarity => Range(1.5, 3.0)
    case Persistence => Range(0.1, 0.8)
    case TerrainType => Range(0.0, 5.0)
    case Erosion => Range(0.0, 1.0)
    case Plateau => Range(0.0, 15.0)
  }

  /** The `defaults` dictionary: the value of a parameter the input lacks. */
  function DefaultOf(p: Param): real {
    match p
    case Seed => 42.0
    case Frequency => 0.1
    case Amplitude => 5.0
    case Octaves => 3.0
    case Lacunarity => 2.0
    case Persistence => 0.5
    case TerrainType => 1.0
    case Erosion => 0.0
    case Plateau => 0.0
  }

  /** The parameters converted with `int(...)` after clamping. */
  predicate IsIntegerParam(p: Param) {
    p == TerrainType || p == Seed || p == Octaves
  }

  /** `x` has no fractional part. */
  predicate IsIntegral(x: real) {
    x == x.Floor as real
  }

  /** Every parameter is present, within its range, and whole where it is an
      integer parameter. */
  predicate InRange(r: Record) {
    && r.Keys == AllParams
    && (forall p :: p in r ==> RangeOf(p).lo <= r[p] <= RangeOf(p).hi)
    && (forall p :: p in r && IsIntegerParam(p) ==> IsIntegral(r[p]))
  }

  function Min(a: real, b: real): real {
    if b < a then b else a
  }

  function Max(a: real, b: real): real {
    if a < b then b else a
  }

  /** `max(lo, min(hi, v))`. */
  function Clamp(lo: real, hi: real, v: real): (r: real)
    ensures lo <= hi ==> lo <= r <= hi
    ensures lo <= v <= hi ==> r == v
    ensures v < lo ==> r == lo
    ensures lo <= hi < v ==> r == hi
  {
    Max(lo, Min(hi, v))
  }

  /** Python's `int(x)` on a float: truncation toward zero. */
  function Trunc(x: real): (n: int)
    ensures 0.0 <= x ==> n as real <= x < n as real + 1.0
    ensures x < 0.0 ==> n as real - 1.0 < x <= n as real
  {
    if 0.0 <= x then x.Floor else -((-x).Floor)
  }

  /** The value the loop of `validate_parameters` stores for `p`: the clamped
      number, the range minimum for a non-number, or the default when the
      key is missing. */
  function Clamped(params: map<string, Value>, p: Param): real {
    if Name(p) in params then
      match params[Name(p)]
      case Num(v) => Clamp(RangeOf(p).lo, RangeOf(p).hi, v)
      case NonNum => RangeOf(p).lo
    else DefaultOf(p)
  }

  /** The value `validate_parameters` returns for `p`: `Clamped`, truncated
      for an integer parameter. */
  function ValidatedValue(params: map<string, Value>, p: Param): (v: real)
    ensures RangeOf(p).lo <= v <= RangeOf(p).hi
    ensures IsIntegerParam(p) ==> IsIntegral(v)
  {
    var c := Clamped(params, p);
    if IsIntegerParam(p) then Trunc(c) as real else c
  }

  /** The record `validate_parameters(params)` returns. */
  function Validated(params: map<string, Value>): (r: Record)
    ensures InRange(r)
  {
    map p | p in AllParams :: ValidatedValue(params, p)
  }

  /** `validate_parameters`: fill `validated` parameter by parameter in the
      order of `constraints`, then convert the three integer parameters. */
  method ValidateParameters(params: map<string, Value>) returns (validated: Record)
    ensures validated == Validated(params)
  {
    validated := ClampAll(params);
    validated := validated[TerrainType := Trunc(validated[TerrainType]) as real];
    validated := validated[Seed := Trunc(validated[Seed]) as real];
    validated := validated[Octaves := Trunc(validated[Octaves]) as real];
  }

  /** The loop of `validate_parameters`: every parameter gets its clamped
      value, its range minimum or its default. */
  method ClampAll(params: map<string, Value>) returns (validated: Record)
    ensures validated.Keys == AllParams
    ensures forall p :: p in validated ==> validated[p] == Clamped(params, p)
  {
    validated := map[];
    var i := 0;
    while i < |ParamOrder|
      invariant 0 <= i <= |ParamOrder|
      invariant validated.Keys == set j | 0 <= j < i :: ParamOrder[j]
      invariant forall j :: 0 <= j < i ==> validated[ParamOrder[j]] == Clamped(params, ParamOrder[j])
    {
      var p := ParamOrder[i];
      var key, range := Name(p), RangeOf(p);
      if key in params {
        var value := params[key];
        match value {
          case Num(v) =>
            validated := validated[p := Max(range.lo, Min(range.hi, v))];
          case NonNum =>
            validated := validated[p := range.lo];
        }
      } else {
        validated := validated[p := DefaultOf(p)];
      }
      i := i + 1;
    }
    assert validated.Keys == AllParams;
  }

  /** A record written back out as a dictionary, as `json.dumps` followed by
      `json.loads` would hand it to the validator again. */
  function AsDict(r: Record): (d: map<string, Value>)
    ensures forall p :: p in r ==> Name(p) in d && d[Name(p)] == Num(r[p])
    ensures forall s :: s in d ==> exists p :: p in r && Name(p) == s
  {
    assert forall p, q :: Name(p) == Name(q) ==> p == q by {
      forall p, q { NameInjective(p, q); }
    }
    map p | p in r :: Name(p) := Num(r[p])
  }

  /** A parameter the input lacks gets its default. */
  lemma MissingKeyGetsDefault(params: map<string, Value>, p: Param)
    requires Name(p) !in params
    ensures Validated(params)[p] == DefaultOf(p)
  {
  }

  /** A parameter whose value is not a number gets its range minimum. */
  lemma NonNumberGetsMinimum(params: map<string, Value>, p: Param)
    requires Name(p) in params && params[Name(p)] == NonNum
    ensures Validated(params)[p] == RangeOf(p).lo
  {
  }

  /** A number already in range (and whole, for an integer parameter) is kept. */
  lemma InRangeValueKept(params: map<string, Value>, p: Param, v: real)
    requires Name(p) in params && params[Name(p)] == Num(v)
    requires RangeOf(p).lo <= v <= RangeOf(p).hi
    requires IsIntegerParam(p) ==> IsIntegral(v)
    ensures Validated(params)[p] == v
  {
  }

  /** Every range of an integer parameter starts at zero or above, so the
      truncation `int(...)` performs is rounding down. */
  lemma TruncationIsFloor(params: map<string, Value>, p: Param)
    requires IsIntegerParam(p)
    ensures Validated(params)[p] == Clamped(params, p).Floor as real
  {
  }

  /** Keys other than the nine parameter names are dropped: adding one
      changes nothing in the result. */
  lemma ExtraKeyIgnored(params: map<string, Value>, s: string, v: Value)
    requires forall p :: Name(p) != s
    ensures Validated(params[s := v]) == Validated(params)
  {
    forall p | p in AllParams ensures Clamped(params[s := v], p) == Clamped(params, p) {
      assert Name(p) != s;
    }
  }

  /** An empty dictionary validates to the defaults. */
  lemma EmptyGivesDefaults()
    ensures forall p :: p in Validated(map[]) ==> Validated(map[])[p] == DefaultOf(p)
  {
  }

  /** Validating a record that is already in range returns it unchanged. */
  lemma {:induction false} InRangeRecordIsFixedPoint(r: Record)
    requires InRange(r)
    ensures Validated(AsDict(r)) == r
  {
    var d := AsDict(r);
    forall p | p in AllParams ensures Validated(d)[p] == r[p] {
      InRangeValueKept(d, p, r[p]);
    }
  }

  /** A complete record that is in range everywhere except possibly for an
      amplitude above the cap validates to itself with that amplitude capped. */
  lemma {:induction false} OnlyAmplitudeCapped(r: Record)
    requires r.Keys == AllParams
    requires forall p :: p in r && p != Amplitude ==> RangeOf(p).lo <= r[p] <= RangeOf(p).hi
    requires forall p :: p in r && IsIntegerParam(p) ==> IsIntegral(r[p])
    requires RangeOf(Amplitude).lo <= r[Amplitude]
    ensures Validated(AsDict(r)) == if r[Amplitude] > 20.0 then r[Amplitude := 20.0] else r
  {
    if r[Amplitude] > 20.0 {
      var capped := r[Amplitude := 20.0];
      assert InRange(capped);
      assert forall p :: Clamped(AsDict(r), p) == Clamped(AsDict(capped), p) by {
        forall p ensures Clamped(AsDict(r), p) == Clamped(AsDict(capped), p) {
          EveryParamListed(p);
          ClampedOfRecord(r, p);
          ClampedOfRecord(capped, p);
        }
      }
      SameClampedSameValidated(AsDict(r), AsDict(capped));
      InRangeRecordIsFixedPoint(capped);
    } else {
      InRangeRecordIsFixedPoint(r);
    }
  }

  /** Validation looks at a dictionary only through `Clamped`. */
  lemma SameClampedSameValidated(d1: map<string, Value>, d2: map<string, Value>)
    requires forall p :: Clamped(d1, p) == Clamped(d2, p)
    ensures Validated(d1) == Validated(d2)
  {
  }

  /** A parameter present in a record reaches the validator as a number. */
  lemma ClampedOfRecord(r: Record, p: Param)
    requires p in r
    ensures Clamped(AsDict(r), p) == Clamp(RangeOf(p).lo, RangeOf(p).hi, r[p])
  {
  }

  /** Validation is idempotent. */
  lemma ValidateIdempotent(params: map<string, Value>)
    ensures Validated(AsDict(Validated(params))) == Validated(params)
  {
    InRangeRecordIsFixedPoint(Validated(params));
  }

  /** Frequency 5.0 is clamped to 1.0 and frequency -1.0 to 0.01. */
  lemma FrequencyClampExamples()
    ensures Validated(map["frequency" := Num(5.0)])[Frequency] == 1.0
    ensures Validated(map["frequency" := Num(-1.0)])[Frequency] == 0.01
  {
    assert Clamped(map["frequency" := Num(5.0)], Frequency) == 1.0;
    assert Clamped(map["frequency" := Num(-1.0)], Frequency) == 0.01;
  }

  /** Octaves 6.9 is truncated to 6, and a non-numeric seed becomes 0. */
  lemma IntegerParamExamples()
    ensures Validated(map["octaves" := Num(6.9)])[Octaves] == 6.0
    ensures Validated(map["seed" := NonNum])[Seed] == 0.0
  {
    assert Clamped(map["octaves" := Num(6.9)], Octaves) == 6.0;
    assert Clamped(map["seed" := NonNum], Seed) == 0.0;
  }
}
