/**
 * The crop recommendation form: the input schema, the sustainability badge,
 * and the loading/result state around the recommendation call.
 */
module Recommendation {
  import opened Wrappers

  datatype FormValues = FormValues(soilPh: real, soilNpk: string, weatherConditions: string, marketData: string)

  /** One schema violation, in the order the schema lists its fields. */
  datatype Issue =
    | PhBelowMinimum
    | PhAboveMaximum
    | Required(field: string, message: string)

  const MinPh: real := 0.0
  const MaxPh: real := 14.0

  /** The schema: pH within [0, 14] and three strings of length at least one; whitespace counts as content. */
  function Validate(v: FormValues): (issues: seq<Issue>)
    ensures issues == [] <==>
              MinPh <= v.soilPh <= MaxPh && |v.soilNpk| >= 1 && |v.weatherConditions| >= 1 && |v.marketData| >= 1
    ensures PhBelowMinimum in issues <==> v.soilPh < MinPh
    ensures PhAboveMaximum in issues <==> v.soilPh > MaxPh
    ensures Required("soilNpk", "NPK values are required.") in issues <==> v.soilNpk == ""
    ensures Required("weatherConditions", "Weather conditions are required.") in issues <==> v.weatherConditions == ""
    ensures Required("marketData", "Market data is required.") in issues <==> v.marketData == ""
  {
    (if v.soilPh < MinPh then [PhBelowMinimum] else [])
    + (if v.soilPh > MaxPh then [PhAboveMaximum] else [])
    + (if |v.soilNpk| < 1 then [Required("soilNpk", "NPK values are required.")] else [])
    + (if |v.weatherConditions| < 1 then [Required("weatherConditions", "Weather conditions are required.")] else [])
    + (if |v.marketData| < 1 then [Required("marketData", "Market data is required.")] else [])
  }

  const DefaultValues := FormValues(
    7.0,
    "12-10-12",
    "Sunny, 25°C, moderate rainfall expected",
    "Stable prices for grains, high demand for vegetables")

  /** The form's default values satisfy its own schema. */
  lemma DefaultValuesValid()
    ensures Validate(DefaultValues) == []
  {
  }

  /** Whitespace-only strings pass, and the pH bounds are inclusive. */
  lemma BoundaryValuesValid()
    ensures Validate(FormValues(MinPh, " ", " ", " ")) == []
    ensures Validate(FormValues(MaxPh, "\t", " ", " ")) == []
    ensures Validate(FormValues(14.1, "1", "1", "1")) == [PhAboveMaximum]
  {
  }

  datatype Badge = High | Medium | Low

  /** The badge for a sustainability score. */
  function SustainabilityBadge(score: real): (b: Badge)
    ensures b == High <==> score > 75.0
    ensures b == Medium <==> 40.0 < score <= 75.0
    ensures b == Low <==> score <= 40.0
  {
    if score > 75.0 then High
    else if score > 40.0 then Medium
    else Low
  }

  /** Low < Medium < High. */
  function Rank(b: Badge): nat
  {
    match b
    case Low => 0
    case Medium => 1
    case High => 2
  }

  /** A higher score never earns a lower badge. */
  lemma BadgeMonotone(a: real, b: real)
    requires a <= b
    ensures Rank(SustainabilityBadge(a)) <= Rank(SustainabilityBadge(b))
  {
  }

  /** Exactly 75 is Medium and exactly 40 is Low. */
  lemma BadgeBoundaries()
    ensures SustainabilityBadge(75.0) == Medium
    ensures SustainabilityBadge(40.0) == Low
  {
  }

  datatype CropRecommendation = CropRecommendation(
    cropName: string,
    yieldPrediction: real,
    profitPrediction: real,
    sustainabilityScore: real,
    rationale: string)

  class RecommendationForm {
    var loading: bool
    var result: Option<seq<CropRecommendation>>

    constructor ()
      ensures !loading && result == None
    {
      loading, result := false, None;
    }

    /** Before the call: loading starts and the previous result is cleared. */
    method BeginSubmit()
      modifies this
      ensures loading && result == None
    {
      loading := true;
      result := None;
    }

    /** After the call: the response becomes the result on success; loading always ends. */
    method CompleteSubmit(response: Result<seq<CropRecommendation>, string>)
      modifies this
      ensures !loading
      ensures result == (if response.Success? then Some(response.value) else old(result))
    {
      if response.Success? {
        result := Some(response.value);
      }
      loading := false;
    }

    /** `onSubmit`, called by the form only with values that satisfy the schema. */
    method OnSubmit(values: FormValues, getRecommendations: FormValues -> Result<seq<CropRecommendation>, string>)
      requires Validate(values) == []
      modifies this
      ensures !loading
      ensures var response := getRecommendations(values);
              result == (if response.Success? then Some(response.value) else None)
    {
      BeginSubmit();
      CompleteSubmit(getRecommendations(values));
    }

    /** Submitting the form: invalid values are reported and change nothing; valid ones go to `onSubmit`. */
    method HandleSubmit(values: FormValues, getRecommendations: FormValues -> Result<seq<CropRecommendation>, string>)
      returns (issues: seq<Issue>)
      modifies this
      ensures issues == Validate(values)
      ensures issues != [] ==> loading == old(loading) && result == old(result)
      ensures issues == [] ==>
                !loading
                && var response := getRecommendations(values);
                   result == (if response.Success? then Some(response.value) else None)
    {
      issues := Validate(values);
      if issues == [] {
        OnSubmit(values, getRecommendations);
      }
    }
  }
}
