/** The shared part of the feature style builders: the classification-method dispatch,
    the two classifier calls, the extraction of class breaks, and the appearance settings
    every generated rule is drawn with. */
module FeatureStyleBuilder {
  import opened Wrappers
  import opened Styling
  import opened Text

  // ---------------------------------------------------------------------------
  // Classification method dispatch
  // ---------------------------------------------------------------------------

  /** The five classification functions the dispatch can name. */
  const FUNCTION_NAMES: set<string> :=
    {"Jenks", "Quantile", "EqualInterval", "StandardDeviation", "UniqueInterval"}

  /** Resolves a free-text method label (null allowed) to a classification function name:
      an absent or empty label stands for "Jenks"; the label is upper-cased and then
      tested for "NA" or "JENK", "QU", "EQ", "ST", "UN", in that order; no match means Jenks. */
  function GetFunctionName(methodName: Option<string>): (functionName: string)
    ensures functionName in FUNCTION_NAMES
  {
    var name := if methodName.None? || methodName.value == "" then "Jenks" else methodName.value;
    var upper := ToUpper(name);
    if Contains(upper, "NA") || Contains(upper, "JENK") then "Jenks"
    else if Contains(upper, "QU") then "Quantile"
    else if Contains(upper, "EQ") then "EqualInterval"
    else if Contains(upper, "ST") then "StandardDeviation"
    else if Contains(upper, "UN") then "UniqueInterval"
    else "Jenks"
  }

  /** The classification methods as a closed enumeration. */
  datatype ClassificationMethod = NaturalBreaks | Quantile | EqualInterval | StandardDeviation | UniqueInterval

  /** The name under which each method is registered as a filter function. */
  function FunctionName(m: ClassificationMethod): string
  {
    match m
    case NaturalBreaks => "Jenks"
    case Quantile => "Quantile"
    case EqualInterval => "EqualInterval"
    case StandardDeviation => "StandardDeviation"
    case UniqueInterval => "UniqueInterval"
  }

  /** One entry of the priority table: the marker substrings that select a method. */
  datatype MethodKey = MethodKey(markers: seq<string>, selects: ClassificationMethod)

  /** The markers in priority order, earliest first. */
  const METHOD_KEYS: seq<MethodKey> := [
    MethodKey(["NA", "JENK"], NaturalBreaks),
    MethodKey(["QU"], Quantile),
    MethodKey(["EQ"], EqualInterval),
    MethodKey(["ST"], StandardDeviation),
    MethodKey(["UN"], UniqueInterval)
  ]

  /** The text contains at least one of the markers. */
  predicate MentionsAny(text: string, markers: seq<string>)
  {
    exists m :: m in markers && Contains(text, m)
  }

  /** The method of the first table entry the text mentions; natural breaks when none. */
  function FirstMatch(text: string, keys: seq<MethodKey>): ClassificationMethod
  {
    if keys == [] then NaturalBreaks
    else if MentionsAny(text, keys[0].markers) then keys[0].selects
    else FirstMatch(text, keys[1..])
  }

  /** Reference reading of a method label: absent or empty means natural breaks, otherwise
      the first entry of the priority table that the upper-cased text mentions. */
  function ParseMethod(methodName: Option<string>): ClassificationMethod
  {
    if methodName.None? || methodName.value == "" then NaturalBreaks
    else FirstMatch(ToUpper(methodName.value), METHOD_KEYS)
  }

  /** The first entry the text mentions decides, whatever later entries it also mentions. */
  lemma {:induction false} FirstMatchIsFirst(text: string, keys: seq<MethodKey>, j: nat)
    requires j < |keys| && MentionsAny(text, keys[j].markers)
    requires forall i :: 0 <= i < j ==> !MentionsAny(text, keys[i].markers)
    ensures FirstMatch(text, keys) == keys[j].selects
  {
    if j > 0 {
      assert !MentionsAny(text, keys[0].markers);
      FirstMatchIsFirst(text, keys[1..], j - 1);
    }
  }

  /** A text that mentions no entry falls through to natural breaks. */
  lemma {:induction false} FirstMatchDefault(text: string, keys: seq<MethodKey>)
    requires forall i :: 0 <= i < |keys| ==> !MentionsAny(text, keys[i].markers)
    ensures FirstMatch(text, keys) == NaturalBreaks
  {
    if keys != [] {
      assert !MentionsAny(text, keys[0].markers);
      FirstMatchDefault(text, keys[1..]);
    }
  }

  /** Each table entry is mentioned exactly when the text contains one of its markers. */
  lemma TableMarkers(text: string)
    ensures MentionsAny(text, METHOD_KEYS[0].markers) <==> Contains(text, "NA") || Contains(text, "JENK")
    ensures MentionsAny(text, METHOD_KEYS[1].markers) <==> Contains(text, "QU")
    ensures MentionsAny(text, METHOD_KEYS[2].markers) <==> Contains(text, "EQ")
    ensures MentionsAny(text, METHOD_KEYS[3].markers) <==> Contains(text, "ST")
    ensures MentionsAny(text, METHOD_KEYS[4].markers) <==> Contains(text, "UN")
  {
    assert METHOD_KEYS[0].markers == ["NA", "JENK"];
  }

  /** The table read entry by entry is the if/else chain of the dispatch. */
  lemma TableAsChain(text: string)
    ensures FirstMatch(text, METHOD_KEYS) ==
      if Contains(text, "NA") || Contains(text, "JENK") then NaturalBreaks
      else if Contains(text, "QU") then Quantile
      else if Contains(text, "EQ") then EqualInterval
      else if Contains(text, "ST") then StandardDeviation
      else if Contains(text, "UN") then UniqueInterval
      else NaturalBreaks
  {
    TableMarkers(text);
    var keys := METHOD_KEYS;
    assert keys[1..][0] == keys[1] && keys[2..][0] == keys[2] && keys[3..][0] == keys[3] && keys[4..][0] == keys[4];
    assert keys[1..][1..] == keys[2..] && keys[2..][1..] == keys[3..] && keys[3..][1..] == keys[4..];
    assert keys[4..][1..] == [];
    assert FirstMatch(text, keys[4..]) == if Contains(text, "UN") then UniqueInterval else NaturalBreaks;
    assert FirstMatch(text, keys[3..]) == if Contains(text, "ST") then StandardDeviation else FirstMatch(text, keys[4..]);
    assert FirstMatch(text, keys[2..]) == if Contains(text, "EQ") then EqualInterval else FirstMatch(text, keys[3..]);
    assert FirstMatch(text, keys[1..]) == if Contains(text, "QU") then Quantile else FirstMatch(text, keys[2..]);
  }

  /** The if/else chain of the dispatch is exactly the priority table. */
  lemma GetFunctionNameAgreesWithTable(methodName: Option<string>)
    ensures GetFunctionName(methodName) == FunctionName(ParseMethod(methodName))
  {
    if methodName.None? || methodName.value == "" {
      UpperOf("Jenks", "JENKS");
      assert OccursAt("JENKS", "JENK", 0);
    } else {
      TableAsChain(ToUpper(methodName.value));
    }
  }

  /** Priority order: a non-empty text resolves to the method of the first table entry its
      upper-cased form mentions, even when it also mentions later entries. */
  lemma FunctionNamePriority(methodName: string, j: nat)
    requires methodName != "" && j < |METHOD_KEYS|
    requires MentionsAny(ToUpper(methodName), METHOD_KEYS[j].markers)
    requires forall i :: 0 <= i < j ==> !MentionsAny(ToUpper(methodName), METHOD_KEYS[i].markers)
    ensures GetFunctionName(Some(methodName)) == FunctionName(METHOD_KEYS[j].selects)
  {
    GetFunctionNameAgreesWithTable(Some(methodName));
    FirstMatchIsFirst(ToUpper(methodName), METHOD_KEYS, j);
  }

  /** A text that mentions none of the markers resolves to "Jenks". */
  lemma FunctionNameDefault(methodName: string)
    requires forall i :: 0 <= i < |METHOD_KEYS| ==> !MentionsAny(ToUpper(methodName), METHOD_KEYS[i].markers)
    ensures GetFunctionName(Some(methodName)) == "Jenks"
  {
    GetFunctionNameAgreesWithTable(Some(methodName));
    if methodName != "" {
      FirstMatchDefault(ToUpper(methodName), METHOD_KEYS);
    }
  }

  /** Absent and empty labels both resolve to "Jenks". */
  lemma AbsentNameIsJenks()
    ensures GetFunctionName(None) == "Jenks"
    ensures GetFunctionName(Some("")) == "Jenks"
  {
    GetFunctionNameAgreesWithTable(None);
    GetFunctionNameAgreesWithTable(Some(""));
  }

  /** The dispatch ignores letter case: labels that upper-case alike resolve alike,
      so in particular a text and its lower- and upper-cased forms do. */
  lemma FunctionNameIgnoresCase(methodName: string, other: string)
    requires ToUpper(methodName) == ToUpper(other)
    ensures GetFunctionName(Some(methodName)) == GetFunctionName(Some(other))
    ensures GetFunctionName(Some(ToLower(methodName))) == GetFunctionName(Some(methodName))
    ensures GetFunctionName(Some(ToUpper(methodName))) == GetFunctionName(Some(methodName))
  {
    ToUpperOfLower(methodName);
    ToUpperIdempotent(methodName);
  }

  /** "Quantile", "quantile" and "QUANT-5" all select the quantile function. */
  lemma QuantileLabels()
    ensures GetFunctionName(Some("Quantile")) == "Quantile"
    ensures GetFunctionName(Some("quantile")) == "Quantile"
    ensures GetFunctionName(Some("QUANT-5")) == "Quantile"
  {
    UpperOf("Quantile", "QUANTILE");
    UpperOf("quantile", "QUANTILE");
    UpperOf("QUANT-5", "QUANT-5");
    AbsentPair("QUANTILE", "NA");
    AbsentLetter("QUANTILE", "JENK", 0);
    OccursAtPair("QUANTILE", "QU", 0);
    AbsentPair("QUANT-5", "NA");
    AbsentLetter("QUANT-5", "JENK", 0);
    OccursAtPair("QUANT-5", "QU", 0);
  }

  /** An unrecognised label such as "foobar" selects Jenks. */
  lemma UnknownLabelIsJenks()
    ensures GetFunctionName(Some("foobar")) == "Jenks"
  {
    UpperOf("foobar", "FOOBAR");
    AbsentLetter("FOOBAR", "NA", 0);
    AbsentLetter("FOOBAR", "JENK", 0);
    AbsentLetter("FOOBAR", "QU", 0);
    AbsentLetter("FOOBAR", "EQ", 0);
    AbsentLetter("FOOBAR", "ST", 0);
    AbsentLetter("FOOBAR", "UN", 0);
  }

  /** Fed back in, "Jenks" selects itself. */
  lemma JenksSelectsItself()
    ensures GetFunctionName(Some("Jenks")) == "Jenks"
  {
    UpperOf("Jenks", "JENKS");
    assert OccursAt("JENKS", "JENK", 0);
  }

  /** Fed back in, "StandardDeviation" selects itself. */
  lemma StandardDeviationSelectsItself()
    ensures GetFunctionName(Some("StandardDeviation")) == "StandardDeviation"
  {
    UpperOf("StandardDeviation", "STANDARDDEVIATION");
    AbsentPair("STANDARDDEVIATION", "NA");
    AbsentLetter("STANDARDDEVIATION", "JENK", 0);
    AbsentLetter("STANDARDDEVIATION", "QU", 0);
    AbsentLetter("STANDARDDEVIATION", "EQ", 1);
    OccursAtPair("STANDARDDEVIATION", "ST", 0);
  }

  /** Because "QU" is tested before "EQ", the label "EqualInterval" selects the quantile function. */
  lemma EqualIntervalSelectsQuantile()
    ensures GetFunctionName(Some("EqualInterval")) == "Quantile"
  {
    UpperOf("EqualInterval", "EQUALINTERVAL");
    AbsentPair("EQUALINTERVAL", "NA");
    AbsentLetter("EQUALINTERVAL", "JENK", 0);
    OccursAtPair("EQUALINTERVAL", "QU", 1);
  }

  /** Because "QU" is tested before "UN", the label "UniqueInterval" selects the quantile function. */
  lemma UniqueIntervalSelectsQuantile()
    ensures GetFunctionName(Some("UniqueInterval")) == "Quantile"
  {
    UpperOf("UniqueInterval", "UNIQUEINTERVAL");
    AbsentPair("UNIQUEINTERVAL", "NA");
    AbsentLetter("UNIQUEINTERVAL", "JENK", 0);
    OccursAtPair("UNIQUEINTERVAL", "QU", 3);
  }

  // ---------------------------------------------------------------------------
  // Classifier calls
  // ---------------------------------------------------------------------------

  /** The classification function built for a raw attribute. */
  function ClassifierFunction(propertyName: string, methodName: Option<string>, numClass: int): ClassificationFunction
  {
    ClassificationFunction(GetFunctionName(methodName), PropertyName(propertyName), numClass)
  }

  /** The classification function built for the ratio of two attributes. */
  function NormalizedClassifierFunction(propertyName: string, normalPropertyName: string,
                                        methodName: Option<string>, numClass: int): ClassificationFunction
  {
    ClassificationFunction(GetFunctionName(methodName),
                           Divide(PropertyName(propertyName), PropertyName(normalPropertyName)), numClass)
  }

  /** Classifies a raw attribute; `evaluate` is the classification function's evaluation
      over the features (null when it yields no ranged classifier). */
  function GetClassifier(inputFeatures: FeatureCollection, propertyName: string, methodName: Option<string>,
                         numClass: int,
                         evaluate: (ClassificationFunction, FeatureCollection) -> Option<RangedClassifier>): Option<RangedClassifier>
  {
    evaluate(ClassifierFunction(propertyName, methodName, numClass), inputFeatures)
  }

  /** Classifies the ratio of `propertyName` to `normalPropertyName`. */
  function GetNormalizedClassifier(inputFeatures: FeatureCollection, propertyName: string, normalPropertyName: string,
                                   methodName: Option<string>, numClass: int,
                                   evaluate: (ClassificationFunction, FeatureCollection) -> Option<RangedClassifier>): Option<RangedClassifier>
  {
    evaluate(NormalizedClassifierFunction(propertyName, normalPropertyName, methodName, numClass), inputFeatures)
  }

  // ---------------------------------------------------------------------------
  // Class breaks
  // ---------------------------------------------------------------------------

  /** The minimum of every class, in class order. */
  function Mins(slots: seq<ClassSlot>): seq<real>
  {
    if slots == [] then [] else [slots[0].min] + Mins(slots[1..])
  }

  /** The class breaks of a classifier with at least one class: every class's minimum,
      then the last class's maximum. */
  function ClassBreaks(classifier: RangedClassifier): seq<real>
    requires classifier.Size() > 0
  {
    Mins(classifier.slots) + [classifier.GetMax(classifier.Size() - 1)]
  }

  lemma {:induction false} MinsAt(slots: seq<ClassSlot>)
    ensures |Mins(slots)| == |slots|
    ensures forall i :: 0 <= i < |slots| ==> Mins(slots)[i] == slots[i].min
  {
    if slots != [] {
      MinsAt(slots[1..]);
    }
  }

  /** There is one break more than there are classes; break `slot` is the minimum of class
      `slot`, and the last break is the maximum of the last class. */
  lemma ClassBreaksAt(classifier: RangedClassifier)
    requires classifier.Size() > 0
    ensures |ClassBreaks(classifier)| == classifier.Size() + 1
    ensures forall slot :: 0 <= slot < classifier.Size() ==> ClassBreaks(classifier)[slot] == classifier.GetMin(slot)
    ensures ClassBreaks(classifier)[classifier.Size()] == classifier.GetMax(classifier.Size() - 1)
  {
    MinsAt(classifier.slots);
  }

  /** The classifier's own invariant: every class is a non-empty range, and every class
      ends no later than the next one begins. */
  predicate WellOrdered(classifier: RangedClassifier)
  {
    && (forall slot :: 0 <= slot < classifier.Size() ==> classifier.GetMin(slot) <= classifier.GetMax(slot))
    && (forall slot :: 0 <= slot < classifier.Size() - 1 ==> classifier.GetMax(slot) <= classifier.GetMin(slot + 1))
  }

  predicate Nondecreasing(s: seq<real>)
  {
    forall i, j :: 0 <= i <= j < |s| ==> s[i] <= s[j]
  }

  lemma {:induction false} StepwiseNondecreasing(s: seq<real>)
    requires forall i :: 0 <= i < |s| - 1 ==> s[i] <= s[i + 1]
    ensures Nondecreasing(s)
  {
    if |s| > 1 {
      StepwiseNondecreasing(s[1..]);
      forall i, j | 0 <= i <= j < |s| ensures s[i] <= s[j] {
        if 0 < i {
          assert s[i] == s[1..][i - 1] && s[j] == s[1..][j - 1];
        } else if 0 < j {
          assert s[1] == s[1..][0] && s[j] == s[1..][j - 1];
        }
      }
    }
  }

  /** The breaks of a well-ordered classifier never decrease. */
  lemma ClassBreaksNondecreasing(classifier: RangedClassifier)
    requires classifier.Size() > 0 && WellOrdered(classifier)
    ensures Nondecreasing(ClassBreaks(classifier))
  {
    ClassBreaksAt(classifier);
    var breaks := ClassBreaks(classifier);
    forall i | 0 <= i < |breaks| - 1 ensures breaks[i] <= breaks[i + 1] {
      assert breaks[i] == classifier.GetMin(i);
      if i + 1 < classifier.Size() {
        assert classifier.GetMin(i) <= classifier.GetMax(i) <= classifier.GetMin(i + 1);
      }
    }
    StepwiseNondecreasing(breaks);
  }

  /** Fills a fresh array with the classifier's breaks, slot by slot. A classifier without
      classes makes the final `getMax(size - 1)` throw. */
  method GetClassBreaks(classifier: RangedClassifier) returns (r: Result<array<real>, Failure>)
    ensures r.Failure? <==> classifier.Size() == 0
    ensures r.Failure? ==> r.error == EmptyClassifier
    ensures r.Success? ==> fresh(r.value) && r.value[..] == ClassBreaks(classifier)
  {
    var classBreaks := new real[classifier.Size() + 1];
    for slot := 0 to classifier.Size()
      invariant forall i :: 0 <= i < slot ==> classBreaks[i] == classifier.GetMin(i)
    {
      classBreaks[slot] := classifier.GetMin(slot);
    }
    if classifier.Size() == 0 {
      return Failure(EmptyClassifier);
    }
    classBreaks[classifier.Size()] := classifier.GetMax(classifier.Size() - 1);
    ClassBreaksAt(classifier);
    return Success(classBreaks);
  }

  // ---------------------------------------------------------------------------
  // Appearance settings
  // ---------------------------------------------------------------------------

  /** A snapshot of the appearance settings. */
  datatype AppearanceConfig = AppearanceConfig(
    lineWidth: Float32,
    outlineWidth: Float32,
    lineOpacity: Float32,
    outlineOpacity: Float32,
    fillOpacity: Float32,
    outlineColor: Color,
    markerSize: Float32)

  /** Line width 1, outline width 0.5, every opacity 1, a light grey outline, marker size 7. */
  const DEFAULT_APPEARANCE: AppearanceConfig :=
    AppearanceConfig(FLOAT_ONE, FLOAT_HALF, FLOAT_ONE, FLOAT_ONE, FLOAT_ONE, Color(225, 225, 225), FLOAT_SEVEN)

  /** The mutable appearance settings a builder draws every rule with. */
  class Appearance {
    var lineWidth: Float32
    var outlineWidth: Float32
    var lineOpacity: Float32
    var outlineOpacity: Float32
    var fillOpacity: Float32
    var outlineColor: Color
    var markerSize: Float32

    function Config(): AppearanceConfig
      reads this
    {
      AppearanceConfig(lineWidth, outlineWidth, lineOpacity, outlineOpacity, fillOpacity, outlineColor, markerSize)
    }

    constructor ()
      ensures Config() == DEFAULT_APPEARANCE
    {
      lineWidth := FLOAT_ONE;
      outlineWidth := FLOAT_HALF;
      lineOpacity := FLOAT_ONE;
      outlineOpacity := FLOAT_ONE;
      fillOpacity := FLOAT_ONE;
      outlineColor := Color(225, 225, 225);
      markerSize := FLOAT_SEVEN;
    }

    function GetMarkerSize(): Float32
      reads this
    {
      markerSize
    }

    method SetMarkerSize(markerSize: Float32)
      modifies this
      ensures GetMarkerSize() == markerSize
      ensures Config() == old(Config()).(markerSize := markerSize)
    {
      this.markerSize := markerSize;
    }

    function GetLineWidth(): Float32
      reads this
    {
      lineWidth
    }

    method SetLineWidth(lineWidth: Float32)
      modifies this
      ensures GetLineWidth() == lineWidth
      ensures Config() == old(Config()).(lineWidth := lineWidth)
    {
      this.lineWidth := lineWidth;
    }

    function GetOutlineWidth(): Float32
      reads this
    {
      outlineWidth
    }

    method SetOutlineWidth(outlineWidth: Float32)
      modifies this
      ensures GetOutlineWidth() == outlineWidth
      ensures Config() == old(Config()).(outlineWidth := outlineWidth)
    {
      this.outlineWidth := outlineWidth;
    }

    function GetLineOpacity(): Float32
      reads this
    {
      lineOpacity
    }

    method SetLineOpacity(lineOpacity: Float32)
      modifies this
      ensures GetLineOpacity() == lineOpacity
      ensures Config() == old(Config()).(lineOpacity := lineOpacity)
    {
      this.lineOpacity := lineOpacity;
    }

    function GetOutlineOpacity(): Float32
      reads this
    {
      outlineOpacity
    }

    method SetOutlineOpacity(outlineOpacity: Float32)
      modifies this
      ensures GetOutlineOpacity() == outlineOpacity
      ensures Config() == old(Config()).(outlineOpacity := outlineOpacity)
    {
      this.outlineOpacity := outlineOpacity;
    }

    function GetFillOpacity(): Float32
      reads this
    {
      fillOpacity
    }

    method SetFillOpacity(fillOpacity: Float32)
      modifies this
      ensures GetFillOpacity() == fillOpacity
      ensures Config() == old(Config()).(fillOpacity := fillOpacity)
    {
      this.fillOpacity := fillOpacity;
    }

    function GetOutlineColor(): Color
      reads this
    {
      outlineColor
    }

    method SetOutlineColor(outlineColor: Color)
      modifies this
      ensures GetOutlineColor() == outlineColor
      ensures Config() == old(Config()).(outlineColor := outlineColor)
    {
      this.outlineColor := outlineColor;
    }
  }
}
