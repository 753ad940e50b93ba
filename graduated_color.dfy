/** The graduated color style builder: classifies an attribute, fetches one color per class
    from a named palette, and emits one rule per class — a closed range filter, a
    "min - max" label and a symbolizer chosen by the features' shape. */
module GraduatedColor {
  import opened Wrappers
  import opened Styling
  import opened FeatureStyleBuilder

  const MIN_CLASSES: int := 3
  const MAX_CLASSES: int := 12
  const DEFAULT_PALETTE: string := "OrRd"
  const CIRCLE: string := "circle"

  /** The class count actually requested: below 3 becomes 3, above 12 becomes 12. */
  function ClampClasses(numClasses: int): (n: int)
    ensures MIN_CLASSES <= n <= MAX_CLASSES
    ensures MIN_CLASSES <= numClasses <= MAX_CLASSES ==> n == numClasses
    ensures numClasses < MIN_CLASSES ==> n == MIN_CLASSES
    ensures numClasses > MAX_CLASSES ==> n == MAX_CLASSES
  {
    if numClasses < MIN_CLASSES then MIN_CLASSES
    else if numClasses > MAX_CLASSES then MAX_CLASSES
    else numClasses
  }

  /** A normalizing attribute is configured: the setting is neither null nor empty. */
  predicate Normalizes(normalProperty: Option<string>)
  {
    normalProperty.Some? && normalProperty.value != ""
  }

  /** The classification function the builder evaluates for a normalizing setting. */
  function ClassificationCall(normalProperty: Option<string>, propertyName: string,
                              methodName: Option<string>, numClasses: int): ClassificationFunction
  {
    if normalProperty.None? || normalProperty.value == "" then
      ClassifierFunction(propertyName, methodName, numClasses)
    else
      NormalizedClassifierFunction(propertyName, normalProperty.value, methodName, numClasses)
  }

  /** The builder classifies the ratio of `propertyName` to the normalizing attribute exactly
      when one is configured, and the raw attribute otherwise; either way with the dispatched
      function name and the requested number of classes. */
  lemma ClassificationCallChoosesOverload(normalProperty: Option<string>, propertyName: string,
                                          methodName: Option<string>, numClasses: int)
    ensures var f := ClassificationCall(normalProperty, propertyName, methodName, numClasses);
      && f.name == GetFunctionName(methodName) && f.numClasses == numClasses
      && (f.expression.Divide? <==> Normalizes(normalProperty))
      && (Normalizes(normalProperty) ==>
            f.expression == Divide(PropertyName(propertyName), PropertyName(normalProperty.value)))
      && (!Normalizes(normalProperty) ==> f.expression == PropertyName(propertyName))
  {
  }

  /** The palette looked up: the given name, or "OrRd" when it is null or empty. */
  function PaletteName(brewerPaletteName: Option<string>): (name: string)
    ensures name != ""
    ensures brewerPaletteName.Some? && brewerPaletteName.value != "" ==> name == brewerPaletteName.value
    ensures brewerPaletteName.None? || brewerPaletteName.value == "" ==> name == DEFAULT_PALETTE
  {
    if brewerPaletteName.None? || brewerPaletteName.value == "" then DEFAULT_PALETTE else brewerPaletteName.value
  }

  // ---------------------------------------------------------------------------
  // Symbolizers
  // ---------------------------------------------------------------------------

  /** The symbolizer of one class, drawn in the class color `uvColor`:
      a point gets a circle mark with a white outline and a filled body of the marker size,
      a line gets a stroke, a polygon an outline in the outline color and a fill. */
  function Symbolize(shapeType: ShapeType, config: AppearanceConfig, uvColor: Color, geometryName: string): (s: Symbolizer)
    ensures ShapeOf(s) == shapeType
    ensures ClassColor(s) == Some(uvColor)
    ensures s.geometry == geometryName
  {
    match shapeType
    case Point =>
      var mark := Mark(CIRCLE, Stroke(WHITE, config.outlineWidth, config.outlineOpacity), Fill(uvColor, config.fillOpacity));
      PointSymbolizer(Graphic([mark], config.markerSize), geometryName)
    case LineString =>
      LineSymbolizer(Stroke(uvColor, config.lineWidth, config.lineOpacity), geometryName)
    case Polygon =>
      PolygonSymbolizer(Stroke(config.outlineColor, config.outlineWidth, config.outlineOpacity),
                        Fill(uvColor, config.fillOpacity), geometryName)
  }

  /** The shape a symbolizer draws. */
  function ShapeOf(s: Symbolizer): ShapeType
  {
    match s
    case PointSymbolizer(_, _) => Point
    case LineSymbolizer(_, _) => LineString
    case PolygonSymbolizer(_, _, _) => Polygon
  }

  /** The color that identifies the class: the fill of the first mark, the line's stroke,
      or the polygon's fill. */
  function ClassColor(s: Symbolizer): Option<Color>
  {
    match s
    case PointSymbolizer(graphic, _) => if graphic.marks == [] then None else Some(graphic.marks[0].fill.color)
    case LineSymbolizer(stroke, _) => Some(stroke.color)
    case PolygonSymbolizer(_, fill, _) => Some(fill.color)
  }

  /** The same symbolizer with its class color replaced. */
  function Recolor(s: Symbolizer, c: Color): Symbolizer
  {
    match s
    case PointSymbolizer(graphic, geometry) =>
      if graphic.marks == [] then s
      else
        var mark := graphic.marks[0];
        PointSymbolizer(graphic.(marks := [mark.(fill := mark.fill.(color := c))] + graphic.marks[1..]), geometry)
    case LineSymbolizer(stroke, geometry) => LineSymbolizer(stroke.(color := c), geometry)
    case PolygonSymbolizer(stroke, fill, geometry) => PolygonSymbolizer(stroke, fill.(color := c), geometry)
  }

  /** The settings a shape's symbolizer is drawn with agree in `a` and `b`: outline width and
      opacity, fill opacity and marker size for points; line width and opacity for lines;
      outline color, width and opacity and fill opacity for polygons. */
  predicate SameSettingsFor(shapeType: ShapeType, a: AppearanceConfig, b: AppearanceConfig)
  {
    match shapeType
    case Point =>
      a.outlineWidth == b.outlineWidth && a.outlineOpacity == b.outlineOpacity
      && a.fillOpacity == b.fillOpacity && a.markerSize == b.markerSize
    case LineString =>
      a.lineWidth == b.lineWidth && a.lineOpacity == b.lineOpacity
    case Polygon =>
      a.outlineColor == b.outlineColor && a.outlineWidth == b.outlineWidth
      && a.outlineOpacity == b.outlineOpacity && a.fillOpacity == b.fillOpacity
  }

  /** Two settings give the same symbolizer exactly when they agree on the settings that
      shape uses; in particular a point's outline is white whatever the outline color is. */
  lemma SymbolizerSettings(shapeType: ShapeType, a: AppearanceConfig, b: AppearanceConfig, uvColor: Color, geometryName: string)
    ensures Symbolize(shapeType, a, uvColor, geometryName) == Symbolize(shapeType, b, uvColor, geometryName)
            <==> SameSettingsFor(shapeType, a, b)
  {
  }

  /** The symbolizers of two classes differ in their class color only. */
  lemma SymbolizersDifferInColorOnly(shapeType: ShapeType, config: AppearanceConfig, c1: Color, c2: Color, geometryName: string)
    ensures Symbolize(shapeType, config, c2, geometryName) == Recolor(Symbolize(shapeType, config, c1, geometryName), c2)
  {
  }

  // ---------------------------------------------------------------------------
  // Rules and styles
  // ---------------------------------------------------------------------------

  /** A rule's name: the two bounds, as `format` renders a double, joined by " - ". */
  function RangeLabel(lower: real, upper: real, format: real -> string): string
  {
    format(lower) + " - " + format(upper)
  }

  /** The rule of class `k`: the closed range between breaks `k` and `k + 1`, its label, and
      a symbolizer in color `k`. */
  function ClassRule(config: AppearanceConfig, featureType: SimpleFeatureType, propertyName: string,
                     classBreaks: seq<real>, colors: seq<Color>, k: nat, format: real -> string): Rule
    requires k + 1 < |classBreaks| && k < |colors|
  {
    Rule(RangeLabel(classBreaks[k], classBreaks[k + 1], format),
         Between(propertyName, classBreaks[k], classBreaks[k + 1]),
         [Symbolize(featureType.shapeType, config, colors[k], featureType.geometryName)])
  }

  /** The style built from breaks and colors: null unless there is exactly one color per
      pair of consecutive breaks, otherwise one feature-type style holding the class rules
      in class order. */
  function StyleFor(config: AppearanceConfig, featureType: SimpleFeatureType, propertyName: string,
                    classBreaks: seq<real>, colors: seq<Color>, format: real -> string): (style: Option<Style>)
    ensures style.None? <==> |classBreaks| - 1 != |colors|
  {
    if |classBreaks| - 1 != |colors| then None
    else
      Some(Style([FeatureTypeStyle(
        seq(|colors|, k requires 0 <= k < |colors| => ClassRule(config, featureType, propertyName, classBreaks, colors, k, format)))]))
  }

  /** The rules of a style's first feature-type style. */
  function RulesOf(style: Style): seq<Rule>
  {
    if style.featureTypeStyles == [] then [] else style.featureTypeStyles[0].rules
  }

  /** With one color per class, the style holds a single feature-type style with one rule per
      class, in class order; rule `k` filters on the closed range between breaks `k` and
      `k + 1`, is labelled with them, and draws with color `k`. */
  lemma StyleForRules(config: AppearanceConfig, featureType: SimpleFeatureType, propertyName: string,
                      classBreaks: seq<real>, colors: seq<Color>, format: real -> string)
    requires |classBreaks| - 1 == |colors|
    ensures var style := StyleFor(config, featureType, propertyName, classBreaks, colors, format);
      && style.Some?
      && |style.value.featureTypeStyles| == 1
      && RulesOf(style.value) == style.value.featureTypeStyles[0].rules
      && |RulesOf(style.value)| == |colors|
      && forall k :: 0 <= k < |colors| ==>
           var rule := RulesOf(style.value)[k];
           && rule.filter == Between(propertyName, classBreaks[k], classBreaks[k + 1])
           && rule.name == RangeLabel(classBreaks[k], classBreaks[k + 1], format)
           && rule.symbolizers == [Symbolize(featureType.shapeType, config, colors[k], featureType.geometryName)]
           && ShapeOf(rule.symbolizers[0]) == featureType.shapeType
           && ClassColor(rule.symbolizers[0]) == Some(colors[k])
  {
  }

  /** For point features, rule `k` draws a circle mark of the marker size, outlined in white
      at the outline width and opacity and filled with color `k` at the fill opacity. */
  lemma PointRuleSymbolizer(config: AppearanceConfig, featureType: SimpleFeatureType, propertyName: string,
                            classBreaks: seq<real>, colors: seq<Color>, format: real -> string, k: nat)
    requires |classBreaks| - 1 == |colors| && k < |colors| && featureType.shapeType == Point
    ensures RulesOf(StyleFor(config, featureType, propertyName, classBreaks, colors, format).value)[k].symbolizers
            == [PointSymbolizer(Graphic([Mark("circle", Stroke(WHITE, config.outlineWidth, config.outlineOpacity),
                                                        Fill(colors[k], config.fillOpacity))],
                                        config.markerSize),
                                featureType.geometryName)]
  {
    StyleForRules(config, featureType, propertyName, classBreaks, colors, format);
  }

  /** For line features, rule `k` strokes in color `k` at the line width and opacity. */
  lemma LineRuleSymbolizer(config: AppearanceConfig, featureType: SimpleFeatureType, propertyName: string,
                           classBreaks: seq<real>, colors: seq<Color>, format: real -> string, k: nat)
    requires |classBreaks| - 1 == |colors| && k < |colors| && featureType.shapeType == LineString
    ensures RulesOf(StyleFor(config, featureType, propertyName, classBreaks, colors, format).value)[k].symbolizers
            == [LineSymbolizer(Stroke(colors[k], config.lineWidth, config.lineOpacity), featureType.geometryName)]
  {
    StyleForRules(config, featureType, propertyName, classBreaks, colors, format);
  }

  /** For polygon features, rule `k` outlines in the outline color at the outline width and
      opacity and fills with color `k` at the fill opacity. */
  lemma PolygonRuleSymbolizer(config: AppearanceConfig, featureType: SimpleFeatureType, propertyName: string,
                              classBreaks: seq<real>, colors: seq<Color>, format: real -> string, k: nat)
    requires |classBreaks| - 1 == |colors| && k < |colors| && featureType.shapeType == Polygon
    ensures RulesOf(StyleFor(config, featureType, propertyName, classBreaks, colors, format).value)[k].symbolizers
            == [PolygonSymbolizer(Stroke(config.outlineColor, config.outlineWidth, config.outlineOpacity),
                                  Fill(colors[k], config.fillOpacity), featureType.geometryName)]
  {
    StyleForRules(config, featureType, propertyName, classBreaks, colors, format);
  }

  /** All rules share one appearance: recoloring the symbolizer of rule `j` with color `k`
      gives the symbolizer of rule `k`. */
  lemma RulesShareAppearance(config: AppearanceConfig, featureType: SimpleFeatureType, propertyName: string,
                             classBreaks: seq<real>, colors: seq<Color>, format: real -> string, j: nat, k: nat)
    requires |classBreaks| - 1 == |colors| && j < |colors| && k < |colors|
    ensures var rules := RulesOf(StyleFor(config, featureType, propertyName, classBreaks, colors, format).value);
      rules[k].symbolizers == [Recolor(rules[j].symbolizers[0], colors[k])]
  {
    SymbolizersDifferInColorOnly(featureType.shapeType, config, colors[j], colors[k], featureType.geometryName);
  }

  /** When a value lies between break `lo` and the last break, it lies in the closed range
      of some consecutive pair from `lo` on. No ordering of the breaks is needed. */
  lemma {:induction false} SomeRangeHolds(classBreaks: seq<real>, value: real, lo: nat)
    requires lo < |classBreaks| - 1
    requires classBreaks[lo] <= value <= classBreaks[|classBreaks| - 1]
    ensures exists k :: lo <= k < |classBreaks| - 1 && classBreaks[k] <= value <= classBreaks[k + 1]
    decreases |classBreaks| - lo
  {
    if value <= classBreaks[lo + 1] {
      assert classBreaks[lo] <= value <= classBreaks[lo + 1];
    } else {
      SomeRangeHolds(classBreaks, value, lo + 1);
    }
  }

  /** The rules leave no gap: every value from the first break to the last is accepted by
      some rule's filter. */
  lemma RulesCoverRange(config: AppearanceConfig, featureType: SimpleFeatureType, propertyName: string,
                        classBreaks: seq<real>, colors: seq<Color>, format: real -> string, value: real)
    requires |classBreaks| - 1 == |colors| && |colors| > 0
    requires classBreaks[0] <= value <= classBreaks[|classBreaks| - 1]
    ensures var rules := RulesOf(StyleFor(config, featureType, propertyName, classBreaks, colors, format).value);
      exists k :: 0 <= k < |rules| && Matches(rules[k].filter, value)
  {
    StyleForRules(config, featureType, propertyName, classBreaks, colors, format);
    SomeRangeHolds(classBreaks, value, 0);
    var k :| 0 <= k < |classBreaks| - 1 && classBreaks[k] <= value <= classBreaks[k + 1];
    var rules := RulesOf(StyleFor(config, featureType, propertyName, classBreaks, colors, format).value);
    assert Matches(rules[k].filter, value);
  }

  /** Over non-decreasing breaks two different rules accept a common value only when it is
      a break shared by both, the upper bound of the earlier and the lower bound of the later. */
  lemma RulesOverlapOnlyAtBreaks(config: AppearanceConfig, featureType: SimpleFeatureType, propertyName: string,
                                 classBreaks: seq<real>, colors: seq<Color>, format: real -> string,
                                 j: nat, k: nat, value: real)
    requires |classBreaks| - 1 == |colors| && Nondecreasing(classBreaks) && j < k < |colors|
    requires var rules := RulesOf(StyleFor(config, featureType, propertyName, classBreaks, colors, format).value);
      Matches(rules[j].filter, value) && Matches(rules[k].filter, value)
    ensures value == classBreaks[j + 1] == classBreaks[k]
  {
    StyleForRules(config, featureType, propertyName, classBreaks, colors, format);
  }

  /** For a classifier and one color per class, the style has one rule per class and its
      rules accept every value from the first class's minimum to the last class's maximum. */
  lemma ClassifiedStyleCoversClasses(config: AppearanceConfig, featureType: SimpleFeatureType, propertyName: string,
                                     classifier: RangedClassifier, colors: seq<Color>, format: real -> string, value: real)
    requires classifier.Size() > 0 && |colors| == classifier.Size()
    requires classifier.GetMin(0) <= value <= classifier.GetMax(classifier.Size() - 1)
    ensures var style := StyleFor(config, featureType, propertyName, ClassBreaks(classifier), colors, format);
      && style.Some? && |RulesOf(style.value)| == classifier.Size()
      && exists k :: 0 <= k < classifier.Size() && Matches(RulesOf(style.value)[k].filter, value)
  {
    ClassBreaksAt(classifier);
    StyleForRules(config, featureType, propertyName, ClassBreaks(classifier), colors, format);
    RulesCoverRange(config, featureType, propertyName, ClassBreaks(classifier), colors, format, value);
  }

  /** The outcome of classifying and styling: classification that yields no ranged classifier,
      a classifier without classes and an unknown palette each fail; otherwise the style built
      from the classifier's breaks and the palette's colors for that many classes. */
  function GraduatedStyle(config: AppearanceConfig, normalProperty: Option<string>,
                          inputFeatures: FeatureCollection, propertyName: string, methodName: Option<string>,
                          numClasses: int, brewerPaletteName: Option<string>,
                          evaluate: (ClassificationFunction, FeatureCollection) -> Option<RangedClassifier>,
                          brewer: (string, int) -> Option<seq<Color>>,
                          format: real -> string): Result<Option<Style>, Failure>
  {
    var call := ClassificationCall(normalProperty, propertyName, methodName, ClampClasses(numClasses));
    match evaluate(call, inputFeatures)
    case None => Failure(ClassificationFailed)
    case Some(classifier) =>
      ClassifiedStyle(config, inputFeatures.schema, propertyName, classifier, brewerPaletteName, brewer, format)
  }

  /** The outcome once a classifier is at hand: no classes or an unknown palette fail,
      otherwise the style from the classifier's breaks and the palette colors. */
  function ClassifiedStyle(config: AppearanceConfig, featureType: SimpleFeatureType, propertyName: string,
                           classifier: RangedClassifier, brewerPaletteName: Option<string>,
                           brewer: (string, int) -> Option<seq<Color>>,
                           format: real -> string): Result<Option<Style>, Failure>
  {
    if classifier.Size() == 0 then Failure(EmptyClassifier)
    else
      var classBreaks := ClassBreaks(classifier);
      match brewer(PaletteName(brewerPaletteName), |classBreaks| - 1)
      case None => Failure(PaletteNotFound)
      case Some(colors) => Success(StyleFor(config, featureType, propertyName, classBreaks, colors, format))
  }

  /** The outcomes of classifying and styling, case by case: each failure happens exactly in
      its own situation, and a successful run yields a style exactly when the palette supplies
      one color per class. */
  lemma GraduatedStyleCases(config: AppearanceConfig, normalProperty: Option<string>,
                            inputFeatures: FeatureCollection, propertyName: string, methodName: Option<string>,
                            numClasses: int, brewerPaletteName: Option<string>,
                            evaluate: (ClassificationFunction, FeatureCollection) -> Option<RangedClassifier>,
                            brewer: (string, int) -> Option<seq<Color>>,
                            format: real -> string)
    ensures var r := GraduatedStyle(config, normalProperty, inputFeatures, propertyName, methodName,
                                    numClasses, brewerPaletteName, evaluate, brewer, format);
      var classifier := evaluate(ClassificationCall(normalProperty, propertyName, methodName, ClampClasses(numClasses)),
                                 inputFeatures);
      && (r == Failure(ClassificationFailed) <==> classifier.None?)
      && (r == Failure(EmptyClassifier) <==> classifier.Some? && classifier.value.Size() == 0)
      && (r == Failure(PaletteNotFound) <==>
            classifier.Some? && classifier.value.Size() > 0
            && brewer(PaletteName(brewerPaletteName), classifier.value.Size()).None?)
      && (r.Success? ==>
            && classifier.Some? && classifier.value.Size() > 0
            && brewer(PaletteName(brewerPaletteName), classifier.value.Size()).Some?
            && (r.value.Some? <==> |brewer(PaletteName(brewerPaletteName), classifier.value.Size()).value| == classifier.value.Size()))
  {
    var classifier := evaluate(ClassificationCall(normalProperty, propertyName, methodName, ClampClasses(numClasses)),
                               inputFeatures);
    if classifier.Some? && classifier.value.Size() > 0 {
      ClassBreaksAt(classifier.value);
    }
  }

  // ---------------------------------------------------------------------------
  // The builder
  // ---------------------------------------------------------------------------

  class GraduatedColorStyleBuilder {
    /** The appearance settings every builder carries. */
    const appearance: Appearance
    /** The optional normalizing attribute. */
    var normalProperty: Option<string>

    constructor ()
      ensures fresh(appearance) && appearance.Config() == DEFAULT_APPEARANCE
      ensures normalProperty == None
    {
      appearance := new Appearance();
      normalProperty := None;
    }

    function GetNormalProperty(): Option<string>
      reads this
    {
      normalProperty
    }

    method SetNormalProperty(normalProperty: Option<string>)
      modifies this
      ensures GetNormalProperty() == normalProperty
      ensures unchanged(appearance)
    {
      this.normalProperty := normalProperty;
    }

    /** Builds the style from precomputed breaks and colors: null when the lengths disagree,
        otherwise one rule per pair of consecutive breaks, appended in class order. */
    method CreateStyleFromBreaks(inputFeatureType: SimpleFeatureType, propertyName: string,
                                 classBreaks: array<real>, colors: array<Color>,
                                 format: real -> string) returns (style: Option<Style>)
      ensures style == StyleFor(appearance.Config(), inputFeatureType, propertyName, classBreaks[..], colors[..], format)
    {
      if classBreaks.Length - 1 != colors.Length {
        return None;
      }
      var geometryPropertyName := inputFeatureType.geometryName;
      var shapeType := inputFeatureType.shapeType;
      ghost var config, breakSeq, colorSeq := appearance.Config(), classBreaks[..], colors[..];
      var rules: seq<Rule> := [];
      for k := 0 to classBreaks.Length - 1
        invariant |rules| == k
        invariant forall j :: 0 <= j < k ==>
          rules[j] == ClassRule(config, inputFeatureType, propertyName, breakSeq, colorSeq, j, format)
      {
        var uvColor := colors[k];
        var symbolizer: Symbolizer;
        match shapeType {
          case Point =>
            var markStroke := Stroke(WHITE, appearance.outlineWidth, appearance.outlineOpacity);
            var mark := Mark(CIRCLE, markStroke, Fill(uvColor, appearance.fillOpacity));
            var graphic := Graphic([mark], appearance.markerSize);
            symbolizer := PointSymbolizer(graphic, geometryPropertyName);
          case LineString =>
            var lineStroke := Stroke(uvColor, appearance.lineWidth, appearance.lineOpacity);
            symbolizer := LineSymbolizer(lineStroke, geometryPropertyName);
          case Polygon =>
            var outlineStroke := Stroke(appearance.outlineColor, appearance.outlineWidth, appearance.outlineOpacity);
            var fill := Fill(uvColor, appearance.fillOpacity);
            symbolizer := PolygonSymbolizer(outlineStroke, fill, geometryPropertyName);
        }
        var filter := Between(propertyName, classBreaks[k], classBreaks[k + 1]);
        var rule := Rule(RangeLabel(classBreaks[k], classBreaks[k + 1], format), filter, [symbolizer]);
        rules := rules + [rule];
      }
      assert rules == seq(|colorSeq|, k requires 0 <= k < |colorSeq| =>
        ClassRule(config, inputFeatureType, propertyName, breakSeq, colorSeq, k, format));
      return Some(Style([FeatureTypeStyle(rules)]));
    }

    /** Clamps the class count to 3..12 and classifies the attribute, or its ratio to the
        normalizing attribute when one is configured. */
    method Classify(inputFeatures: FeatureCollection, propertyName: string, methodName: Option<string>,
                    numClasses: int,
                    evaluate: (ClassificationFunction, FeatureCollection) -> Option<RangedClassifier>)
      returns (classifier: Option<RangedClassifier>)
      ensures classifier == evaluate(ClassificationCall(normalProperty, propertyName, methodName, ClampClasses(numClasses)),
                                     inputFeatures)
      ensures Normalizes(normalProperty) ==>
                classifier == GetNormalizedClassifier(inputFeatures, propertyName, normalProperty.value, methodName,
                                                      ClampClasses(numClasses), evaluate)
      ensures !Normalizes(normalProperty) ==>
                classifier == GetClassifier(inputFeatures, propertyName, methodName, ClampClasses(numClasses), evaluate)
    {
      var n := if numClasses < 3 then 3 else numClasses;
      if n > 12 {
        n := 12;
      }
      if normalProperty.None? || normalProperty.value == "" {
        classifier := GetClassifier(inputFeatures, propertyName, methodName, n, evaluate);
      } else {
        classifier := GetNormalizedClassifier(inputFeatures, propertyName, normalProperty.value, methodName, n, evaluate);
      }
    }

    /** Classifies `propertyName` over the features (as the ratio to the normalizing
        attribute when one is set) into the clamped number of classes, fetches one palette
        color per class and builds the rules. `evaluate` evaluates a classification function
        over the features, `brewer` returns a palette's colors for a count (null for an
        unknown palette), and `format` renders a double. */
    method CreateStyle(inputFeatures: FeatureCollection, propertyName: string, methodName: Option<string>,
                       numClasses: int, brewerPaletteName: Option<string>,
                       evaluate: (ClassificationFunction, FeatureCollection) -> Option<RangedClassifier>,
                       brewer: (string, int) -> Option<seq<Color>>,
                       format: real -> string) returns (r: Result<Option<Style>, Failure>)
      ensures r == GraduatedStyle(appearance.Config(), normalProperty, inputFeatures, propertyName, methodName,
                                  numClasses, brewerPaletteName, evaluate, brewer, format)
    {
      var classifier := Classify(inputFeatures, propertyName, methodName, numClasses, evaluate);
      if classifier.None? {
        return Failure(ClassificationFailed);
      }

      var breaks := GetClassBreaks(classifier.value);
      if breaks.Failure? {
        return Failure(breaks.error);
      }
      var classBreaks := breaks.value;

      var paletteName := if brewerPaletteName.None? || brewerPaletteName.value == "" then DEFAULT_PALETTE
                         else brewerPaletteName.value;
      var palette := brewer(paletteName, classBreaks.Length - 1);
      if palette.None? {
        return Failure(PaletteNotFound);
      }
      var colors := new Color[|palette.value|](i requires 0 <= i < |palette.value| => palette.value[i]);
      assert colors[..] == palette.value;

      var style := CreateStyleFromBreaks(inputFeatures.schema, propertyName, classBreaks, colors, format);
      return Success(style);
    }
  }
}
