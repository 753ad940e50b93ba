# Graduated color styling for uDig feature layers

This project models the graduated color style builder of the uDig processing toolbox and
proves properties about the model. The builder turns a numeric attribute of a feature
collection into a map style in four steps:

1. It resolves a free-text classification method label to a GeoTools classification
   function: Jenks natural breaks, quantile, equal interval, standard deviation or unique interval.
2. It evaluates that function over the features. The attribute is classified as it is, or
   as its ratio to a normalizing attribute when one is configured. The class count is
   clamped to 3..12.
3. It reads the class breaks from the resulting ranged classifier and takes one color per
   class from a ColorBrewer palette. The default palette is "OrRd".
4. It emits one rule per class. Each rule has a closed range filter, a `min - max`
   label and a symbolizer chosen by the shape of the features:
   - points get a white-outlined circle;
   - lines get a colored stroke;
   - polygons get an outlined fill.

   The appearance settings shared by every builder (widths, opacities, outline color and
   marker size) style every rule alike.

The model has five modules:

- `Wrappers` holds Option and Result.
- `Styling` holds the GeoTools and JDK values the builder reads and builds.
- `Text` holds the two `String` operations the label dispatch uses.
- `FeatureStyleBuilder` is the shared builder base: method label dispatch, the two
  classifier calls, class breaks, and the appearance settings as a class with fields,
  getters and setters.
- `GraduatedColor` is the graduated color builder. It is a class that holds an
  `Appearance` object in place of inheriting one.

Beyond the individual contracts, the model proves the following:

- The label dispatch is an ordered priority table. The first matching marker wins.
  Because "QU" is tested before "EQ" and "UN", the labels "EqualInterval" and
  "UniqueInterval", passed back in, select the quantile function.
- Every point rule outlines its circle in white (`PointRuleSymbolizer`), and a point symbolizer does not depend on the outline color setting (`SymbolizerSettings`).
- The rules leave no gap between the first and the last break.
- Over non-decreasing breaks, two rules overlap only at a shared break.

Three calls into GeoTools are parameters of the operations:

- `evaluate` stands for evaluating a classification function over the features. It
  yields `None` when there is no ranged classifier.
- `brewer` stands for looking up a palette and asking for a number of colors. It yields
  `None` for an unknown palette.
- `format` stands for `Double.toString` in the rule labels.

In Java, each of the three failure cases ends in an exception (a null classifier, an empty
classifier, an unknown palette). The model makes each an error value of the `Result`.

## Model

| member | source | states |
|---|---|---|
| FeatureStyleBuilder.GetFunctionName | uDig/org.locationtech.udig.processingtoolbox/src/org/locationtech/udig/processingtoolbox/styler/AbstractFeatureStyleBuilder.java:133-156 | the resolved name is always one of the five classification function names |
| FeatureStyleBuilder.GetFunctionNameAgreesWithTable | uDig/org.locationtech.udig.processingtoolbox/src/org/locationtech/udig/processingtoolbox/styler/AbstractFeatureStyleBuilder.java:133-156 | for every label, the if/else chain gives the same name as the priority table ("NA" or "JENK", "QU", "EQ", "ST", "UN"; otherwise Jenks) applied to the upper-cased label, with absent or empty meaning Jenks |
| FeatureStyleBuilder.FirstMatchIsFirst | uDig/org.locationtech.udig.processingtoolbox/src/org/locationtech/udig/processingtoolbox/styler/AbstractFeatureStyleBuilder.java:141-150 | the first table entry the text mentions decides, whatever later entries it also mentions |
| FeatureStyleBuilder.FirstMatchDefault | uDig/org.locationtech.udig.processingtoolbox/src/org/locationtech/udig/processingtoolbox/styler/AbstractFeatureStyleBuilder.java:151-153 | a text that mentions no entry falls through to natural breaks |
| FeatureStyleBuilder.FunctionNamePriority | uDig/org.locationtech.udig.processingtoolbox/src/org/locationtech/udig/processingtoolbox/styler/AbstractFeatureStyleBuilder.java:141-150 | a non-empty label resolves to the function of the earliest entry its upper-cased form mentions |
| FeatureStyleBuilder.FunctionNameDefault | uDig/org.locationtech.udig.processingtoolbox/src/org/locationtech/udig/processingtoolbox/styler/AbstractFeatureStyleBuilder.java:151-153 | a label that mentions none of the markers resolves to Jenks |
| FeatureStyleBuilder.AbsentNameIsJenks | uDig/org.locationtech.udig.processingtoolbox/src/org/locationtech/udig/processingtoolbox/styler/AbstractFeatureStyleBuilder.java:134-136 | null and empty labels both resolve to Jenks |
| FeatureStyleBuilder.FunctionNameIgnoresCase | uDig/org.locationtech.udig.processingtoolbox/src/org/locationtech/udig/processingtoolbox/styler/AbstractFeatureStyleBuilder.java:138 | labels that upper-case alike resolve alike, in particular a label and its lower- and upper-cased forms |
| FeatureStyleBuilder.QuantileLabels | uDig/org.locationtech.udig.processingtoolbox/src/org/locationtech/udig/processingtoolbox/styler/AbstractFeatureStyleBuilder.java:143-144 | "Quantile", "quantile" and "QUANT-5" select Quantile |
| FeatureStyleBuilder.UnknownLabelIsJenks | uDig/org.locationtech.udig.processingtoolbox/src/org/locationtech/udig/processingtoolbox/styler/AbstractFeatureStyleBuilder.java:151-153 | an unrecognised label such as "foobar" selects Jenks |
| FeatureStyleBuilder.JenksSelectsItself | uDig/org.locationtech.udig.processingtoolbox/src/org/locationtech/udig/processingtoolbox/styler/AbstractFeatureStyleBuilder.java:141-142 | "Jenks" passed back in selects Jenks |
| FeatureStyleBuilder.StandardDeviationSelectsItself | uDig/org.locationtech.udig.processingtoolbox/src/org/locationtech/udig/processingtoolbox/styler/AbstractFeatureStyleBuilder.java:141-148 | "StandardDeviation" passed back in selects StandardDeviation |
| FeatureStyleBuilder.EqualIntervalSelectsQuantile | uDig/org.locationtech.udig.processingtoolbox/src/org/locationtech/udig/processingtoolbox/styler/AbstractFeatureStyleBuilder.java:143-146 | "EqualInterval" selects Quantile, because the "QU" test comes before the "EQ" test |
| FeatureStyleBuilder.UniqueIntervalSelectsQuantile | uDig/org.locationtech.udig.processingtoolbox/src/org/locationtech/udig/processingtoolbox/styler/AbstractFeatureStyleBuilder.java:143-150 | "UniqueInterval" selects Quantile, because the "QU" test comes before the "UN" test |
| Text.ToUpperIdempotent | uDig/org.locationtech.udig.processingtoolbox/src/org/locationtech/udig/processingtoolbox/styler/AbstractFeatureStyleBuilder.java:138 | upper-casing twice is upper-casing once |
| Text.ToUpperOfLower | uDig/org.locationtech.udig.processingtoolbox/src/org/locationtech/udig/processingtoolbox/styler/AbstractFeatureStyleBuilder.java:138 | lower-casing first does not change the upper-cased form |
| FeatureStyleBuilder.ClassBreaksAt | uDig/org.locationtech.udig.processingtoolbox/src/org/locationtech/udig/processingtoolbox/styler/AbstractFeatureStyleBuilder.java:158-168 | there is one more break than there are classes; break k is the minimum of class k, and the last break is the maximum of the last class |
| FeatureStyleBuilder.ClassBreaksNondecreasing | uDig/org.locationtech.udig.processingtoolbox/src/org/locationtech/udig/processingtoolbox/styler/AbstractFeatureStyleBuilder.java:158-168 | the breaks of a classifier whose classes are ordered ranges never decrease |
| FeatureStyleBuilder.GetClassBreaks | uDig/org.locationtech.udig.processingtoolbox/src/org/locationtech/udig/processingtoolbox/styler/AbstractFeatureStyleBuilder.java:158-168 | fails exactly when the classifier has no classes (the final getMax(size - 1) call); otherwise returns a fresh array holding exactly the class breaks |
| FeatureStyleBuilder.Appearance.constructor | uDig/org.locationtech.udig.processingtoolbox/src/org/locationtech/udig/processingtoolbox/styler/AbstractFeatureStyleBuilder.java:40-52 | default settings: line width 1, outline width 0.5, all three opacities 1, outline color (225, 225, 225), marker size 7 |
| FeatureStyleBuilder.Appearance.SetMarkerSize | uDig/org.locationtech.udig.processingtoolbox/src/org/locationtech/udig/processingtoolbox/styler/AbstractFeatureStyleBuilder.java:54-60 | the getter then returns the new marker size, and no other setting changes |
| FeatureStyleBuilder.Appearance.SetLineWidth | uDig/org.locationtech.udig.processingtoolbox/src/org/locationtech/udig/processingtoolbox/styler/AbstractFeatureStyleBuilder.java:62-68 | the getter then returns the new line width, and no other setting changes |
| FeatureStyleBuilder.Appearance.SetOutlineWidth | uDig/org.locationtech.udig.processingtoolbox/src/org/locationtech/udig/processingtoolbox/styler/AbstractFeatureStyleBuilder.java:70-76 | the getter then returns the new outline width, and no other setting changes |
| FeatureStyleBuilder.Appearance.SetLineOpacity | uDig/org.locationtech.udig.processingtoolbox/src/org/locationtech/udig/processingtoolbox/styler/AbstractFeatureStyleBuilder.java:78-84 | the getter then returns the new line opacity, and no other setting changes |
| FeatureStyleBuilder.Appearance.SetOutlineOpacity | uDig/org.locationtech.udig.processingtoolbox/src/org/locationtech/udig/processingtoolbox/styler/AbstractFeatureStyleBuilder.java:86-92 | the getter then returns the new outline opacity, and no other setting changes |
| FeatureStyleBuilder.Appearance.SetFillOpacity | uDig/org.locationtech.udig.processingtoolbox/src/org/locationtech/udig/processingtoolbox/styler/AbstractFeatureStyleBuilder.java:94-100 | the getter then returns the new fill opacity, and no other setting changes |
| FeatureStyleBuilder.Appearance.SetOutlineColor | uDig/org.locationtech.udig.processingtoolbox/src/org/locationtech/udig/processingtoolbox/styler/AbstractFeatureStyleBuilder.java:102-108 | the getter then returns the new outline color, and no other setting changes |
| GraduatedColor.ClampClasses | uDig/org.locationtech.udig.processingtoolbox/src/org/locationtech/udig/processingtoolbox/styler/GraduatedColorStyleBuilder.java:61-65 | the class count always lies in 3..12; counts already in range are kept, lower ones become 3 and higher ones 12 |
| GraduatedColor.ClassificationCallChoosesOverload | uDig/org.locationtech.udig.processingtoolbox/src/org/locationtech/udig/processingtoolbox/styler/GraduatedColorStyleBuilder.java:67-74 | the ratio to the normalizing attribute is classified exactly when that attribute is neither null nor empty, otherwise the raw attribute; in both cases with the dispatched function name and the given class count |
| GraduatedColor.PaletteName | uDig/org.locationtech.udig.processingtoolbox/src/org/locationtech/udig/processingtoolbox/styler/GraduatedColorStyleBuilder.java:78-80 | the palette name is never empty; a non-empty given name is kept, and a null or empty one becomes "OrRd" |
| GraduatedColor.Symbolize | uDig/org.locationtech.udig.processingtoolbox/src/org/locationtech/udig/processingtoolbox/styler/GraduatedColorStyleBuilder.java:107-137 | the symbolizer draws the features' shape, carries the class color and names the geometry attribute |
| GraduatedColor.SymbolizerSettings | uDig/org.locationtech.udig.processingtoolbox/src/org/locationtech/udig/processingtoolbox/styler/GraduatedColorStyleBuilder.java:108-137 | two settings give the same symbolizer exactly when they agree on the settings that shape uses: points use outline width and opacity, fill opacity and marker size, and do not depend on the outline color; lines use line width and opacity; polygons use outline color, width and opacity and fill opacity |
| GraduatedColor.SymbolizersDifferInColorOnly | uDig/org.locationtech.udig.processingtoolbox/src/org/locationtech/udig/processingtoolbox/styler/GraduatedColorStyleBuilder.java:105-137 | the symbolizers of two classes differ only in their class color |
| GraduatedColor.StyleFor | uDig/org.locationtech.udig.processingtoolbox/src/org/locationtech/udig/processingtoolbox/styler/GraduatedColorStyleBuilder.java:93-96 | there is no style exactly when the number of breaks minus one differs from the number of colors |
| GraduatedColor.StyleForRules | uDig/org.locationtech.udig.processingtoolbox/src/org/locationtech/udig/processingtoolbox/styler/GraduatedColorStyleBuilder.java:103-153 | with one color per class, the style holds one feature-type style with one rule per class, in class order; rule k filters on the closed range from break k to break k + 1, is named after those two bounds, and has exactly one symbolizer, the one for the features' shape in color k under the current settings |
| GraduatedColor.PointRuleSymbolizer | uDig/org.locationtech.udig.processingtoolbox/src/org/locationtech/udig/processingtoolbox/styler/GraduatedColorStyleBuilder.java:109-122 | for point features, rule k draws a "circle" mark outlined in white at the outline width and opacity, filled with color k at the fill opacity, in a graphic of the marker size, on the geometry attribute |
| GraduatedColor.LineRuleSymbolizer | uDig/org.locationtech.udig.processingtoolbox/src/org/locationtech/udig/processingtoolbox/styler/GraduatedColorStyleBuilder.java:123-128 | for line features, rule k strokes in color k at the line width and line opacity, on the geometry attribute |
| GraduatedColor.PolygonRuleSymbolizer | uDig/org.locationtech.udig.processingtoolbox/src/org/locationtech/udig/processingtoolbox/styler/GraduatedColorStyleBuilder.java:129-136 | for polygon features, rule k outlines in the outline color at the outline width and opacity and fills with color k at the fill opacity, on the geometry attribute |
| GraduatedColor.RulesShareAppearance | uDig/org.locationtech.udig.processingtoolbox/src/org/locationtech/udig/processingtoolbox/styler/GraduatedColorStyleBuilder.java:104-148 | recoloring the symbolizer of any rule with color k gives the symbolizer of rule k |
| GraduatedColor.RulesCoverRange | uDig/org.locationtech.udig.processingtoolbox/src/org/locationtech/udig/processingtoolbox/styler/GraduatedColorStyleBuilder.java:139-140 | every value from the first break to the last is accepted by the filter of some rule |
| GraduatedColor.RulesOverlapOnlyAtBreaks | uDig/org.locationtech.udig.processingtoolbox/src/org/locationtech/udig/processingtoolbox/styler/GraduatedColorStyleBuilder.java:139-140 | over non-decreasing breaks, a value accepted by two different rules is the upper bound of the earlier rule and the lower bound of the later one |
| GraduatedColor.ClassifiedStyleCoversClasses | uDig/org.locationtech.udig.processingtoolbox/src/org/locationtech/udig/processingtoolbox/styler/GraduatedColorStyleBuilder.java:76-88 | for a classifier and one color per class, the style has one rule per class, and every value from the first class's minimum to the last class's maximum falls under some rule |
| GraduatedColor.GraduatedStyleCases | uDig/org.locationtech.udig.processingtoolbox/src/org/locationtech/udig/processingtoolbox/styler/GraduatedColorStyleBuilder.java:59-89 | classification fails exactly when no ranged classifier results; the empty-classifier failure happens exactly when there are no classes; the palette failure happens exactly when the palette has no colors for that many classes; a success yields a style exactly when the palette supplies one color per class |
| GraduatedColor.GraduatedColorStyleBuilder.constructor | uDig/org.locationtech.udig.processingtoolbox/src/org/locationtech/udig/processingtoolbox/styler/GraduatedColorStyleBuilder.java:42-45 | a new builder has no normalizing attribute and the default appearance settings |
| GraduatedColor.GraduatedColorStyleBuilder.SetNormalProperty | uDig/org.locationtech.udig.processingtoolbox/src/org/locationtech/udig/processingtoolbox/styler/GraduatedColorStyleBuilder.java:47-53 | the getter then returns the new normalizing attribute; the appearance settings are unchanged |
| GraduatedColor.GraduatedColorStyleBuilder.Classify | uDig/org.locationtech.udig.processingtoolbox/src/org/locationtech/udig/processingtoolbox/styler/GraduatedColorStyleBuilder.java:61-74 | evaluates the classification call for the clamped class count: through the ratio overload exactly when a non-empty normalizing attribute is set, otherwise through the raw-attribute overload; the overloads are the two getClassifier methods of AbstractFeatureStyleBuilder.java at lines 110-131 |
| GraduatedColor.GraduatedColorStyleBuilder.CreateStyleFromBreaks | uDig/org.locationtech.udig.processingtoolbox/src/org/locationtech/udig/processingtoolbox/styler/GraduatedColorStyleBuilder.java:91-154 | the loop builds exactly the style of the breaks and colors under the current appearance settings (no style when the lengths disagree) |
| GraduatedColor.GraduatedColorStyleBuilder.CreateStyle | uDig/org.locationtech.udig.processingtoolbox/src/org/locationtech/udig/processingtoolbox/styler/GraduatedColorStyleBuilder.java:59-89 | the outcome is the classification of the clamped request, then the breaks, then the palette colors for one fewer than the number of breaks; the result is the style of those breaks and colors, or the failure where a step fails |

## Left out

- FeatureStyleBuilder.GetClassifier and FeatureStyleBuilder.GetNormalizedClassifier are abstract calls with no property of their own; what they promise is stated through `Classify`. GeoTools classification functions are not modelled: how Jenks, quantile and the other methods compute their classes is outside the model, and their evaluation is the `evaluate` parameter.
- The ratio expression from `ff.divide` is a value in the model; its floating-point evaluation belongs to `evaluate`.
- The ColorBrewer palette catalogue and `getColors` are the `brewer` parameter. An unknown palette, which makes `getColors` throw a NullPointerException, is the `PaletteNotFound` error.
- A classification result that is null, or that is not a ranged classifier (a ClassCastException at the cast), is the `ClassificationFailed` error. The NullPointerException that `getClassBreaks` then throws is folded into this error.
- The `(Double)` casts on `getMin`/`getMax` are not modelled: class bounds are reals.
- Double bounds are reals, so NaN and infinities are not modelled. Float settings are kept as their 32-bit patterns, because the builder only passes them through.
- `Double.toString` in rule names is the `format` parameter.
- FeatureStyleBuilder.GetFunctionName: the model's `Text.ToUpper` maps only the ASCII letters a..z, so Java's locale-dependent Unicode case mapping in `toUpperCase` is not modelled. Characters such as the long s, which Java upper-cases to "S", could change the dispatch there.
- `StringHelper.isNullOrEmpty` is taken to mean null or the empty string. StringHelper is not part of this model.
- The geometry descriptor lookup and `FeatureTypes.getSimpleShapeType` are not modelled. The feature type carries its geometry attribute name and its simple shape type (point, line string or polygon) directly.
- StyleFactory and FilterFactory object construction is not modelled, and neither are the other attributes of the default graphic and rule. Literal expressions are the literal values.
- Logging of the clamped class count and of the length mismatch is not modelled.
- Null feature collections, null arrays and a null property name are not modelled.
- GraduatedColor.GraduatedColorStyleBuilder.CreateStyle: in Java the three failure cases are exceptions, not returned values.
