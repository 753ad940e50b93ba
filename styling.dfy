/** The GeoTools and JDK values the styler reads and builds, as plain datatypes:
    colors, features and their schema, classification requests and classifiers,
    filters, symbolizers, rules and styles. */
module Styling {

  /** A Java `float`, kept as its IEEE 754 single-precision bit pattern.
      The styler passes widths, opacities and sizes through without computing with them. */
  datatype Float32 = Float32(bits: bv32)

  /** 1.0f, 0.5f and 7.0f. */
  const FLOAT_ONE: Float32 := Float32(0x3F80_0000)
  const FLOAT_HALF: Float32 := Float32(0x3F00_0000)
  const FLOAT_SEVEN: Float32 := Float32(0x40E0_0000)

  /** One 8-bit color channel. */
  type Channel = x: int | 0 <= x <= 255

  /** An opaque `java.awt.Color`. */
  datatype Color = Color(red: Channel, green: Channel, blue: Channel)

  /** `Color.WHITE`. */
  const WHITE: Color := Color(255, 255, 255)

  /** The three shape categories a feature type's geometry binding is reduced to. */
  datatype ShapeType = Point | LineString | Polygon

  /** A feature schema: the local name of its geometry attribute and its shape category. */
  datatype SimpleFeatureType = SimpleFeatureType(geometryName: string, shapeType: ShapeType)

  /** A feature: its numeric attribute values by name. */
  datatype Feature = Feature(attributes: map<string, real>)

  /** A feature collection and its schema. */
  datatype FeatureCollection = FeatureCollection(schema: SimpleFeatureType, features: seq<Feature>)

  /** A filter expression: an attribute, or the quotient of two expressions. */
  datatype Expression = PropertyName(name: string) | Divide(numerator: Expression, denominator: Expression)

  /** A classification function call `ff.function(name, expression, ff.literal(numClasses))`. */
  datatype ClassificationFunction = ClassificationFunction(name: string, expression: Expression, numClasses: int)

  /** One class of a ranged classifier. */
  datatype ClassSlot = ClassSlot(min: real, max: real)

  /** A ranged classifier: an ordered sequence of classes with a minimum and a maximum each. */
  datatype RangedClassifier = RangedClassifier(slots: seq<ClassSlot>) {

    function Size(): nat
    {
      |slots|
    }

    function GetMin(slot: nat): real
      requires slot < Size()
    {
      slots[slot].min
    }

    function GetMax(slot: nat): real
      requires slot < Size()
    {
      slots[slot].max
    }
  }

  /** `ff.between(ff.property(property), ff.literal(lower), ff.literal(upper))`. */
  datatype Filter = Between(property: string, lower: real, upper: real)

  /** A between filter accepts a value when it lies in the closed interval. */
  predicate Matches(filter: Filter, value: real)
  {
    filter.lower <= value <= filter.upper
  }

  datatype Stroke = Stroke(color: Color, width: Float32, opacity: Float32)

  datatype Fill = Fill(color: Color, opacity: Float32)

  /** A well-known mark (`"circle"` for `sf.getCircleMark()`) with its stroke and fill. */
  datatype Mark = Mark(wellKnownName: string, stroke: Stroke, fill: Fill)

  /** A graphic: its graphical symbols and its size. */
  datatype Graphic = Graphic(marks: seq<Mark>, size: Float32)

  datatype Symbolizer =
    | PointSymbolizer(graphic: Graphic, geometry: string)
    | LineSymbolizer(stroke: Stroke, geometry: string)
    | PolygonSymbolizer(stroke: Stroke, fill: Fill, geometry: string)

  /** A rule: its name (the legend label), its filter and its symbolizers. */
  datatype Rule = Rule(name: string, filter: Filter, symbolizers: seq<Symbolizer>)

  datatype FeatureTypeStyle = FeatureTypeStyle(rules: seq<Rule>)

  datatype Style = Style(featureTypeStyles: seq<FeatureTypeStyle>)

  /** What makes style creation throw: the classification function returned null, the
      classifier has no class (`getMax(-1)`), or the palette lookup returned null. */
  datatype Failure = ClassificationFailed | EmptyClassifier | PaletteNotFound
}
