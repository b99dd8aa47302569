/**
  XmlEncoder.encode: the save-file writer. It writes the XML declaration and a `<state>` element
  holding, in this order, a `<model>` block (scalar settings, each optional one only when it differs
  from its default; the heat boundary; the parts), a `<sensor>` block (the thermometers) and a
  `<view>` block (display settings and text boxes).

  `Encoding` is the specification, built block by block; `Encode` is the step-by-step writer that
  appends to a buffer as the source does, and is proved to produce `Encoding`. The lemmas state which
  fields appear, when, with which value, and in which order; `ReadModel`/`ReadView` read the
  settings back with the defaults for absent tags, and the round-trip lemmas close the loop.
*/
module Encoder {
  import opened Common
  import opened Xml

  /** The Model2D settings the encoder reads. */
  datatype ModelSettings = ModelSettings(
    lx: real,
    ly: real,
    timeStep: real,
    measurementInterval: int,
    viewUpdateInterval: int,
    sunny: bool,
    sunAngle: real,
    solarPowerDensity: real,
    solarRayCount: int,
    solarRaySpeed: real,
    photonEmissionInterval: int,
    convective: bool,
    backgroundConductivity: real,
    backgroundDensity: real,
    backgroundSpecificHeat: real,
    backgroundTemperature: real,
    backgroundViscosity: real,
    thermalBuoyancy: real,
    buoyancyApproximation: int)

  /** java.awt.Rectangle, in integer pixels. */
  datatype Rectangle = Rectangle(x: int, y: int, width: int, height: int)

  /** The View2D settings the encoder reads; text boxes are their toXml() output. */
  datatype ViewSettings = ViewSettings(
    grid: bool,
    ruler: bool,
    isotherm: bool,
    rainbow: bool,
    rainbowRectangle: Rectangle,
    minimumTemperature: real,
    maximumTemperature: real,
    velocity: bool,
    streamline: bool,
    graph: bool,
    clock: bool,
    smooth: bool,
    textBoxes: seq<string>)

  /** The physical constants of air that decide whether a background property is written. */
  datatype Air = Air(conductivity: real, density: real, specificHeat: real, viscosity: real)

  /**
    Everything encode() reads from the system: the settings, and the toXml() output of the heat
    boundary, of every part and of every thermometer, in list order.
  */
  datatype SavedState = SavedState(
    model: ModelSettings,
    boundary: string,
    parts: seq<string>,
    thermometers: seq<string>,
    view: ViewSettings)

  const Declaration: string := "<?xml version=\"1.0\" encoding=\"UTF-8\"?>\n"

  /** The sub-serialiser outputs `xs`, each followed by `suffix`, in order. */
  function EmbedAll(xs: seq<string>, suffix: string): (r: seq<Token>)
    ensures |r| == |xs|
    ensures forall i :: 0 <= i < |xs| ==> r[i] == Embedded(xs[i] + suffix)
  {
    if xs == [] then [] else EmbedAll(xs[..|xs| - 1], suffix) + [Embedded(xs[|xs| - 1] + suffix)]
  }

  function Suffixed(xs: seq<string>, suffix: string): (r: seq<string>)
    ensures |r| == |xs|
    ensures forall i :: 0 <= i < |xs| ==> r[i] == xs[i] + suffix
  {
    if xs == [] then [] else Suffixed(xs[..|xs| - 1], suffix) + [xs[|xs| - 1] + suffix]
  }

  // ---------------------------------------------------------------- specification

  /** The model size and the time settings, each written only when it differs from its default. */
  function SizeAndTiming(m: ModelSettings): seq<Token> {
    Opt(m.lx != 10.0, Field(ModelWidth, Real(m.lx), true))
    + Opt(m.ly != 10.0, Field(ModelHeight, Real(m.ly), true))
    + Opt(m.timeStep != 1.0, Field(Timestep, Real(m.timeStep), true))
    + Opt(m.measurementInterval != 500, Field(MeasurementInterval, Int(m.measurementInterval), true))
    + Opt(m.viewUpdateInterval != 100, Field(ViewupdateInterval, Int(m.viewUpdateInterval), true))
  }

  /** The sun: `sunny` only when it shines (written without a line break), then five settings always written. */
  function SolarFields(m: ModelSettings): seq<Token> {
    Opt(m.sunny, Field(Sunny, Bool(true), false))
    + [Field(SunAngle, Real(m.sunAngle), true)]
    + [Field(SolarPowerDensity, Real(m.solarPowerDensity), true)]
    + [Field(SolarRayCount, Int(m.solarRayCount), true)]
    + [Field(SolarRaySpeed, Real(m.solarRaySpeed), true)]
    + [Field(PhotonEmissionInterval, Int(m.photonEmissionInterval), true)]
  }

  /** Convection and the background medium: `convective` only when off, each background property only when it differs from air (temperature: from zero). */
  function ConvectionFields(m: ModelSettings, air: Air): seq<Token> {
    Opt(!m.convective, Field(Convective, Bool(false), true))
    + Opt(m.backgroundConductivity != air.conductivity, Field(BackgroundConductivity, Real(m.backgroundConductivity), true))
    + Opt(m.backgroundDensity != air.density, Field(BackgroundDensity, Real(m.backgroundDensity), true))
    + Opt(m.backgroundSpecificHeat != air.specificHeat, Field(BackgroundSpecificHeat, Real(m.backgroundSpecificHeat), true))
    + Opt(m.backgroundTemperature != 0.0, Field(BackgroundTemperature, Real(m.backgroundTemperature), true))
    + Opt(m.backgroundViscosity != air.viscosity, Field(BackgroundViscosity, Real(m.backgroundViscosity), true))
  }

  /** The buoyancy settings, always written. */
  function BuoyancyFields(m: ModelSettings): seq<Token> {
    [Field(ThermalBuoyancy, Real(m.thermalBuoyancy), true)]
    + [Field(BuoyancyApproximation, Int(m.buoyancyApproximation), true)]
  }
  /** The scalar model settings, in the order written; each `Opt` is one `if (...)` of the source. */
  function ModelScalars(m: ModelSettings, air: Air): seq<Token> {
    SizeAndTiming(m) + SolarFields(m) + ConvectionFields(m, air) + BuoyancyFields(m)
  }

  function StructureBlock(parts: seq<string>): seq<Token> {
    if parts == [] then []
    else [Markup("<structure>\n")] + EmbedAll(parts, "") + [Markup("</structure>\n")]
  }

  /** The heat boundary's output between its tags. */
  function BoundaryBlock(boundary: string): seq<Token> {
    [Markup("<boundary>\n")] + [Embedded(boundary)] + [Markup("</boundary>\n")]
  }

  /** The model block around the scalar settings `fields`: the heat boundary, then the parts. */
  function ModelBlock(fields: seq<Token>, boundary: string, parts: seq<string>): seq<Token> {
    [Markup("<model>\n")]
    + fields
    + BoundaryBlock(boundary)
    + StructureBlock(parts)
    + [Markup("</model>\n")]
  }

  function SensorBlock(thermometers: seq<string>): seq<Token> {
    [Markup("<sensor>\n")] + EmbedAll(thermometers, "\n") + [Markup("</sensor>\n")]
  }

  /** The grid, ruler, isotherm and rainbow layers, each written only when shown. */
  function LayerFlags(v: ViewSettings): seq<Token> {
    Opt(v.grid, Field(Grid, Bool(true), true))
    + Opt(v.ruler, Field(Ruler, Bool(true), true))
    + Opt(v.isotherm, Field(Isotherm, Bool(true), true))
    + Opt(v.rainbow, Field(Rainbow, Bool(true), true))
  }

  /** The rainbow rectangle: position always, width and height only when positive; no line breaks. */
  function RainbowBounds(v: ViewSettings): seq<Token> {
    [Field(RainbowX, Int(v.rainbowRectangle.x), false)]
    + [Field(RainbowY, Int(v.rainbowRectangle.y), false)]
    + Opt(v.rainbowRectangle.width > 0, Field(RainbowW, Int(v.rainbowRectangle.width), false))
    + Opt(v.rainbowRectangle.height > 0, Field(RainbowH, Int(v.rainbowRectangle.height), false))
  }

  /** The temperature range of the colour scale, always written. */
  function TemperatureScale(v: ViewSettings): seq<Token> {
    [Field(MinimumTemperature, Real(v.minimumTemperature), true)]
    + [Field(MaximumTemperature, Real(v.maximumTemperature), true)]
  }

  /** Velocity, streamline and graph only when shown; clock and smoothing only when off. */
  function DisplayFlags(v: ViewSettings): seq<Token> {
    Opt(v.velocity, Field(Velocity, Bool(true), true))
    + Opt(v.streamline, Field(Streamline, Bool(true), true))
    + Opt(v.graph, Field(Graph, Bool(true), true))
    + Opt(!v.clock, Field(Clock, Bool(false), true))
    + Opt(!v.smooth, Field(Smooth, Bool(false), true))
  }
  /** The display settings, in the order written. */
  function ViewFields(v: ViewSettings): seq<Token> {
    LayerFlags(v) + RainbowBounds(v) + TemperatureScale(v) + DisplayFlags(v)
  }

  /** The view block around the display settings `fields`, then the text boxes. */
  function ViewBlock(fields: seq<Token>, textBoxes: seq<string>): seq<Token> {
    [Markup("<view>\n")] + fields + EmbedAll(textBoxes, "") + [Markup("</view>\n")]
  }

  /** The save file around the model's and the view's fields. */
  function Document(modelFields: seq<Token>, boundary: string, parts: seq<string>, thermometers: seq<string>,
                    viewFields: seq<Token>, textBoxes: seq<string>): seq<Token> {
    [Markup(Declaration)] + [Markup("<state>\n")]
    + ModelBlock(modelFields, boundary, parts)
    + SensorBlock(thermometers)
    + ViewBlock(viewFields, textBoxes)
    + [Markup("</state>\n")]
  }

  /** The document encode() produces. */
  function Encoding(s: SavedState, air: Air): seq<Token> {
    Document(ModelScalars(s.model, air), s.boundary, s.parts, s.thermometers, ViewFields(s.view), s.view.textBoxes)
  }

  // ---------------------------------------------------------------- the writer

  /**
    encode(): writes the declaration, the three blocks in order, and closes the document.
    Each block is collected by its own writer below before it is appended, which writes the same
    characters in the same order as the source's single buffer.
  */
  method Encode(s: SavedState, air: Air) returns (sb: seq<Token>)
    ensures sb == Encoding(s, air)
  {
    sb := [Markup(Declaration)] + [Markup("<state>\n")];
    var block := EncodeModel(s, air);
    sb := sb + block;
    block := EncodeSensors(s.thermometers);
    sb := sb + block;
    block := EncodeView(s.view);
    sb := sb + block;
    sb := sb + [Markup("</state>\n")];
  }

  /** The model properties of encode(): scalar settings, heat boundary, and the parts in list order. */
  method EncodeModel(s: SavedState, air: Air) returns (block: seq<Token>)
    ensures block == ModelBlock(ModelScalars(s.model, air), s.boundary, s.parts)
  {
    var fields := EncodeModelScalars(s.model, air);
    block := [Markup("<model>\n")] + fields;
    block := block + [Markup("<boundary>\n")] + [Embedded(s.boundary)] + [Markup("</boundary>\n")];
    assert block == [Markup("<model>\n")] + fields + BoundaryBlock(s.boundary);
    var structure: seq<Token> := [];
    if s.parts != [] {
      var list: seq<Token> := [];
      for i := 0 to |s.parts|
        invariant list == EmbedAll(s.parts[..i], "")
      {
        assert s.parts[..i + 1][..i] == s.parts[..i] && s.parts[i] + "" == s.parts[i];
        list := list + [Embedded(s.parts[i])];
      }
      assert s.parts[..|s.parts|] == s.parts;
      structure := [Markup("<structure>\n")] + list + [Markup("</structure>\n")];
    }
    assert structure == StructureBlock(s.parts);
    block := block + structure;
    block := block + [Markup("</model>\n")];
  }

  /** The sensor part of encode(): every thermometer's toXml() followed by a newline. */
  method EncodeSensors(thermometers: seq<string>) returns (block: seq<Token>)
    ensures block == SensorBlock(thermometers)
  {
    var list: seq<Token> := [];
    for i := 0 to |thermometers|
      invariant list == EmbedAll(thermometers[..i], "\n")
    {
      assert thermometers[..i + 1][..i] == thermometers[..i];
      list := list + [Embedded(thermometers[i] + "\n")];
    }
    assert thermometers[..|thermometers|] == thermometers;
    block := [Markup("<sensor>\n")] + list + [Markup("</sensor>\n")];
  }

  /** The view properties of encode(), then the text boxes in index order. */
  method EncodeView(v: ViewSettings) returns (block: seq<Token>)
    ensures block == ViewBlock(ViewFields(v), v.textBoxes)
  {
    var fields := EncodeViewFields(v);
    var boxes: seq<Token> := [];
    var n := |v.textBoxes|;
    if n > 0 {
      for i := 0 to n
        invariant boxes == EmbedAll(v.textBoxes[..i], "")
      {
        assert v.textBoxes[..i + 1][..i] == v.textBoxes[..i] && v.textBoxes[i] + "" == v.textBoxes[i];
        boxes := boxes + [Embedded(v.textBoxes[i])];
      }
      assert v.textBoxes[..n] == v.textBoxes;
    }
    block := [Markup("<view>\n")] + fields + boxes + [Markup("</view>\n")];
  }

  /** The scalar model settings of encode(); `x := x + Opt(c, t)` is the source's `if (c) sb.append(t)`. */
  method EncodeModelScalars(m: ModelSettings, air: Air) returns (fields: seq<Token>)
    ensures fields == ModelScalars(m, air)
  {
    var sizes := Opt(m.lx != 10.0, Field(ModelWidth, Real(m.lx), true));
    sizes := sizes + Opt(m.ly != 10.0, Field(ModelHeight, Real(m.ly), true));
    sizes := sizes + Opt(m.timeStep != 1.0, Field(Timestep, Real(m.timeStep), true));
    sizes := sizes + Opt(m.measurementInterval != 500, Field(MeasurementInterval, Int(m.measurementInterval), true));
    sizes := sizes + Opt(m.viewUpdateInterval != 100, Field(ViewupdateInterval, Int(m.viewUpdateInterval), true));
    assert sizes == SizeAndTiming(m);
    var solar := Opt(m.sunny, Field(Sunny, Bool(true), false));
    solar := solar + [Field(SunAngle, Real(m.sunAngle), true)];
    solar := solar + [Field(SolarPowerDensity, Real(m.solarPowerDensity), true)];
    solar := solar + [Field(SolarRayCount, Int(m.solarRayCount), true)];
    solar := solar + [Field(SolarRaySpeed, Real(m.solarRaySpeed), true)];
    solar := solar + [Field(PhotonEmissionInterval, Int(m.photonEmissionInterval), true)];
    assert solar == SolarFields(m);
    var convection := Opt(!m.convective, Field(Convective, Bool(false), true));
    convection := convection + Opt(m.backgroundConductivity != air.conductivity, Field(BackgroundConductivity, Real(m.backgroundConductivity), true));
    convection := convection + Opt(m.backgroundDensity != air.density, Field(BackgroundDensity, Real(m.backgroundDensity), true));
    convection := convection + Opt(m.backgroundSpecificHeat != air.specificHeat, Field(BackgroundSpecificHeat, Real(m.backgroundSpecificHeat), true));
    convection := convection + Opt(m.backgroundTemperature != 0.0, Field(BackgroundTemperature, Real(m.backgroundTemperature), true));
    convection := convection + Opt(m.backgroundViscosity != air.viscosity, Field(BackgroundViscosity, Real(m.backgroundViscosity), true));
    assert convection == ConvectionFields(m, air);
    var buoyancy := [Field(ThermalBuoyancy, Real(m.thermalBuoyancy), true)];
    buoyancy := buoyancy + [Field(BuoyancyApproximation, Int(m.buoyancyApproximation), true)];
    assert buoyancy == BuoyancyFields(m);
    fields := sizes + solar + convection + buoyancy;
  }

  /** The display settings of encode(). */
  method EncodeViewFields(v: ViewSettings) returns (fields: seq<Token>)
    ensures fields == ViewFields(v)
  {
    var layers := Opt(v.grid, Field(Grid, Bool(true), true));
    layers := layers + Opt(v.ruler, Field(Ruler, Bool(true), true));
    layers := layers + Opt(v.isotherm, Field(Isotherm, Bool(true), true));
    layers := layers + Opt(v.rainbow, Field(Rainbow, Bool(true), true));
    assert layers == LayerFlags(v);
    var rainbow := [Field(RainbowX, Int(v.rainbowRectangle.x), false)];
    rainbow := rainbow + [Field(RainbowY, Int(v.rainbowRectangle.y), false)];
    rainbow := rainbow + Opt(v.rainbowRectangle.width > 0, Field(RainbowW, Int(v.rainbowRectangle.width), false));
    rainbow := rainbow + Opt(v.rainbowRectangle.height > 0, Field(RainbowH, Int(v.rainbowRectangle.height), false));
    assert rainbow == RainbowBounds(v);
    var scale := [Field(MinimumTemperature, Real(v.minimumTemperature), true)];
    scale := scale + [Field(MaximumTemperature, Real(v.maximumTemperature), true)];
    assert scale == TemperatureScale(v);
    var display := Opt(v.velocity, Field(Velocity, Bool(true), true));
    display := display + Opt(v.streamline, Field(Streamline, Bool(true), true));
    display := display + Opt(v.graph, Field(Graph, Bool(true), true));
    display := display + Opt(!v.clock, Field(Clock, Bool(false), true));
    display := display + Opt(!v.smooth, Field(Smooth, Bool(false), true));
    assert display == DisplayFlags(v);
    fields := layers + rainbow + scale + display;
  }

  // ---------------------------------------------------------------- what the document contains

  /** The sub-serialiser outputs hold no field and no markup of their own. */
  lemma {:induction false} EmbedAllProjections(xs: seq<string>, suffix: string, tag: Tag, lo: int)
    ensures Outline(EmbedAll(xs, suffix)) == []
    ensures Embeds(EmbedAll(xs, suffix)) == Suffixed(xs, suffix)
    ensures Lookup(EmbedAll(xs, suffix), tag) == None
    ensures InTagOrder(EmbedAll(xs, suffix), lo) && LastTag(EmbedAll(xs, suffix), lo) == lo
  {
    FieldFreeProjections(EmbedAll(xs, suffix), tag, lo);
    if xs != [] {
      var init := xs[..|xs| - 1];
      var last := [Embedded(xs[|xs| - 1] + suffix)];
      EmbedAllProjections(init, suffix, tag, lo);
      OutlineAppend(EmbedAll(init, suffix), last);
      EmbedsAppend(EmbedAll(init, suffix), last);
    }
  }

  /** Outputs joined with nothing after them are the outputs themselves. */
  lemma SuffixedEmpty(xs: seq<string>)
    ensures Suffixed(xs, "") == xs
  {
    var r := Suffixed(xs, "");
    forall i | 0 <= i < |xs| ensures r[i] == xs[i] {
      assert xs[i] + "" == xs[i];
    }
  }

  /** The projections of a concatenation. */
  lemma Split(a: seq<Token>, b: seq<Token>, tag: Tag, lo: int)
    ensures Lookup(a + b, tag) == if Lookup(a, tag).Some? then Lookup(a, tag) else Lookup(b, tag)
    ensures Outline(a + b) == Outline(a) + Outline(b)
    ensures Embeds(a + b) == Embeds(a) + Embeds(b)
    ensures InTagOrder(a + b, lo) <==> InTagOrder(a, lo) && InTagOrder(b, LastTag(a, lo))
    ensures LastTag(a + b, lo) == LastTag(b, LastTag(a, lo))
  {
    LookupAppend(a, b, tag);
    OutlineAppend(a, b);
    EmbedsAppend(a, b);
    InTagOrderAppend(a, b, lo);
  }

  // ---------------------------------------------------------------- the omission tables

  /*
    One row per setting, in the order written: its tag, the value written, whether a line break
    follows, and the condition under which encode() writes it. Each group's lemma shows that the
    writer's group is exactly the rows the table marks as written.
  */

  function SizeRows(m: ModelSettings): seq<Slot> {
    [ Slot(ModelWidth, Real(m.lx), true, m.lx != 10.0),
      Slot(ModelHeight, Real(m.ly), true, m.ly != 10.0),
      Slot(Timestep, Real(m.timeStep), true, m.timeStep != 1.0),
      Slot(MeasurementInterval, Int(m.measurementInterval), true, m.measurementInterval != 500),
      Slot(ViewupdateInterval, Int(m.viewUpdateInterval), true, m.viewUpdateInterval != 100) ]
  }

  lemma SizeAndTimingTable(m: ModelSettings)
    ensures SizeAndTiming(m) == Emit(SizeRows(m))
  {
    Emit5(
      Slot(ModelWidth, Real(m.lx), true, m.lx != 10.0),
      Slot(ModelHeight, Real(m.ly), true, m.ly != 10.0),
      Slot(Timestep, Real(m.timeStep), true, m.timeStep != 1.0),
      Slot(MeasurementInterval, Int(m.measurementInterval), true, m.measurementInterval != 500),
      Slot(ViewupdateInterval, Int(m.viewUpdateInterval), true, m.viewUpdateInterval != 100));
  }

  function SolarRows(m: ModelSettings): seq<Slot> {
    [ Slot(Sunny, Bool(true), false, m.sunny),
      Slot(SunAngle, Real(m.sunAngle), true, true),
      Slot(SolarPowerDensity, Real(m.solarPowerDensity), true, true),
      Slot(SolarRayCount, Int(m.solarRayCount), true, true),
      Slot(SolarRaySpeed, Real(m.solarRaySpeed), true, true),
      Slot(PhotonEmissionInterval, Int(m.photonEmissionInterval), true, true) ]
  }

  lemma SolarFieldsTable(m: ModelSettings)
    ensures SolarFields(m) == Emit(SolarRows(m))
  {
    Emit6(
      Slot(Sunny, Bool(true), false, m.sunny),
      Slot(SunAngle, Real(m.sunAngle), true, true),
      Slot(SolarPowerDensity, Real(m.solarPowerDensity), true, true),
      Slot(SolarRayCount, Int(m.solarRayCount), true, true),
      Slot(SolarRaySpeed, Real(m.solarRaySpeed), true, true),
      Slot(PhotonEmissionInterval, Int(m.photonEmissionInterval), true, true));
  }

  function ConvectionRows(m: ModelSettings, air: Air): seq<Slot> {
    [ Slot(Convective, Bool(false), true, !m.convective),
      Slot(BackgroundConductivity, Real(m.backgroundConductivity), true, m.backgroundConductivity != air.conductivity),
      Slot(BackgroundDensity, Real(m.backgroundDensity), true, m.backgroundDensity != air.density),
      Slot(BackgroundSpecificHeat, Real(m.backgroundSpecificHeat), true, m.backgroundSpecificHeat != air.specificHeat),
      Slot(BackgroundTemperature, Real(m.backgroundTemperature), true, m.backgroundTemperature != 0.0),
      Slot(BackgroundViscosity, Real(m.backgroundViscosity), true, m.backgroundViscosity != air.viscosity) ]
  }

  lemma ConvectionFieldsTable(m: ModelSettings, air: Air)
    ensures ConvectionFields(m, air) == Emit(ConvectionRows(m, air))
  {
    Emit6(
      Slot(Convective, Bool(false), true, !m.convective),
      Slot(BackgroundConductivity, Real(m.backgroundConductivity), true, m.backgroundConductivity != air.conductivity),
      Slot(BackgroundDensity, Real(m.backgroundDensity), true, m.backgroundDensity != air.density),
      Slot(BackgroundSpecificHeat, Real(m.backgroundSpecificHeat), true, m.backgroundSpecificHeat != air.specificHeat),
      Slot(BackgroundTemperature, Real(m.backgroundTemperature), true, m.backgroundTemperature != 0.0),
      Slot(BackgroundViscosity, Real(m.backgroundViscosity), true, m.backgroundViscosity != air.viscosity));
  }

  function BuoyancyRows(m: ModelSettings): seq<Slot> {
    [ Slot(ThermalBuoyancy, Real(m.thermalBuoyancy), true, true),
      Slot(BuoyancyApproximation, Int(m.buoyancyApproximation), true, true) ]
  }

  lemma BuoyancyFieldsTable(m: ModelSettings)
    ensures BuoyancyFields(m) == Emit(BuoyancyRows(m))
  {
    Emit2(
      Slot(ThermalBuoyancy, Real(m.thermalBuoyancy), true, true),
      Slot(BuoyancyApproximation, Int(m.buoyancyApproximation), true, true));
  }

  /** The omission table of the model settings: one row for each of the tags 0 to 18. */
  function ModelRows(m: ModelSettings, air: Air): seq<Slot> {
    SizeRows(m) + SolarRows(m) + ConvectionRows(m, air) + BuoyancyRows(m)
  }

  function LayerRows(v: ViewSettings): seq<Slot> {
    [ Slot(Grid, Bool(true), true, v.grid),
      Slot(Ruler, Bool(true), true, v.ruler),
      Slot(Isotherm, Bool(true), true, v.isotherm),
      Slot(Rainbow, Bool(true), true, v.rainbow) ]
  }

  lemma LayerFlagsTable(v: ViewSettings)
    ensures LayerFlags(v) == Emit(LayerRows(v))
  {
    Emit4(
      Slot(Grid, Bool(true), true, v.grid),
      Slot(Ruler, Bool(true), true, v.ruler),
      Slot(Isotherm, Bool(true), true, v.isotherm),
      Slot(Rainbow, Bool(true), true, v.rainbow));
  }

  function RainbowRows(v: ViewSettings): seq<Slot> {
    [ Slot(RainbowX, Int(v.rainbowRectangle.x), false, true),
      Slot(RainbowY, Int(v.rainbowRectangle.y), false, true),
      Slot(RainbowW, Int(v.rainbowRectangle.width), false, v.rainbowRectangle.width > 0),
      Slot(RainbowH, Int(v.rainbowRectangle.height), false, v.rainbowRectangle.height > 0) ]
  }

  lemma RainbowBoundsTable(v: ViewSettings)
    ensures RainbowBounds(v) == Emit(RainbowRows(v))
  {
    Emit4(
      Slot(RainbowX, Int(v.rainbowRectangle.x), false, true),
      Slot(RainbowY, Int(v.rainbowRectangle.y), false, true),
      Slot(RainbowW, Int(v.rainbowRectangle.width), false, v.rainbowRectangle.width > 0),
      Slot(RainbowH, Int(v.rainbowRectangle.height), false, v.rainbowRectangle.height > 0));
  }

  function ScaleRows(v: ViewSettings): seq<Slot> {
    [ Slot(MinimumTemperature, Real(v.minimumTemperature), true, true),
      Slot(MaximumTemperature, Real(v.maximumTemperature), true, true) ]
  }

  lemma TemperatureScaleTable(v: ViewSettings)
    ensures TemperatureScale(v) == Emit(ScaleRows(v))
  {
    Emit2(
      Slot(MinimumTemperature, Real(v.minimumTemperature), true, true),
      Slot(MaximumTemperature, Real(v.maximumTemperature), true, true));
  }

  function DisplayRows(v: ViewSettings): seq<Slot> {
    [ Slot(Velocity, Bool(true), true, v.velocity),
      Slot(Streamline, Bool(true), true, v.streamline),
      Slot(Graph, Bool(true), true, v.graph),
      Slot(Clock, Bool(false), true, !v.clock),
      Slot(Smooth, Bool(false), true, !v.smooth) ]
  }

  lemma DisplayFlagsTable(v: ViewSettings)
    ensures DisplayFlags(v) == Emit(DisplayRows(v))
  {
    Emit5(
      Slot(Velocity, Bool(true), true, v.velocity),
      Slot(Streamline, Bool(true), true, v.streamline),
      Slot(Graph, Bool(true), true, v.graph),
      Slot(Clock, Bool(false), true, !v.clock),
      Slot(Smooth, Bool(false), true, !v.smooth));
  }

  /** The omission table of the view settings: one row for each of the tags 19 to 33. */
  function ViewRows(v: ViewSettings): seq<Slot> {
    LayerRows(v) + RainbowRows(v) + ScaleRows(v) + DisplayRows(v)
  }

  /** The model settings written are the written rows of the model table, whose rows are the tags 0 to 18 in order. */
  lemma ModelScalarsTable(m: ModelSettings, air: Air)
    ensures ModelScalars(m, air) == Emit(ModelRows(m, air))
  {
    var a, b, c, d := SizeRows(m), SolarRows(m), ConvectionRows(m, air), BuoyancyRows(m);
    SizeAndTimingTable(m);
    SolarFieldsTable(m);
    ConvectionFieldsTable(m, air);
    BuoyancyFieldsTable(m);
    EmitAppend(a, b);
    EmitAppend(a + b, c);
    EmitAppend(a + b + c, d);
  }

  /** The rows of the table carry the tags 0 to 18, in order. */
  lemma ModelRowsShape(m: ModelSettings, air: Air)
    ensures |ModelRows(m, air)| == 19 && Consecutive(ModelRows(m, air), 0)
  {
    var a, b, c, d := SizeRows(m), SolarRows(m), ConvectionRows(m, air), BuoyancyRows(m);
    ConsecutiveAppend(a, b, 0);
    ConsecutiveAppend(a + b, c, 0);
    ConsecutiveAppend(a + b + c, d, 0);
  }

  /** The view settings written are the written rows of the view table, whose rows are the tags 19 to 33 in order. */
  lemma ViewFieldsTable(v: ViewSettings)
    ensures ViewFields(v) == Emit(ViewRows(v))
  {
    var a, b, c, d := LayerRows(v), RainbowRows(v), ScaleRows(v), DisplayRows(v);
    LayerFlagsTable(v);
    RainbowBoundsTable(v);
    TemperatureScaleTable(v);
    DisplayFlagsTable(v);
    EmitAppend(a, b);
    EmitAppend(a + b, c);
    EmitAppend(a + b + c, d);
  }

  /** The rows of the table carry the tags 19 to 33, in order. */
  lemma ViewRowsShape(v: ViewSettings)
    ensures |ViewRows(v)| == 15 && Consecutive(ViewRows(v), 19)
  {
    var a, b, c, d := LayerRows(v), RainbowRows(v), ScaleRows(v), DisplayRows(v);
    ConsecutiveAppend(a, b, 19);
    ConsecutiveAppend(a + b, c, 19);
    ConsecutiveAppend(a + b + c, d, 19);
  }

  // ---------------------------------------------------------------- the blocks

  /** The structure block's markup: present exactly when there are parts. */
  function StructureOutline(parts: seq<string>): (r: seq<string>)
    ensures r == [] <==> parts == []
  {
    if parts == [] then [] else ["<structure>\n", "</structure>\n"]
  }

  /** The structure block holds no field, its markup is present iff there are parts, and it carries every part's output. */
  lemma StructureProjections(parts: seq<string>, tag: Tag, lo: int)
    ensures Lookup(StructureBlock(parts), tag) == None
    ensures InTagOrder(StructureBlock(parts), lo) && LastTag(StructureBlock(parts), lo) == lo
    ensures Outline(StructureBlock(parts)) == StructureOutline(parts)
    ensures Embeds(StructureBlock(parts)) == parts
  {
    if parts != [] {
      var open, body, close := [Markup("<structure>\n")], EmbedAll(parts, ""), [Markup("</structure>\n")];
      Single(open[0], tag, lo);
      Single(close[0], tag, lo);
      EmbedAllProjections(parts, "", tag, lo);
      SuffixedEmpty(parts);
      Split(open, body, tag, lo);
      Split(open + body, close, tag, lo);
    }
  }

  /** The boundary block holds no field; its only embedded output is the boundary's. */
  lemma BoundaryProjections(boundary: string, tag: Tag, lo: int)
    ensures Lookup(BoundaryBlock(boundary), tag) == None
    ensures InTagOrder(BoundaryBlock(boundary), lo) && LastTag(BoundaryBlock(boundary), lo) == lo
    ensures Outline(BoundaryBlock(boundary)) == ["<boundary>\n", "</boundary>\n"]
    ensures Embeds(BoundaryBlock(boundary)) == [boundary]
  {
    var a, b, c := [Markup("<boundary>\n")], [Embedded(boundary)], [Markup("</boundary>\n")];
    Single(a[0], tag, lo);
    Single(b[0], tag, lo);
    Single(c[0], tag, lo);
    Split(a, b, tag, lo);
    Split(a + b, c, tag, lo);
  }

  /** The fields of the model block are `fields`, whatever the boundary and the parts. */
  lemma ModelBlockFields(fields: seq<Token>, boundary: string, parts: seq<string>, tag: Tag, lo: int)
    ensures Lookup(ModelBlock(fields, boundary, parts), tag) == Lookup(fields, tag)
    ensures InTagOrder(ModelBlock(fields, boundary, parts), lo) == InTagOrder(fields, lo)
    ensures LastTag(ModelBlock(fields, boundary, parts), lo) == LastTag(fields, lo)
  {
    var a, b, st, c := [Markup("<model>\n")], BoundaryBlock(boundary), StructureBlock(parts), [Markup("</model>\n")];
    var l := LastTag(fields, lo);
    Single(a[0], tag, lo);
    Single(c[0], tag, l);
    BoundaryProjections(boundary, tag, l);
    StructureProjections(parts, tag, l);
    LookupAppend(a, fields, tag);
    InTagOrderAppend(a, fields, lo);
    LookupAppend(a + fields, b, tag);
    InTagOrderAppend(a + fields, b, lo);
    LookupAppend(a + fields + b, st, tag);
    InTagOrderAppend(a + fields + b, st, lo);
    LookupAppend(a + fields + b + st, c, tag);
    InTagOrderAppend(a + fields + b + st, c, lo);
  }

  /** The markup of the model block is fixed, with the structure tags iff there are parts. */
  lemma ModelBlockOutline(fields: seq<Token>, boundary: string, parts: seq<string>)
    requires Outline(fields) == []
    ensures Outline(ModelBlock(fields, boundary, parts)) == ModelOutline(parts)
  {
    var a, b, st, c := [Markup("<model>\n")], BoundaryBlock(boundary), StructureBlock(parts), [Markup("</model>\n")];
    Single(a[0], ModelWidth, 0);
    Single(c[0], ModelWidth, 0);
    BoundaryProjections(boundary, ModelWidth, 0);
    StructureProjections(parts, ModelWidth, 0);
    OutlineAppend(a, fields);
    OutlineAppend(a + fields, b);
    OutlineAppend(a + fields + b, st);
    OutlineAppend(a + fields + b + st, c);
  }

  /** The model block embeds the boundary's output, then every part's, in list order. */
  lemma ModelBlockEmbeds(fields: seq<Token>, boundary: string, parts: seq<string>)
    requires Embeds(fields) == []
    ensures Embeds(ModelBlock(fields, boundary, parts)) == [boundary] + parts
  {
    var a, b, st, c := [Markup("<model>\n")], BoundaryBlock(boundary), StructureBlock(parts), [Markup("</model>\n")];
    Single(a[0], ModelWidth, 0);
    Single(c[0], ModelWidth, 0);
    BoundaryProjections(boundary, ModelWidth, 0);
    StructureProjections(parts, ModelWidth, 0);
    EmbedsAppend(a, fields);
    assert Embeds(a + fields) == [];
    EmbedsAppend(a + fields, b);
    assert Embeds(a + fields + b) == [boundary];
    EmbedsAppend(a + fields + b, st);
    assert Embeds(a + fields + b + st) == [boundary] + parts;
    EmbedsAppend(a + fields + b + st, c);
    assert ModelBlock(fields, boundary, parts) == a + fields + b + st + c;
  }

  /** The sensor block holds no field; between its two tags come the thermometers' outputs, each with its newline. */
  lemma SensorBlockProjections(thermometers: seq<string>, tag: Tag, lo: int)
    ensures Lookup(SensorBlock(thermometers), tag) == None
    ensures InTagOrder(SensorBlock(thermometers), lo) && LastTag(SensorBlock(thermometers), lo) == lo
    ensures Outline(SensorBlock(thermometers)) == ["<sensor>\n", "</sensor>\n"]
    ensures Embeds(SensorBlock(thermometers)) == Suffixed(thermometers, "\n")
  {
    var open, body, close := [Markup("<sensor>\n")], EmbedAll(thermometers, "\n"), [Markup("</sensor>\n")];
    Single(open[0], tag, lo);
    Single(close[0], tag, lo);
    EmbedAllProjections(thermometers, "\n", tag, lo);
    Split(open, body, tag, lo);
    Split(open + body, close, tag, lo);
  }

  /** The fields of the view block are `fields`, whatever the text boxes. */
  lemma ViewBlockFields(fields: seq<Token>, textBoxes: seq<string>, tag: Tag, lo: int)
    ensures Lookup(ViewBlock(fields, textBoxes), tag) == Lookup(fields, tag)
    ensures InTagOrder(ViewBlock(fields, textBoxes), lo) == InTagOrder(fields, lo)
    ensures LastTag(ViewBlock(fields, textBoxes), lo) == LastTag(fields, lo)
  {
    var open, boxes, close := [Markup("<view>\n")], EmbedAll(textBoxes, ""), [Markup("</view>\n")];
    var l := LastTag(fields, lo);
    Single(open[0], tag, lo);
    Single(close[0], tag, l);
    EmbedAllProjections(textBoxes, "", tag, l);
    LookupAppend(open, fields, tag);
    InTagOrderAppend(open, fields, lo);
    LookupAppend(open + fields, boxes, tag);
    InTagOrderAppend(open + fields, boxes, lo);
    LookupAppend(open + fields + boxes, close, tag);
    InTagOrderAppend(open + fields + boxes, close, lo);
  }

  /** The view block's markup is its two tags, and it embeds the text boxes' outputs in index order. */
  lemma ViewBlockMarkup(fields: seq<Token>, textBoxes: seq<string>)
    requires Outline(fields) == [] && Embeds(fields) == []
    ensures Outline(ViewBlock(fields, textBoxes)) == ["<view>\n", "</view>\n"]
    ensures Embeds(ViewBlock(fields, textBoxes)) == textBoxes
  {
    var open, boxes, close := [Markup("<view>\n")], EmbedAll(textBoxes, ""), [Markup("</view>\n")];
    Single(open[0], ModelWidth, 0);
    Single(close[0], ModelWidth, 0);
    EmbedAllProjections(textBoxes, "", ModelWidth, 0);
    SuffixedEmpty(textBoxes);
    OutlineAppend(open, fields);
    EmbedsAppend(open, fields);
    OutlineAppend(open + fields, boxes);
    EmbedsAppend(open + fields, boxes);
    OutlineAppend(open + fields + boxes, close);
    EmbedsAppend(open + fields + boxes, close);
  }

  /** The scalar model settings: what each tag holds is the model table's row, in tag order below 19, fields only. */
  lemma ModelScalarsProjections(m: ModelSettings, air: Air, tag: Tag, lo: int)
    requires lo < 0
    ensures Lookup(ModelScalars(m, air), tag) == RowValue(ModelRows(m, air), 0, tag)
    ensures InTagOrder(ModelScalars(m, air), lo) && LastTag(ModelScalars(m, air), lo) < 19
    ensures Outline(ModelScalars(m, air)) == [] && Embeds(ModelScalars(m, air)) == []
  {
    ModelScalarsTable(m, air);
    ModelRowsShape(m, air);
    EmitLookup(ModelRows(m, air), 0, tag);
    EmitInTagOrder(ModelRows(m, air), 0, lo);
    EmitFieldsOnly(ModelRows(m, air));
  }

  /** The display settings: what each tag holds is the view table's row, in tag order from 19 to 33, fields only. */
  lemma ViewFieldsProjections(v: ViewSettings, tag: Tag, lo: int)
    requires lo < 19
    ensures Lookup(ViewFields(v), tag) == RowValue(ViewRows(v), 19, tag)
    ensures InTagOrder(ViewFields(v), lo) && LastTag(ViewFields(v), lo) < 34
    ensures Outline(ViewFields(v)) == [] && Embeds(ViewFields(v)) == []
  {
    ViewFieldsTable(v);
    ViewRowsShape(v);
    EmitLookup(ViewRows(v), 19, tag);
    EmitInTagOrder(ViewRows(v), 19, lo);
    EmitFieldsOnly(ViewRows(v));
  }

  // ---------------------------------------------------------------- what the document contains

  /** A document's fields are its model fields, then its view fields. */
  lemma DocumentFields(mf: seq<Token>, boundary: string, parts: seq<string>, thermometers: seq<string>,
                       vf: seq<Token>, textBoxes: seq<string>, tag: Tag, lo: int)
    ensures Lookup(Document(mf, boundary, parts, thermometers, vf, textBoxes), tag)
         == if Lookup(mf, tag).Some? then Lookup(mf, tag) else Lookup(vf, tag)
    ensures InTagOrder(Document(mf, boundary, parts, thermometers, vf, textBoxes), lo)
        <==> InTagOrder(mf, lo) && InTagOrder(vf, LastTag(mf, lo))
  {
    var p0, p1, mb, sb, vb, q := [Markup(Declaration)], [Markup("<state>\n")], ModelBlock(mf, boundary, parts),
      SensorBlock(thermometers), ViewBlock(vf, textBoxes), [Markup("</state>\n")];
    var l := LastTag(mf, lo);
    Single(p0[0], tag, lo);
    Single(p1[0], tag, lo);
    Single(q[0], tag, LastTag(vf, l));
    ModelBlockFields(mf, boundary, parts, tag, lo);
    SensorBlockProjections(thermometers, tag, l);
    ViewBlockFields(vf, textBoxes, tag, l);
    Split(p0, p1, tag, lo);
    Split(p0 + p1, mb, tag, lo);
    Split(p0 + p1 + mb, sb, tag, lo);
    Split(p0 + p1 + mb + sb, vb, tag, lo);
    Split(p0 + p1 + mb + sb + vb, q, tag, lo);
  }

  /**
    Every tag of the save file holds exactly what its table row says: the setting's value when the
    row's condition holds, and nothing otherwise. A model tag is never written in the view, nor the
    reverse.
  */
  lemma EncodingLookup(s: SavedState, air: Air, tag: Tag)
    ensures Lookup(Encoding(s, air), tag)
         == if tag as int < 19 then RowValue(ModelRows(s.model, air), 0, tag) else RowValue(ViewRows(s.view), 19, tag)
  {
    ModelScalarsProjections(s.model, air, tag, -1);
    ViewFieldsProjections(s.view, tag, -1);
    ModelRowsShape(s.model, air);
    DocumentFields(ModelScalars(s.model, air), s.boundary, s.parts, s.thermometers, ViewFields(s.view), s.view.textBoxes, tag, -1);
  }

  /**
    The fields of the save file come in strictly increasing tag order: each tag is written at most
    once, and every model setting comes before every display setting.
  */
  lemma EncodingInTagOrder(s: SavedState, air: Air)
    ensures InTagOrder(Encoding(s, air), -1)
    ensures var e := Encoding(s, air);
      forall i, j :: 0 <= i < j < |e| && e[i].Field? && e[j].Field? ==> e[i].tag < e[j].tag
  {
    var mf := ModelScalars(s.model, air);
    ModelScalarsProjections(s.model, air, ModelWidth, -1);
    ViewFieldsProjections(s.view, ModelWidth, LastTag(mf, -1));
    DocumentFields(mf, s.boundary, s.parts, s.thermometers, ViewFields(s.view), s.view.textBoxes, ModelWidth, -1);
    InTagOrderSorted(Encoding(s, air), -1);
  }

  /** The markup of the model block: its own tags around the boundary's and, when there are parts, the structure's. */
  function ModelOutline(parts: seq<string>): seq<string> {
    ["<model>\n"] + ["<boundary>\n", "</boundary>\n"] + StructureOutline(parts) + ["</model>\n"]
  }

  /** The skeleton of a document whose two field lists hold no markup. */
  lemma DocumentOutline(mf: seq<Token>, boundary: string, parts: seq<string>, thermometers: seq<string>,
                        vf: seq<Token>, textBoxes: seq<string>)
    requires Outline(mf) == [] && Embeds(mf) == [] && Outline(vf) == [] && Embeds(vf) == []
    ensures Outline(Document(mf, boundary, parts, thermometers, vf, textBoxes))
         == [Declaration] + ["<state>\n"] + ModelOutline(parts) + ["<sensor>\n", "</sensor>\n"] + ["<view>\n", "</view>\n"] + ["</state>\n"]
  {
    var p0, p1, q := [Markup(Declaration)], [Markup("<state>\n")], [Markup("</state>\n")];
    Single(p0[0], ModelWidth, 0);
    Single(p1[0], ModelWidth, 0);
    Single(q[0], ModelWidth, 0);
    ModelBlockOutline(mf, boundary, parts);
    SensorBlockProjections(thermometers, ModelWidth, 0);
    ViewBlockMarkup(vf, textBoxes);
    OutlineJoin(p0, p1, ModelBlock(mf, boundary, parts), SensorBlock(thermometers), ViewBlock(vf, textBoxes), q);
  }

  /** The embedded outputs of a document whose two field lists hold none. */
  lemma DocumentEmbeds(mf: seq<Token>, boundary: string, parts: seq<string>, thermometers: seq<string>,
                       vf: seq<Token>, textBoxes: seq<string>)
    requires Outline(mf) == [] && Embeds(mf) == [] && Outline(vf) == [] && Embeds(vf) == []
    ensures Embeds(Document(mf, boundary, parts, thermometers, vf, textBoxes))
         == [boundary] + parts + Suffixed(thermometers, "\n") + textBoxes
  {
    var p0, p1, q := [Markup(Declaration)], [Markup("<state>\n")], [Markup("</state>\n")];
    Single(p0[0], ModelWidth, 0);
    Single(p1[0], ModelWidth, 0);
    Single(q[0], ModelWidth, 0);
    ModelBlockEmbeds(mf, boundary, parts);
    SensorBlockProjections(thermometers, ModelWidth, 0);
    ViewBlockMarkup(vf, textBoxes);
    EmbedsJoin(p0, p1, ModelBlock(mf, boundary, parts), SensorBlock(thermometers), ViewBlock(vf, textBoxes), q);
    var head := Embeds(p0) + Embeds(p1);
    assert head == [];
    var body := head + Embeds(ModelBlock(mf, boundary, parts));
    assert body == [boundary] + parts;
    var all := body + Embeds(SensorBlock(thermometers)) + Embeds(ViewBlock(vf, textBoxes));
    assert all + Embeds(q) == all;
  }

  /**
    The skeleton of the save file: the declaration, one `<state>` element holding the model,
    boundary, sensor and view elements in this order, and a structure element exactly when there
    are parts.
  */
  lemma EncodingOutline(s: SavedState, air: Air)
    ensures Outline(Encoding(s, air))
         == [Declaration] + ["<state>\n"] + ModelOutline(s.parts) + ["<sensor>\n", "</sensor>\n"] + ["<view>\n", "</view>\n"] + ["</state>\n"]
  {
    ModelScalarsProjections(s.model, air, ModelWidth, -1);
    ViewFieldsProjections(s.view, ModelWidth, -1);
    DocumentOutline(ModelScalars(s.model, air), s.boundary, s.parts, s.thermometers, ViewFields(s.view), s.view.textBoxes);
  }

  /**
    The save file embeds the sub-serialiser outputs in this order: the heat boundary, every part,
    every thermometer (each followed by a newline) and every text box, each list in its own order.
  */
  lemma EncodingEmbeds(s: SavedState, air: Air)
    ensures Embeds(Encoding(s, air)) == [s.boundary] + s.parts + Suffixed(s.thermometers, "\n") + s.view.textBoxes
  {
    ModelScalarsProjections(s.model, air, ModelWidth, -1);
    ViewFieldsProjections(s.view, ModelWidth, -1);
    DocumentEmbeds(ModelScalars(s.model, air), s.boundary, s.parts, s.thermometers, ViewFields(s.view), s.view.textBoxes);
  }

  /** The characters of a document: the declaration, then one `<state>` element whose body is the three blocks, in order. */
  lemma DocumentRender(mf: seq<Token>, boundary: string, parts: seq<string>, thermometers: seq<string>,
                       vf: seq<Token>, textBoxes: seq<string>, num: Value -> string)
    ensures Render(Document(mf, boundary, parts, thermometers, vf, textBoxes), num)
         == Declaration + "<state>\n"
          + Render(ModelBlock(mf, boundary, parts), num)
          + Render(SensorBlock(thermometers), num)
          + Render(ViewBlock(vf, textBoxes), num)
          + "</state>\n"
  {
    var p0, p1, mb, sb, vb, q := [Markup(Declaration)], [Markup("<state>\n")], ModelBlock(mf, boundary, parts),
      SensorBlock(thermometers), ViewBlock(vf, textBoxes), [Markup("</state>\n")];
    RenderAppend(p0, p1, num);
    RenderAppend(p0 + p1, mb, num);
    RenderAppend(p0 + p1 + mb, sb, num);
    RenderAppend(p0 + p1 + mb + sb, vb, num);
    RenderAppend(p0 + p1 + mb + sb + vb, q, num);
    assert Render(p0, num) == Declaration && Render(p1, num) == "<state>\n" && Render(q, num) == "</state>\n" by {
      assert p0[1..] == [] && p1[1..] == [] && q[1..] == [];
    }
  }

  // ---------------------------------------------------------------- reading the settings back

  /** The real number under `tag`, or `absent` when the file holds none. */
  function RealAt(ts: seq<Token>, tag: Tag, absent: real): real {
    match Lookup(ts, tag)
    case Some(Real(r)) => r
    case _ => absent
  }

  /** The integer under `tag`, or `absent` when the file holds none. */
  function IntAt(ts: seq<Token>, tag: Tag, absent: int): int {
    match Lookup(ts, tag)
    case Some(Int(i)) => i
    case _ => absent
  }

  /** The flag under `tag`, or `absent` when the file holds none. */
  function FlagAt(ts: seq<Token>, tag: Tag, absent: bool): bool {
    match Lookup(ts, tag)
    case Some(Bool(b)) => b
    case _ => absent
  }

  /**
    A reader of the model settings that starts from the defaults: an absent tag means its
    setting's default (air's constants for the background medium), and a setting that is always
    written keeps the reader's `prior` value when its tag is missing.
  */
  function ReadModel(ts: seq<Token>, air: Air, prior: ModelSettings): ModelSettings {
    ModelSettings(
      lx := RealAt(ts, ModelWidth, 10.0),
      ly := RealAt(ts, ModelHeight, 10.0),
      timeStep := RealAt(ts, Timestep, 1.0),
      measurementInterval := IntAt(ts, MeasurementInterval, 500),
      viewUpdateInterval := IntAt(ts, ViewupdateInterval, 100),
      sunny := FlagAt(ts, Sunny, false),
      sunAngle := RealAt(ts, SunAngle, prior.sunAngle),
      solarPowerDensity := RealAt(ts, SolarPowerDensity, prior.solarPowerDensity),
      solarRayCount := IntAt(ts, SolarRayCount, prior.solarRayCount),
      solarRaySpeed := RealAt(ts, SolarRaySpeed, prior.solarRaySpeed),
      photonEmissionInterval := IntAt(ts, PhotonEmissionInterval, prior.photonEmissionInterval),
      convective := FlagAt(ts, Convective, true),
      backgroundConductivity := RealAt(ts, BackgroundConductivity, air.conductivity),
      backgroundDensity := RealAt(ts, BackgroundDensity, air.density),
      backgroundSpecificHeat := RealAt(ts, BackgroundSpecificHeat, air.specificHeat),
      backgroundTemperature := RealAt(ts, BackgroundTemperature, 0.0),
      backgroundViscosity := RealAt(ts, BackgroundViscosity, air.viscosity),
      thermalBuoyancy := RealAt(ts, ThermalBuoyancy, prior.thermalBuoyancy),
      buoyancyApproximation := IntAt(ts, BuoyancyApproximation, prior.buoyancyApproximation))
  }

  /**
    A reader of the display settings that starts from the defaults (layers, velocity, streamline
    and graph hidden; clock and smoothing on); the rectangle and the temperature range keep the
    reader's `prior` values when their tags are missing, and the text boxes are not fields.
  */
  function ReadView(ts: seq<Token>, prior: ViewSettings): ViewSettings {
    ViewSettings(
      grid := FlagAt(ts, Grid, false),
      ruler := FlagAt(ts, Ruler, false),
      isotherm := FlagAt(ts, Isotherm, false),
      rainbow := FlagAt(ts, Rainbow, false),
      rainbowRectangle := Rectangle(
        IntAt(ts, RainbowX, prior.rainbowRectangle.x),
        IntAt(ts, RainbowY, prior.rainbowRectangle.y),
        IntAt(ts, RainbowW, prior.rainbowRectangle.width),
        IntAt(ts, RainbowH, prior.rainbowRectangle.height)),
      minimumTemperature := RealAt(ts, MinimumTemperature, prior.minimumTemperature),
      maximumTemperature := RealAt(ts, MaximumTemperature, prior.maximumTemperature),
      velocity := FlagAt(ts, Velocity, false),
      streamline := FlagAt(ts, Streamline, false),
      graph := FlagAt(ts, Graph, false),
      clock := FlagAt(ts, Clock, true),
      smooth := FlagAt(ts, Smooth, true),
      textBoxes := prior.textBoxes)
  }

  /** A model tag's row, found in the group of the table that covers it. */
  lemma ModelRowValue(m: ModelSettings, air: Air, tag: Tag)
    ensures RowValue(ModelRows(m, air), 0, tag)
         == if tag as int < 5 then RowValue(SizeRows(m), 0, tag)
         else if tag as int < 11 then RowValue(SolarRows(m), 5, tag)
         else if tag as int < 17 then RowValue(ConvectionRows(m, air), 11, tag)
         else RowValue(BuoyancyRows(m), 17, tag)
  {
    var a, b, c, d := SizeRows(m), SolarRows(m), ConvectionRows(m, air), BuoyancyRows(m);
    RowValueAppend(a + b + c, d, 0, tag);
    RowValueAppend(a + b, c, 0, tag);
    RowValueAppend(a, b, 0, tag);
  }

  /** A view tag's row, found in the group of the table that covers it. */
  lemma ViewRowValue(v: ViewSettings, tag: Tag)
    ensures RowValue(ViewRows(v), 19, tag)
         == if tag as int < 23 then RowValue(LayerRows(v), 19, tag)
         else if tag as int < 27 then RowValue(RainbowRows(v), 23, tag)
         else if tag as int < 29 then RowValue(ScaleRows(v), 27, tag)
         else RowValue(DisplayRows(v), 29, tag)
  {
    var a, b, c, d := LayerRows(v), RainbowRows(v), ScaleRows(v), DisplayRows(v);
    RowValueAppend(a + b + c, d, 19, tag);
    RowValueAppend(a + b, c, 19, tag);
    RowValueAppend(a, b, 19, tag);
  }

  /** The size settings read back from a token list that holds the model table's rows. */
  lemma ReadSizeRows(ts: seq<Token>, m: ModelSettings, air: Air, prior: ModelSettings)
    requires forall tag: Tag :: tag as int < 19 ==> Lookup(ts, tag) == RowValue(ModelRows(m, air), 0, tag)
    ensures var r := ReadModel(ts, air, prior);
      r.lx == m.lx && r.ly == m.ly && r.timeStep == m.timeStep && r.measurementInterval == m.measurementInterval && r.viewUpdateInterval == m.viewUpdateInterval
  {
    ModelRowValue(m, air, ModelWidth);
    assert Lookup(ts, ModelWidth) == RowValue(ModelRows(m, air), 0, ModelWidth);
    ModelRowValue(m, air, ModelHeight);
    assert Lookup(ts, ModelHeight) == RowValue(ModelRows(m, air), 0, ModelHeight);
    ModelRowValue(m, air, Timestep);
    assert Lookup(ts, Timestep) == RowValue(ModelRows(m, air), 0, Timestep);
    ModelRowValue(m, air, MeasurementInterval);
    assert Lookup(ts, MeasurementInterval) == RowValue(ModelRows(m, air), 0, MeasurementInterval);
    ModelRowValue(m, air, ViewupdateInterval);
    assert Lookup(ts, ViewupdateInterval) == RowValue(ModelRows(m, air), 0, ViewupdateInterval);
  }

  /** The solar settings read back from a token list that holds the model table's rows. */
  lemma ReadSolarRows(ts: seq<Token>, m: ModelSettings, air: Air, prior: ModelSettings)
    requires forall tag: Tag :: tag as int < 19 ==> Lookup(ts, tag) == RowValue(ModelRows(m, air), 0, tag)
    ensures var r := ReadModel(ts, air, prior);
      r.sunny == m.sunny && r.sunAngle == m.sunAngle && r.solarPowerDensity == m.solarPowerDensity && r.solarRayCount == m.solarRayCount && r.solarRaySpeed == m.solarRaySpeed && r.photonEmissionInterval == m.photonEmissionInterval
  {
    ModelRowValue(m, air, Sunny);
    assert Lookup(ts, Sunny) == RowValue(ModelRows(m, air), 0, Sunny);
    ModelRowValue(m, air, SunAngle);
    assert Lookup(ts, SunAngle) == RowValue(ModelRows(m, air), 0, SunAngle);
    ModelRowValue(m, air, SolarPowerDensity);
    assert Lookup(ts, SolarPowerDensity) == RowValue(ModelRows(m, air), 0, SolarPowerDensity);
    ModelRowValue(m, air, SolarRayCount);
    assert Lookup(ts, SolarRayCount) == RowValue(ModelRows(m, air), 0, SolarRayCount);
    ModelRowValue(m, air, SolarRaySpeed);
    assert Lookup(ts, SolarRaySpeed) == RowValue(ModelRows(m, air), 0, SolarRaySpeed);
    ModelRowValue(m, air, PhotonEmissionInterval);
    assert Lookup(ts, PhotonEmissionInterval) == RowValue(ModelRows(m, air), 0, PhotonEmissionInterval);
  }

  /** The convection settings read back from a token list that holds the model table's rows. */
  lemma ReadConvectionRows(ts: seq<Token>, m: ModelSettings, air: Air, prior: ModelSettings)
    requires forall tag: Tag :: tag as int < 19 ==> Lookup(ts, tag) == RowValue(ModelRows(m, air), 0, tag)
    ensures var r := ReadModel(ts, air, prior);
      r.convective == m.convective && r.backgroundConductivity == m.backgroundConductivity && r.backgroundDensity == m.backgroundDensity && r.backgroundSpecificHeat == m.backgroundSpecificHeat && r.backgroundTemperature == m.backgroundTemperature && r.backgroundViscosity == m.backgroundViscosity
  {
    ModelRowValue(m, air, Convective);
    assert Lookup(ts, Convective) == RowValue(ModelRows(m, air), 0, Convective);
    ModelRowValue(m, air, BackgroundConductivity);
    assert Lookup(ts, BackgroundConductivity) == RowValue(ModelRows(m, air), 0, BackgroundConductivity);
    ModelRowValue(m, air, BackgroundDensity);
    assert Lookup(ts, BackgroundDensity) == RowValue(ModelRows(m, air), 0, BackgroundDensity);
    ModelRowValue(m, air, BackgroundSpecificHeat);
    assert Lookup(ts, BackgroundSpecificHeat) == RowValue(ModelRows(m, air), 0, BackgroundSpecificHeat);
    ModelRowValue(m, air, BackgroundTemperature);
    assert Lookup(ts, BackgroundTemperature) == RowValue(ModelRows(m, air), 0, BackgroundTemperature);
    ModelRowValue(m, air, BackgroundViscosity);
    assert Lookup(ts, BackgroundViscosity) == RowValue(ModelRows(m, air), 0, BackgroundViscosity);
  }

  /** The buoyancy settings read back from a token list that holds the model table's rows. */
  lemma ReadBuoyancyRows(ts: seq<Token>, m: ModelSettings, air: Air, prior: ModelSettings)
    requires forall tag: Tag :: tag as int < 19 ==> Lookup(ts, tag) == RowValue(ModelRows(m, air), 0, tag)
    ensures var r := ReadModel(ts, air, prior);
      r.thermalBuoyancy == m.thermalBuoyancy && r.buoyancyApproximation == m.buoyancyApproximation
  {
    ModelRowValue(m, air, ThermalBuoyancy);
    assert Lookup(ts, ThermalBuoyancy) == RowValue(ModelRows(m, air), 0, ThermalBuoyancy);
    ModelRowValue(m, air, BuoyancyApproximation);
    assert Lookup(ts, BuoyancyApproximation) == RowValue(ModelRows(m, air), 0, BuoyancyApproximation);
  }

  /** Any token list that holds the model table's rows under the model tags reads back as those settings. */
  lemma ReadModelRows(ts: seq<Token>, m: ModelSettings, air: Air, prior: ModelSettings)
    requires forall tag: Tag :: tag as int < 19 ==> Lookup(ts, tag) == RowValue(ModelRows(m, air), 0, tag)
    ensures ReadModel(ts, air, prior) == m
  {
    ReadSizeRows(ts, m, air, prior);
    ReadSolarRows(ts, m, air, prior);
    ReadConvectionRows(ts, m, air, prior);
    ReadBuoyancyRows(ts, m, air, prior);
  }

  /** The layer settings read back from a token list that holds the view table's rows. */
  lemma ReadLayerRows(ts: seq<Token>, v: ViewSettings, prior: ViewSettings)
    requires forall tag: Tag :: 19 <= tag as int ==> Lookup(ts, tag) == RowValue(ViewRows(v), 19, tag)
    ensures var r := ReadView(ts, prior);
      r.grid == v.grid && r.ruler == v.ruler && r.isotherm == v.isotherm && r.rainbow == v.rainbow
  {
    ViewRowValue(v, Grid);
    assert Lookup(ts, Grid) == RowValue(ViewRows(v), 19, Grid);
    ViewRowValue(v, Ruler);
    assert Lookup(ts, Ruler) == RowValue(ViewRows(v), 19, Ruler);
    ViewRowValue(v, Isotherm);
    assert Lookup(ts, Isotherm) == RowValue(ViewRows(v), 19, Isotherm);
    ViewRowValue(v, Rainbow);
    assert Lookup(ts, Rainbow) == RowValue(ViewRows(v), 19, Rainbow);
  }

  /** The scale settings read back from a token list that holds the view table's rows. */
  lemma ReadScaleRows(ts: seq<Token>, v: ViewSettings, prior: ViewSettings)
    requires forall tag: Tag :: 19 <= tag as int ==> Lookup(ts, tag) == RowValue(ViewRows(v), 19, tag)
    ensures var r := ReadView(ts, prior);
      r.minimumTemperature == v.minimumTemperature && r.maximumTemperature == v.maximumTemperature
  {
    ViewRowValue(v, MinimumTemperature);
    assert Lookup(ts, MinimumTemperature) == RowValue(ViewRows(v), 19, MinimumTemperature);
    ViewRowValue(v, MaximumTemperature);
    assert Lookup(ts, MaximumTemperature) == RowValue(ViewRows(v), 19, MaximumTemperature);
  }

  /** The display settings read back from a token list that holds the view table's rows. */
  lemma ReadDisplayRows(ts: seq<Token>, v: ViewSettings, prior: ViewSettings)
    requires forall tag: Tag :: 19 <= tag as int ==> Lookup(ts, tag) == RowValue(ViewRows(v), 19, tag)
    ensures var r := ReadView(ts, prior);
      r.velocity == v.velocity && r.streamline == v.streamline && r.graph == v.graph && r.clock == v.clock && r.smooth == v.smooth
  {
    ViewRowValue(v, Velocity);
    assert Lookup(ts, Velocity) == RowValue(ViewRows(v), 19, Velocity);
    ViewRowValue(v, Streamline);
    assert Lookup(ts, Streamline) == RowValue(ViewRows(v), 19, Streamline);
    ViewRowValue(v, Graph);
    assert Lookup(ts, Graph) == RowValue(ViewRows(v), 19, Graph);
    ViewRowValue(v, Clock);
    assert Lookup(ts, Clock) == RowValue(ViewRows(v), 19, Clock);
    ViewRowValue(v, Smooth);
    assert Lookup(ts, Smooth) == RowValue(ViewRows(v), 19, Smooth);
  }

  /** The rainbow rectangle read back: its position, and each size only when it was positive. */
  lemma ReadRainbowRows(ts: seq<Token>, v: ViewSettings, prior: ViewSettings)
    requires forall tag: Tag :: 19 <= tag as int ==> Lookup(ts, tag) == RowValue(ViewRows(v), 19, tag)
    ensures var r, w, p := ReadView(ts, prior).rainbowRectangle, v.rainbowRectangle, prior.rainbowRectangle;
      r == Rectangle(w.x, w.y, if w.width > 0 then w.width else p.width, if w.height > 0 then w.height else p.height)
  {
    ViewRowValue(v, RainbowX);
    assert Lookup(ts, RainbowX) == RowValue(ViewRows(v), 19, RainbowX);
    ViewRowValue(v, RainbowY);
    assert Lookup(ts, RainbowY) == RowValue(ViewRows(v), 19, RainbowY);
    ViewRowValue(v, RainbowW);
    assert Lookup(ts, RainbowW) == RowValue(ViewRows(v), 19, RainbowW);
    ViewRowValue(v, RainbowH);
    assert Lookup(ts, RainbowH) == RowValue(ViewRows(v), 19, RainbowH);
  }

  /** Any token list that holds the view table's rows under the view tags reads back as those settings, except for the rectangle's lost sizes and the text boxes. */
  lemma ReadViewRows(ts: seq<Token>, v: ViewSettings, prior: ViewSettings)
    requires forall tag: Tag :: 19 <= tag as int ==> Lookup(ts, tag) == RowValue(ViewRows(v), 19, tag)
    ensures var w := v.rainbowRectangle;
      ReadView(ts, prior)
      == v.(rainbowRectangle := Rectangle(w.x, w.y,
                                          if w.width > 0 then w.width else prior.rainbowRectangle.width,
                                          if w.height > 0 then w.height else prior.rainbowRectangle.height),
            textBoxes := prior.textBoxes)
  {
    ReadLayerRows(ts, v, prior);
    ReadRainbowRows(ts, v, prior);
    ReadScaleRows(ts, v, prior);
    ReadDisplayRows(ts, v, prior);
  }

  /**
    Omitting a setting at its default loses nothing: reading the save file back gives the model
    settings that were saved, whatever the reader started from.
  */
  lemma ModelRoundTrip(s: SavedState, air: Air, prior: ModelSettings)
    ensures ReadModel(Encoding(s, air), air, prior) == s.model
  {
    forall tag: Tag | tag as int < 19
      ensures Lookup(Encoding(s, air), tag) == RowValue(ModelRows(s.model, air), 0, tag)
    {
      EncodingLookup(s, air, tag);
    }
    ReadModelRows(Encoding(s, air), s.model, air, prior);
  }

  /**
    Reading the save file back gives the display settings that were saved, except that a
    rectangle width or height that is not positive is not written, so the reader keeps its own.
  */
  lemma ViewRoundTrip(s: SavedState, air: Air, prior: ViewSettings)
    ensures var w := s.view.rainbowRectangle;
      ReadView(Encoding(s, air), prior)
      == s.view.(rainbowRectangle := Rectangle(w.x, w.y,
                                               if w.width > 0 then w.width else prior.rainbowRectangle.width,
                                               if w.height > 0 then w.height else prior.rainbowRectangle.height),
                 textBoxes := prior.textBoxes)
  {
    forall tag: Tag | 19 <= tag as int
      ensures Lookup(Encoding(s, air), tag) == RowValue(ViewRows(s.view), 19, tag)
    {
      EncodingLookup(s, air, tag);
    }
    ReadViewRows(Encoding(s, air), s.view, prior);
  }
}
