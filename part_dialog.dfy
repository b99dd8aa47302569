/**
  The OK action of the part properties dialog (org.concord.energy2d.view.PartModelDialog): it
  parses the text fields one by one and gives up at the first one that is not a number, checks
  the optical coefficients, the scale and the uid, and only then writes the new properties into
  the part and asks the view to resize, rotate or scale its outline.
*/
module PartDialog {
  import opened Common
  import opened Elements

  /** What Float.parseFloat makes of a text: a number, NaN, or a NumberFormatException. */
  datatype ParsedFloat = Number(r: real) | NaN | Malformed

  /** The dialog's parse: NaN both for the text "NaN" and for a text that does not parse. */
  function Parse(s: string, parseFloat: string -> ParsedFloat): (x: Option<real>)
    ensures x.None? <==> !parseFloat(s).Number?
    ensures x.Some? ==> x.value == parseFloat(s).r
  {
    match parseFloat(s)
    case Number(r) => Some(r)
    case _ => None
  }

  /** The heating mode chosen with the three radio buttons. */
  datatype Mode = NotHeatSource | ConstantPower | ConstantTemperature

  /** The mode selected when the dialog opens. */
  function InitialMode(p: PartProps): (m: Mode)
    ensures m == ConstantPower <==> p.power != 0.0
    ensures m == ConstantTemperature <==> p.power == 0.0 && p.constantTemperature
    ensures m == NotHeatSource <==> p.power == 0.0 && !p.constantTemperature
  {
    if p.power != 0.0 then ConstantPower
    else if p.constantTemperature then ConstantTemperature
    else NotHeatSource
  }

  /**
    The dialog's fields. Width and height are on the dialog only for a rectangular outline, the
    rotation and the scale only for a polygon: an absent field is None.
  */
  datatype Form = Form(
    absorption: string,
    reflection: string,
    transmission: string,
    emissivity: string,
    conductivity: string,
    specificHeat: string,
    density: string,
    windSpeed: string,
    windAngle: string,
    xCenter: string,
    yCenter: string,
    width: Option<string>,
    height: Option<string>,
    angle: Option<string>,
    scale: Option<string>,
    uid: Option<string>,
    labelText: string,
    mode: Mode,
    temperature: string,
    power: string)

  datatype FieldName =
    | AbsorptionField | ReflectionField | TransmissionField | EmissivityField
    | ConductivityField | SpecificHeatField | DensityField | WindSpeedField | WindAngleField
    | XField | YField | WidthField | HeightField | AngleField | ScaleField
    | TemperatureField | PowerField

  /** Why the dialog stays open with the part unchanged. */
  datatype Rejection =
    | NotANumber(field: FieldName)
    | OutOfUnitRange(field: FieldName)
    | SumNotOne
    | ScaleNotPositive
    | UidTaken(uid: string)

  datatype Result<T> = Ok(value: T) | Fail(why: Rejection)

  datatype Optics = Optics(absorption: real, reflection: real, transmission: real, emissivity: real)

  datatype Physics = Physics(
    conductivity: real, specificHeat: real, density: real, windSpeed: real, windAngle: real,
    xCenter: real, yCenter: real,
    width: Option<real>, height: Option<real>, degree: Option<real>, scale: Option<real>)

  /** The heat setting written: a temperature (power off), or a power. */
  datatype Heat = SetTemperature(temperature: real) | SetPower(power: real)

  /** Everything the checks let through. */
  datatype Validated = Validated(optics: Optics, physics: Physics, uid: Option<string>, heat: Heat)

  /** The opaque geometry calls made on acceptance. */
  datatype GeometryEdit =
    | ResizeTo(x: real, y: real, width: real, height: real)
    | RotateBy(degree: real)
    | ScaleBy(factor: real)

  function Abs(x: real): real {
    if x < 0.0 then -x else x
  }

  predicate InUnit(x: real) {
    0.0 <= x <= 1.0
  }

  /** Math.max(conductivity, 1e-9f): the conductivity never stored. */
  const MinConductivity: real := 0.000000001

  /** The tolerance of the sum rule. */
  const SumTolerance: real := 0.01

  /** The four optical fields: parsed first, then each range checked, then the sum. */
  function ReadOptics(f: Form, pf: string -> ParsedFloat): Result<Optics> {
    var a := Parse(f.absorption, pf);
    if a.None? then Fail(NotANumber(AbsorptionField)) else
    var r := Parse(f.reflection, pf);
    if r.None? then Fail(NotANumber(ReflectionField)) else
    var t := Parse(f.transmission, pf);
    if t.None? then Fail(NotANumber(TransmissionField)) else
    var e := Parse(f.emissivity, pf);
    if e.None? then Fail(NotANumber(EmissivityField)) else
    if a.value < 0.0 || a.value > 1.0 then Fail(OutOfUnitRange(AbsorptionField)) else
    if r.value < 0.0 || r.value > 1.0 then Fail(OutOfUnitRange(ReflectionField)) else
    if t.value < 0.0 || t.value > 1.0 then Fail(OutOfUnitRange(TransmissionField)) else
    if e.value < 0.0 || e.value > 1.0 then Fail(OutOfUnitRange(EmissivityField)) else
    if Abs(a.value + r.value + t.value - 1.0) > SumTolerance then Fail(SumNotOne) else
    Ok(Optics(a.value, r.value, t.value, e.value))
  }

  /** A field that only some outlines have: absent is no value, present must parse. */
  function ReadShown(o: Option<string>, pf: string -> ParsedFloat, field: FieldName): Result<Option<real>> {
    if o.None? then Ok(None) else
    var x := Parse(o.value, pf);
    if x.None? then Fail(NotANumber(field)) else Ok(Some(x.value))
  }

  /** The thermal, wind and geometry fields, in the order they are parsed; a shown scale must be positive. */
  function ReadPhysics(f: Form, pf: string -> ParsedFloat): Result<Physics> {
    var k := Parse(f.conductivity, pf);
    if k.None? then Fail(NotANumber(ConductivityField)) else
    var c := Parse(f.specificHeat, pf);
    if c.None? then Fail(NotANumber(SpecificHeatField)) else
    var d := Parse(f.density, pf);
    if d.None? then Fail(NotANumber(DensityField)) else
    var ws := Parse(f.windSpeed, pf);
    if ws.None? then Fail(NotANumber(WindSpeedField)) else
    var wa := Parse(f.windAngle, pf);
    if wa.None? then Fail(NotANumber(WindAngleField)) else
    var x := Parse(f.xCenter, pf);
    if x.None? then Fail(NotANumber(XField)) else
    var y := Parse(f.yCenter, pf);
    if y.None? then Fail(NotANumber(YField)) else
    var w := ReadShown(f.width, pf, WidthField);
    if w.Fail? then Fail(w.why) else
    var h := ReadShown(f.height, pf, HeightField);
    if h.Fail? then Fail(h.why) else
    var g := ReadShown(f.angle, pf, AngleField);
    if g.Fail? then Fail(g.why) else
    var s := ReadShown(f.scale, pf, ScaleField);
    if s.Fail? then Fail(s.why) else
    if s.value.Some? && s.value.value <= 0.0 then Fail(ScaleNotPositive) else
    Ok(Physics(k.value, c.value, d.value, ws.value, wa.value, x.value, y.value, w.value, h.value, g.value, s.value))
  }

  /** The uid field, trimmed; a non-empty uid other than the part's own must not be in use. */
  function CheckUid(text: Option<string>, current: Option<string>, used: set<string>): Result<Option<string>> {
    if text.None? then Ok(None) else
    var u := Trim(text.value);
    if u != "" && Some(u) != current && u in used then Fail(UidTaken(u)) else Ok(Some(u))
  }

  /** The temperature field unless the part is a constant power source, whose power field is read instead. */
  function ReadHeat(f: Form, pf: string -> ParsedFloat): Result<Heat> {
    if f.mode == NotHeatSource || f.mode == ConstantTemperature then
      var t := Parse(f.temperature, pf);
      if t.None? then Fail(NotANumber(TemperatureField)) else Ok(SetTemperature(t.value))
    else
      var p := Parse(f.power, pf);
      if p.None? then Fail(NotANumber(PowerField)) else Ok(SetPower(p.value))
  }

  /** The pure validator: the checks of the OK action, in the order it makes them, stopping at the first failure. */
  function Validate(current: PartProps, f: Form, pf: string -> ParsedFloat, used: set<string>): Result<Validated> {
    var o := ReadOptics(f, pf);
    if o.Fail? then Fail(o.why) else
    var ph := ReadPhysics(f, pf);
    if ph.Fail? then Fail(ph.why) else
    var u := CheckUid(f.uid, current.uid, used);
    if u.Fail? then Fail(u.why) else
    var h := ReadHeat(f, pf);
    if h.Fail? then Fail(h.why) else
    Ok(Validated(o.value, ph.value, u.value, h.value))
  }

  /** Math.toRadians. */
  function Radians(degrees: real): real {
    degrees * Pi / 180.0
  }

  function Max(a: real, b: real): real {
    if a >= b then a else b
  }

  /** The part's properties after the setters of an accepted edit, in the order the action calls them. */
  function Applied(p: PartProps, f: Form, v: Validated): PartProps {
    var heated := match v.heat
      case SetTemperature(t) => p.(temperature := t, power := 0.0)
      case SetPower(w) => p.(power := w);
    heated.(
      constantTemperature := f.mode == ConstantTemperature,
      windAngle := Radians(v.physics.windAngle),
      windSpeed := v.physics.windSpeed,
      conductivity := Max(v.physics.conductivity, MinConductivity),
      specificHeat := v.physics.specificHeat,
      density := v.physics.density,
      absorption := v.optics.absorption,
      reflection := v.optics.reflection,
      transmission := v.optics.transmission,
      emissivity := v.optics.emissivity,
      labelText := Some(f.labelText),
      uid := v.uid)
  }

  /** The geometry calls of an accepted edit; `ly` is the height of the model, whose y axis the view flips. */
  function Edits(shape: ShapeKind, ph: Physics, ly: real): seq<GeometryEdit> {
    match shape
    case Rectangular =>
      if ph.width.Some? && ph.height.Some? then
        [ResizeTo(ph.xCenter - 0.5 * ph.width.value, ly - ph.yCenter - 0.5 * ph.height.value,
                  ph.width.value, ph.height.value)]
      else []
    case Polygonal =>
      Opt(ph.degree.Some? && ph.degree.value != 0.0, RotateBy(if ph.degree.Some? then ph.degree.value else 0.0))
      + Opt(ph.scale.Some? && ph.scale.value != 1.0, ScaleBy(if ph.scale.Some? then ph.scale.value else 1.0))
    case OtherShape => []
  }

  /**
    The OK action on a part: the validator decides; a rejection leaves the part as it was, an
    acceptance writes every property through the setters and reports the geometry calls.
  */
  method Submit(part: Part, f: Form, pf: string -> ParsedFloat, used: set<string>, ly: real)
    returns (r: Result<Validated>, edits: seq<GeometryEdit>)
    modifies part
    ensures r == Validate(old(part.props), f, pf, used)
    ensures r.Fail? ==> part.props == old(part.props) && edits == []
    ensures r.Ok? ==> part.props == Applied(old(part.props), f, r.value)
    ensures r.Ok? ==> edits == Edits(old(part.props).shape, r.value.physics, ly)
    ensures part.powerSwitch == old(part.powerSwitch)
  {
    r := Validate(part.props, f, pf, used);
    edits := [];
    if r.Fail? {
      return;
    }
    var v := r.value;
    match v.heat {
      case SetTemperature(t) =>
        part.props := part.props.(temperature := t);
        part.props := part.props.(power := 0.0);
      case SetPower(w) =>
        part.props := part.props.(power := w);
    }
    part.props := part.props.(constantTemperature := f.mode == ConstantTemperature);
    edits := Edits(part.props.shape, v.physics, ly);
    part.props := part.props.(windAngle := Radians(v.physics.windAngle));
    part.props := part.props.(windSpeed := v.physics.windSpeed);
    part.props := part.props.(conductivity := Max(v.physics.conductivity, MinConductivity));
    part.props := part.props.(specificHeat := v.physics.specificHeat);
    part.props := part.props.(density := v.physics.density);
    part.props := part.props.(absorption := v.optics.absorption);
    part.props := part.props.(reflection := v.optics.reflection);
    part.props := part.props.(transmission := v.optics.transmission);
    part.props := part.props.(emissivity := v.optics.emissivity);
    part.props := part.props.(labelText := Some(f.labelText));
    part.props := part.props.(uid := v.uid);
  }

  // ---------------------------------------------------------------------------------------
  // The acceptance rule stated on its own, and what an accepted edit leaves in the part

  predicate Parses(s: string, pf: string -> ParsedFloat) {
    pf(s).Number?
  }

  /** A field absent from the dialog, or one that parses. */
  predicate ParsesIfShown(o: Option<string>, pf: string -> ParsedFloat) {
    o.None? || Parses(o.value, pf)
  }

  /** The uid rule: the trimmed text is empty, the part's own uid, or not in use. */
  predicate UidAllowed(text: Option<string>, current: Option<string>, used: set<string>) {
    text.None? || Trim(text.value) == "" || Some(Trim(text.value)) == current || Trim(text.value) !in used
  }

  predicate OpticsAcceptable(f: Form, pf: string -> ParsedFloat) {
    Parses(f.absorption, pf) && Parses(f.reflection, pf) && Parses(f.transmission, pf) && Parses(f.emissivity, pf)
    && InUnit(pf(f.absorption).r) && InUnit(pf(f.reflection).r)
    && InUnit(pf(f.transmission).r) && InUnit(pf(f.emissivity).r)
    && Abs(pf(f.absorption).r + pf(f.reflection).r + pf(f.transmission).r - 1.0) <= SumTolerance
  }

  predicate PhysicsAcceptable(f: Form, pf: string -> ParsedFloat) {
    Parses(f.conductivity, pf) && Parses(f.specificHeat, pf) && Parses(f.density, pf)
    && Parses(f.windSpeed, pf) && Parses(f.windAngle, pf) && Parses(f.xCenter, pf) && Parses(f.yCenter, pf)
    && ParsesIfShown(f.width, pf) && ParsesIfShown(f.height, pf)
    && ParsesIfShown(f.angle, pf) && ParsesIfShown(f.scale, pf)
    && (f.scale.Some? ==> pf(f.scale.value).r > 0.0)
  }

  predicate HeatAcceptable(f: Form, pf: string -> ParsedFloat) {
    if f.mode == ConstantPower then Parses(f.power, pf) else Parses(f.temperature, pf)
  }

  /** When the OK action accepts an edit, independently of the order it checks things in. */
  predicate Acceptable(current: PartProps, f: Form, pf: string -> ParsedFloat, used: set<string>) {
    OpticsAcceptable(f, pf) && PhysicsAcceptable(f, pf)
    && UidAllowed(f.uid, current.uid, used) && HeatAcceptable(f, pf)
  }

  lemma ReadOpticsOk(f: Form, pf: string -> ParsedFloat)
    ensures ReadOptics(f, pf).Ok? <==> OpticsAcceptable(f, pf)
    ensures ReadOptics(f, pf).Ok? ==>
      ReadOptics(f, pf).value == Optics(pf(f.absorption).r, pf(f.reflection).r, pf(f.transmission).r, pf(f.emissivity).r)
  {
  }

  lemma ReadShownOk(o: Option<string>, pf: string -> ParsedFloat, field: FieldName)
    ensures ReadShown(o, pf, field).Ok? <==> ParsesIfShown(o, pf)
    ensures ReadShown(o, pf, field).Ok? ==>
      ReadShown(o, pf, field).value == if o.None? then None else Some(pf(o.value).r)
  {
  }

  lemma ReadPhysicsOk(f: Form, pf: string -> ParsedFloat)
    ensures ReadPhysics(f, pf).Ok? <==> PhysicsAcceptable(f, pf)
    ensures ReadPhysics(f, pf).Ok? ==> ReadPhysics(f, pf).value.conductivity == pf(f.conductivity).r
    ensures ReadPhysics(f, pf).Ok? ==> ReadPhysics(f, pf).value.windAngle == pf(f.windAngle).r
    ensures ReadPhysics(f, pf).Ok? ==> ReadPhysics(f, pf).value.scale == if f.scale.None? then None else Some(pf(f.scale.value).r)
    ensures ReadPhysics(f, pf).Ok? ==> ReadPhysics(f, pf).value.degree == if f.angle.None? then None else Some(pf(f.angle.value).r)
  {
    ReadShownOk(f.width, pf, WidthField);
    ReadShownOk(f.height, pf, HeightField);
    ReadShownOk(f.angle, pf, AngleField);
    ReadShownOk(f.scale, pf, ScaleField);
  }

  lemma CheckUidOk(text: Option<string>, current: Option<string>, used: set<string>)
    ensures CheckUid(text, current, used).Ok? <==> UidAllowed(text, current, used)
    ensures CheckUid(text, current, used).Ok? ==>
      CheckUid(text, current, used).value == if text.None? then None else Some(Trim(text.value))
  {
  }

  lemma ReadHeatOk(f: Form, pf: string -> ParsedFloat)
    ensures ReadHeat(f, pf).Ok? <==> HeatAcceptable(f, pf)
    ensures ReadHeat(f, pf).Ok? ==>
      ReadHeat(f, pf).value == if f.mode == ConstantPower then SetPower(pf(f.power).r) else SetTemperature(pf(f.temperature).r)
  {
  }

  /** The validator accepts exactly the acceptable edits. */
  lemma ValidateOkIff(current: PartProps, f: Form, pf: string -> ParsedFloat, used: set<string>)
    ensures Validate(current, f, pf, used).Ok? <==> Acceptable(current, f, pf, used)
  {
    ReadOpticsOk(f, pf);
    ReadPhysicsOk(f, pf);
    CheckUidOk(f.uid, current.uid, used);
    ReadHeatOk(f, pf);
  }

  /**
    Some field the OK action reads as a number does not parse: one of the optical, thermal, wind or
    position fields, a shown geometry field, or the temperature or power field the mode selects.
  */
  predicate SomeFieldNotANumber(f: Form, pf: string -> ParsedFloat) {
    !Parses(f.absorption, pf) || !Parses(f.reflection, pf) || !Parses(f.transmission, pf) || !Parses(f.emissivity, pf)
    || !Parses(f.conductivity, pf) || !Parses(f.specificHeat, pf) || !Parses(f.density, pf)
    || !Parses(f.windSpeed, pf) || !Parses(f.windAngle, pf) || !Parses(f.xCenter, pf) || !Parses(f.yCenter, pf)
    || !ParsesIfShown(f.width, pf) || !ParsesIfShown(f.height, pf)
    || !ParsesIfShown(f.angle, pf) || !ParsesIfShown(f.scale, pf)
    || !HeatAcceptable(f, pf)
  }

  /** A field shown on the dialog that is not a number always keeps the part as it is. */
  lemma NotANumberRejects(current: PartProps, f: Form, pf: string -> ParsedFloat, used: set<string>)
    requires SomeFieldNotANumber(f, pf)
    ensures Validate(current, f, pf, used).Fail?
  {
    ValidateOkIff(current, f, pf, used);
  }

  /**
    What an accepted edit leaves in the part: coefficients in [0, 1] summing to one within 0.01,
    a conductivity of at least 1e-9, the constant-temperature flag exactly for that mode, no power
    unless the part is a constant power source, and the trimmed uid.
  */
  lemma AcceptedProperties(current: PartProps, f: Form, pf: string -> ParsedFloat, used: set<string>)
    requires Validate(current, f, pf, used).Ok?
    ensures var q := Applied(current, f, Validate(current, f, pf, used).value);
      InUnit(q.absorption) && InUnit(q.reflection) && InUnit(q.transmission) && InUnit(q.emissivity)
      && Abs(q.absorption + q.reflection + q.transmission - 1.0) <= SumTolerance
      && q.conductivity >= MinConductivity
      && q.conductivity == Max(pf(f.conductivity).r, MinConductivity)
      && (q.constantTemperature <==> f.mode == ConstantTemperature)
      && (f.mode != ConstantPower ==> q.power == 0.0 && q.temperature == pf(f.temperature).r)
      && (f.mode == ConstantPower ==> q.power == pf(f.power).r && q.temperature == current.temperature)
      && q.windAngle == Radians(pf(f.windAngle).r)
      && q.uid == (if f.uid.None? then None else Some(Trim(f.uid.value)))
      && q.labelText == Some(f.labelText) && q.shape == current.shape
  {
    ReadOpticsOk(f, pf);
    ReadPhysicsOk(f, pf);
    CheckUidOk(f.uid, current.uid, used);
    ReadHeatOk(f, pf);
  }

  /** A non-empty uid taken by another element is refused, whatever else the form holds, once the numeric fields pass. */
  lemma TakenUidRejected(current: PartProps, f: Form, pf: string -> ParsedFloat, used: set<string>)
    requires OpticsAcceptable(f, pf) && PhysicsAcceptable(f, pf)
    requires f.uid.Some? && Trim(f.uid.value) != "" && Some(Trim(f.uid.value)) != current.uid
    requires Trim(f.uid.value) in used
    ensures Validate(current, f, pf, used) == Fail(UidTaken(Trim(f.uid.value)))
  {
    ReadOpticsOk(f, pf);
    ReadPhysicsOk(f, pf);
  }

  /**
    Reopening the dialog shows the mode just chosen, except that a constant power source given
    no power reopens as not a heat source.
  */
  lemma ModeReopens(current: PartProps, f: Form, pf: string -> ParsedFloat, used: set<string>)
    requires Validate(current, f, pf, used).Ok?
    ensures var q := Applied(current, f, Validate(current, f, pf, used).value);
      InitialMode(q) == if f.mode == ConstantPower && q.power == 0.0 then NotHeatSource else f.mode
  {
    ReadHeatOk(f, pf);
  }

  /**
    The geometry calls: a rectangle is resized when both its width and height are given, a polygon
    is rotated only by a non-zero angle and scaled only by a factor other than one, and other
    outlines are left alone.
  */
  lemma EditsRules(shape: ShapeKind, ph: Physics, ly: real)
    ensures shape == OtherShape ==> Edits(shape, ph, ly) == []
    ensures shape == Rectangular ==> (Edits(shape, ph, ly) != [] <==> ph.width.Some? && ph.height.Some?)
    ensures shape == Polygonal ==>
      (RotateBy(if ph.degree.Some? then ph.degree.value else 0.0) in Edits(shape, ph, ly) <==>
        ph.degree.Some? && ph.degree.value != 0.0)
    ensures shape == Polygonal ==>
      (ScaleBy(if ph.scale.Some? then ph.scale.value else 1.0) in Edits(shape, ph, ly) <==>
        ph.scale.Some? && ph.scale.value != 1.0)
    ensures shape == Polygonal ==> |Edits(shape, ph, ly)| <= 2
  {
  }
}
