/**
  The XML text the source builds by string concatenation, kept as tokens. A token records what is
  written (a fixed piece of markup, a `<tag>value</tag>` field, or the output of a sub-serialiser that is
  not part of this model); `Render` turns tokens into characters, given a formatter for numbers, which
  stands for Java's float and int to string conversion.
*/
module Xml {
  import opened Common

  /**
    The tags of the save file's setting fields, numbered in the order the file writes them: model
    settings 0 to 18, view settings 19 to 33.
  */
  newtype Tag = n: int | 0 <= n < 34

  const ModelWidth: Tag := 0
  const ModelHeight: Tag := 1
  const Timestep: Tag := 2
  const MeasurementInterval: Tag := 3
  const ViewupdateInterval: Tag := 4
  const Sunny: Tag := 5
  const SunAngle: Tag := 6
  const SolarPowerDensity: Tag := 7
  const SolarRayCount: Tag := 8
  const SolarRaySpeed: Tag := 9
  const PhotonEmissionInterval: Tag := 10
  const Convective: Tag := 11
  const BackgroundConductivity: Tag := 12
  const BackgroundDensity: Tag := 13
  const BackgroundSpecificHeat: Tag := 14
  const BackgroundTemperature: Tag := 15
  const BackgroundViscosity: Tag := 16
  const ThermalBuoyancy: Tag := 17
  const BuoyancyApproximation: Tag := 18
  const Grid: Tag := 19
  const Ruler: Tag := 20
  const Isotherm: Tag := 21
  const Rainbow: Tag := 22
  const RainbowX: Tag := 23
  const RainbowY: Tag := 24
  const RainbowW: Tag := 25
  const RainbowH: Tag := 26
  const MinimumTemperature: Tag := 27
  const MaximumTemperature: Tag := 28
  const Velocity: Tag := 29
  const Streamline: Tag := 30
  const Graph: Tag := 31
  const Clock: Tag := 32
  const Smooth: Tag := 33

  /** The element name written for each tag, by number. */
  const TagNames: seq<string> := [
    "model_width", "model_height", "timestep", "measurement_interval", "viewupdate_interval",
    "sunny", "sun_angle", "solar_power_density", "solar_ray_count", "solar_ray_speed",
    "photon_emission_interval", "convective", "background_conductivity", "background_density",
    "background_specific_heat", "background_temperature", "background_viscosity",
    "thermal_buoyancy", "buoyancy_approximation", "grid", "ruler", "isotherm", "rainbow",
    "rainbow_x", "rainbow_y", "rainbow_w", "rainbow_h", "minimum_temperature",
    "maximum_temperature", "velocity", "streamline", "graph", "clock", "smooth"
  ]

  function TagName(t: Tag): string {
    TagNames[t as int]
  }

  /** A value written into a field or an attribute. */
  datatype Value =
    | Real(r: real)     // a Java float
    | Int(i: int)       // a Java int or byte
    | Bool(b: bool)     // a literal true or false
    | Text(s: string)   // a string written as it is
    | Null              // a null String, which Java concatenates as "null"
    | Hex(rgb: int)     // Integer.toHexString of a 24-bit colour

  datatype Token =
    | Markup(text: string)                            // written as it is
    | Field(tag: Tag, value: Value, newline: bool)    // <tag>value</tag>, then "\n" when newline
    | Embedded(xml: string)                           // the output of an unseen toXml()

  datatype Attr = Attr(name: string, value: Value)

  /** A self-closing element `<name a="v" .../>`. */
  datatype Element = Element(name: string, attrs: seq<Attr>)

  function Show(v: Value, num: Value -> string): string {
    match v
    case Text(s) => s
    case Null => "null"
    case Bool(b) => if b then "true" else "false"
    case _ => num(v)
  }

  function RenderToken(t: Token, num: Value -> string): string {
    match t
    case Markup(s) => s
    case Field(tag, v, nl) => "<" + TagName(tag) + ">" + Show(v, num) + "</" + TagName(tag) + ">" + (if nl then "\n" else "")
    case Embedded(x) => x
  }

  function Render(ts: seq<Token>, num: Value -> string): string {
    if ts == [] then "" else RenderToken(ts[0], num) + Render(ts[1..], num)
  }

  lemma {:induction false} RenderAppend(a: seq<Token>, b: seq<Token>, num: Value -> string)
    ensures Render(a + b, num) == Render(a, num) + Render(b, num)
  {
    if a != [] {
      assert (a + b)[1..] == a[1..] + b;
      RenderAppend(a[1..], b, num);
    } else {
      assert a + b == b;
    }
  }

  function RenderAttrs(attrs: seq<Attr>, num: Value -> string): string {
    if attrs == [] then ""
    else " " + attrs[0].name + "=\"" + Show(attrs[0].value, num) + "\"" + RenderAttrs(attrs[1..], num)
  }

  function RenderElement(e: Element, num: Value -> string): string {
    "<" + e.name + RenderAttrs(e.attrs, num) + "/>"
  }

  /** The attribute names of an element, in the order they are written. */
  function Names(attrs: seq<Attr>): (r: seq<string>)
    ensures |r| == |attrs|
  {
    seq(|attrs|, i requires 0 <= i < |attrs| => attrs[i].name)
  }

  /** The value of the first attribute called `name`, if any. */
  function AttrValue(attrs: seq<Attr>, name: string): Option<Value> {
    if attrs == [] then None
    else if attrs[0].name == name then Some(attrs[0].value)
    else AttrValue(attrs[1..], name)
  }

  /** The attribute at index `i` is the first one called `name`. */
  lemma {:induction false} AttrValueAt(attrs: seq<Attr>, i: nat, name: string)
    requires i < |attrs| && attrs[i].name == name
    requires forall j :: 0 <= j < i ==> attrs[j].name != name
    ensures AttrValue(attrs, name) == Some(attrs[i].value)
  {
    if i > 0 {
      AttrValueAt(attrs[1..], i - 1, name);
    }
  }

  /** No attribute is called `name`. */
  lemma {:induction false} AttrValueAbsent(attrs: seq<Attr>, name: string)
    requires forall j :: 0 <= j < |attrs| ==> attrs[j].name != name
    ensures AttrValue(attrs, name) == None
  {
    if attrs != [] {
      AttrValueAbsent(attrs[1..], name);
    }
  }

  lemma NamesAppend(a: seq<Attr>, b: seq<Attr>)
    ensures Names(a + b) == Names(a) + Names(b)
  {
  }

  lemma NamesAppend4(a: seq<Attr>, b: seq<Attr>, c: seq<Attr>, d: seq<Attr>)
    ensures Names(a + b + c + d) == Names(a) + Names(b) + Names(c) + Names(d)
  {
    NamesAppend(a, b);
    NamesAppend(a + b, c);
    NamesAppend(a + b + c, d);
  }

  /** An attribute written only under a condition contributes its name under that condition. */
  lemma OptNames(o: seq<Attr>, present: bool, a: Attr)
    requires o == if present then [a] else []
    ensures Names(o) == Opt(present, a.name)
  {
  }

  /** A reader looks in the second list only for names the first one lacks. */
  lemma {:induction false} AttrValueAppend(a: seq<Attr>, b: seq<Attr>, name: string)
    ensures AttrValue(a + b, name) == if AttrValue(a, name).Some? then AttrValue(a, name) else AttrValue(b, name)
  {
    if a != [] {
      assert (a + b)[1..] == a[1..] + b;
      AttrValueAppend(a[1..], b, name);
    } else {
      assert a + b == b;
    }
  }

  /** The value of the first field with this tag, if any: what a reader of the file sees. */
  function Lookup(ts: seq<Token>, tag: Tag): Option<Value> {
    if ts == [] then None
    else if ts[0].Field? && ts[0].tag == tag then Some(ts[0].value)
    else Lookup(ts[1..], tag)
  }

  /** Every field's tag number is above `lo` and above the tag of every earlier field. */
  predicate InTagOrder(ts: seq<Token>, lo: int) {
    if ts == [] then true
    else if ts[0].Field? then lo < ts[0].tag as int && InTagOrder(ts[1..], ts[0].tag as int)
    else InTagOrder(ts[1..], lo)
  }

  /** The number of the last field's tag, or `lo` when there is no field. */
  function LastTag(ts: seq<Token>, lo: int): int {
    if ts == [] then lo
    else LastTag(ts[1..], if ts[0].Field? then ts[0].tag as int else lo)
  }

  /** The fixed pieces of markup, in order: the skeleton of the document. */
  function Outline(ts: seq<Token>): seq<string> {
    if ts == [] then []
    else (if ts[0].Markup? then [ts[0].text] else []) + Outline(ts[1..])
  }

  /** The outputs of the sub-serialisers, in order. */
  function Embeds(ts: seq<Token>): seq<string> {
    if ts == [] then []
    else (if ts[0].Embedded? then [ts[0].xml] else []) + Embeds(ts[1..])
  }

  lemma {:induction false} LookupAppend(a: seq<Token>, b: seq<Token>, tag: Tag)
    ensures Lookup(a + b, tag) == if Lookup(a, tag).Some? then Lookup(a, tag) else Lookup(b, tag)
  {
    if a != [] {
      assert (a + b)[1..] == a[1..] + b;
      LookupAppend(a[1..], b, tag);
    } else {
      assert a + b == b;
    }
  }

  lemma {:induction false} InTagOrderAppend(a: seq<Token>, b: seq<Token>, lo: int)
    ensures InTagOrder(a + b, lo) <==> InTagOrder(a, lo) && InTagOrder(b, LastTag(a, lo))
    ensures LastTag(a + b, lo) == LastTag(b, LastTag(a, lo))
  {
    if a != [] {
      assert (a + b)[1..] == a[1..] + b;
      InTagOrderAppend(a[1..], b, if a[0].Field? then a[0].tag as int else lo);
    } else {
      assert a + b == b;
    }
  }

  lemma {:induction false} OutlineAppend(a: seq<Token>, b: seq<Token>)
    ensures Outline(a + b) == Outline(a) + Outline(b)
  {
    if a != [] {
      assert (a + b)[1..] == a[1..] + b;
      OutlineAppend(a[1..], b);
    } else {
      assert a + b == b;
    }
  }

  lemma {:induction false} EmbedsAppend(a: seq<Token>, b: seq<Token>)
    ensures Embeds(a + b) == Embeds(a) + Embeds(b)
  {
    if a != [] {
      assert (a + b)[1..] == a[1..] + b;
      EmbedsAppend(a[1..], b);
    } else {
      assert a + b == b;
    }
  }

  /** One `if (written) append(<tag>value</tag>)` of a writer: a row of an omission table. */
  datatype Slot = Slot(tag: Tag, value: Value, newline: bool, written: bool)

  /** What one row writes: its field when the row is written, otherwise nothing. */
  function Written(s: Slot): seq<Token> {
    Opt(s.written, Field(s.tag, s.value, s.newline))
  }

  /** The fields a table writes: its written rows, in order. */
  function Emit(ss: seq<Slot>): seq<Token> {
    if ss == [] then [] else Emit(ss[..|ss| - 1]) + Written(ss[|ss| - 1])
  }

  lemma EmitSnoc(ss: seq<Slot>, k: nat)
    requires k < |ss|
    ensures Emit(ss[..k + 1]) == Emit(ss[..k]) + Written(ss[k])
  {
    assert ss[..k + 1][..k] == ss[..k];
  }

  /*
    A table of two to six rows writes its rows one after the other: the writer's chain of
    `if (...) append(...)` statements, stated once for any rows.
  */

  lemma Emit2(a: Slot, b: Slot)
    ensures Emit([a, b]) == Written(a) + Written(b)
  {
    var d := [a, b];
    assert d[..0] == [];
    EmitSnoc(d, 0);
    EmitSnoc(d, 1);
    assert d[..2] == d;
  }

  lemma Emit3(a: Slot, b: Slot, c: Slot)
    ensures Emit([a, b, c]) == Written(a) + Written(b) + Written(c)
  {
    var d := [a, b, c];
    EmitSnoc(d, 2);
    assert d[..2] == [a, b];
    Emit2(a, b);
    assert d[..3] == d;
  }

  lemma Emit4(a: Slot, b: Slot, c: Slot, e: Slot)
    ensures Emit([a, b, c, e]) == Written(a) + Written(b) + Written(c) + Written(e)
  {
    var d := [a, b, c, e];
    EmitSnoc(d, 3);
    assert d[..3] == [a, b, c];
    Emit3(a, b, c);
    assert d[..4] == d;
  }

  lemma Emit5(a: Slot, b: Slot, c: Slot, e: Slot, f: Slot)
    ensures Emit([a, b, c, e, f]) == Written(a) + Written(b) + Written(c) + Written(e) + Written(f)
  {
    var d := [a, b, c, e, f];
    EmitSnoc(d, 4);
    assert d[..4] == [a, b, c, e];
    Emit4(a, b, c, e);
    assert d[..5] == d;
  }

  lemma Emit6(a: Slot, b: Slot, c: Slot, e: Slot, f: Slot, g: Slot)
    ensures Emit([a, b, c, e, f, g]) == Written(a) + Written(b) + Written(c) + Written(e) + Written(f) + Written(g)
  {
    var d := [a, b, c, e, f, g];
    EmitSnoc(d, 5);
    assert d[..5] == [a, b, c, e, f];
    Emit5(a, b, c, e, f);
    assert d[..6] == d;
  }

  lemma {:induction false} EmitAppend(a: seq<Slot>, b: seq<Slot>)
    ensures Emit(a + b) == Emit(a) + Emit(b)
  {
    if b == [] {
      assert a + b == a;
    } else {
      var s := b[|b| - 1];
      assert (a + b)[..|a + b| - 1] == a + b[..|b| - 1];
      EmitAppend(a, b[..|b| - 1]);
    }
  }

  /** Rows whose tags are numbered consecutively from `base`: a table in the order the file is written. */
  predicate Consecutive(ss: seq<Slot>, base: nat) {
    forall i :: 0 <= i < |ss| ==> ss[i].tag as int == base + i
  }

  /** Two tables with consecutive tags, one after the other, form one such table. */
  lemma ConsecutiveAppend(a: seq<Slot>, b: seq<Slot>, base: nat)
    requires Consecutive(a, base) && Consecutive(b, base + |a|)
    ensures Consecutive(a + b, base)
  {
    forall i | 0 <= i < |a + b| ensures (a + b)[i].tag as int == base + i {
      if i >= |a| {
        assert (a + b)[i] == b[i - |a|];
      }
    }
  }

  /** The value in the row for `tag` when that row is written, otherwise nothing. */
  function RowValue(ss: seq<Slot>, base: nat, tag: Tag): Option<Value> {
    var k := tag as int - base;
    if 0 <= k < |ss| && ss[k].written then Some(ss[k].value)
    else None
  }

  /** A field written from one row: the row's value under its own tag and nothing else. */
  lemma OptField(c: bool, t: Tag, v: Value, nl: bool, tag: Tag, lo: int)
    ensures Lookup(Opt(c, Field(t, v, nl)), tag) == SomeIf(c && t == tag, v)
    ensures Outline(Opt(c, Field(t, v, nl))) == [] && Embeds(Opt(c, Field(t, v, nl))) == []
    ensures InTagOrder(Opt(c, Field(t, v, nl)), lo) <==> (c ==> lo < t as int)
    ensures LastTag(Opt(c, Field(t, v, nl)), lo) == if c then t as int else lo
  {
    if c {
      assert [Field(t, v, nl)][1..] == [];
    }
  }

  lemma ConsecutiveInit(ss: seq<Slot>, base: nat)
    requires Consecutive(ss, base) && ss != []
    ensures Consecutive(ss[..|ss| - 1], base)
  {
    var init := ss[..|ss| - 1];
    forall i | 0 <= i < |init| ensures init[i].tag as int == base + i {
      assert init[i] == ss[i];
    }
  }

  /** Under each tag, the fields written from a table hold the value of its row exactly when that row is written. */
  lemma {:induction false} EmitLookup(ss: seq<Slot>, base: nat, tag: Tag)
    requires Consecutive(ss, base)
    ensures Lookup(Emit(ss), tag) == RowValue(ss, base, tag)
  {
    if ss != [] {
      var init, s := ss[..|ss| - 1], ss[|ss| - 1];
      var last := Opt(s.written, Field(s.tag, s.value, s.newline));
      ConsecutiveInit(ss, base);
      EmitLookup(init, base, tag);
      LookupAppend(Emit(init), last, tag);
      OptField(s.written, s.tag, s.value, s.newline, tag, 0);
      var r := tag as int;
      if base <= r < base + |init| {
        assert init[r - base] == ss[r - base];
        assert s.tag != tag;
      } else if r == base + |init| {
        assert s.tag == tag;
      } else {
        assert s.tag != tag;
      }
    }
  }

  /** The fields written from a table are in increasing rank, so no tag appears twice. */
  lemma {:induction false} EmitInTagOrder(ss: seq<Slot>, base: nat, lo: int)
    requires Consecutive(ss, base)
    requires lo < base
    ensures InTagOrder(Emit(ss), lo) && LastTag(Emit(ss), lo) < base + |ss|
  {
    if ss != [] {
      var init, s := ss[..|ss| - 1], ss[|ss| - 1];
      var last := Opt(s.written, Field(s.tag, s.value, s.newline));
      ConsecutiveInit(ss, base);
      EmitInTagOrder(init, base, lo);
      InTagOrderAppend(Emit(init), last, lo);
      OptField(s.written, s.tag, s.value, s.newline, s.tag, LastTag(Emit(init), lo));
    }
  }

  /** A table writes nothing but fields. */
  lemma {:induction false} EmitFieldsOnly(ss: seq<Slot>)
    ensures Outline(Emit(ss)) == [] && Embeds(Emit(ss)) == []
  {
    if ss != [] {
      var init, s := ss[..|ss| - 1], ss[|ss| - 1];
      var last := Opt(s.written, Field(s.tag, s.value, s.newline));
      EmitFieldsOnly(init);
      OutlineAppend(Emit(init), last);
      EmbedsAppend(Emit(init), last);
      OptField(s.written, s.tag, s.value, s.newline, s.tag, 0);
    }
  }

  /** No field at all: only markup and sub-serialiser output. */
  predicate FieldFree(ts: seq<Token>) {
    forall i :: 0 <= i < |ts| ==> !ts[i].Field?
  }

  /** A stretch without fields holds no tag and leaves the tag order where it was. */
  lemma {:induction false} FieldFreeProjections(ts: seq<Token>, tag: Tag, lo: int)
    requires FieldFree(ts)
    ensures Lookup(ts, tag) == None
    ensures InTagOrder(ts, lo) && LastTag(ts, lo) == lo
  {
    if ts != [] {
      assert FieldFree(ts[1..]) by {
        forall i | 0 <= i < |ts| - 1 ensures !ts[1..][i].Field? {
          assert ts[1..][i] == ts[i + 1];
        }
      }
      FieldFreeProjections(ts[1..], tag, lo);
    }
  }

  /**
    Tag order means what it says: every field's tag is above `lo`, and of two fields the earlier
    one has the smaller tag, so no tag occurs twice.
  */
  lemma {:induction false} InTagOrderSorted(ts: seq<Token>, lo: int)
    requires InTagOrder(ts, lo)
    ensures forall i :: 0 <= i < |ts| && ts[i].Field? ==> lo < ts[i].tag as int
    ensures forall i, j :: 0 <= i < j < |ts| && ts[i].Field? && ts[j].Field? ==> ts[i].tag < ts[j].tag
  {
    if ts != [] {
      var next := if ts[0].Field? then ts[0].tag as int else lo;
      InTagOrderSorted(ts[1..], next);
      forall i | 0 < i < |ts| ensures ts[i] == ts[1..][i - 1] { }
    }
  }

  /** What a one-token stretch contributes to each projection. */
  lemma Single(t: Token, tag: Tag, lo: int)
    ensures Lookup([t], tag) == if t.Field? && t.tag == tag then Some(t.value) else None
    ensures Outline([t]) == (if t.Markup? then [t.text] else [])
    ensures Embeds([t]) == (if t.Embedded? then [t.xml] else [])
    ensures InTagOrder([t], lo) <==> (t.Field? ==> lo < t.tag as int)
    ensures LastTag([t], lo) == if t.Field? then t.tag as int else lo
  {
    assert [t][1..] == [];
  }

  /** The markup of six stretches one after the other. */
  lemma OutlineJoin(a: seq<Token>, b: seq<Token>, c: seq<Token>, d: seq<Token>, e: seq<Token>, f: seq<Token>)
    ensures Outline(a + b + c + d + e + f) == Outline(a) + Outline(b) + Outline(c) + Outline(d) + Outline(e) + Outline(f)
  {
    OutlineAppend(a, b);
    OutlineAppend(a + b, c);
    OutlineAppend(a + b + c, d);
    OutlineAppend(a + b + c + d, e);
    OutlineAppend(a + b + c + d + e, f);
  }

  /** The embedded outputs of six stretches one after the other. */
  lemma EmbedsJoin(a: seq<Token>, b: seq<Token>, c: seq<Token>, d: seq<Token>, e: seq<Token>, f: seq<Token>)
    ensures Embeds(a + b + c + d + e + f) == Embeds(a) + Embeds(b) + Embeds(c) + Embeds(d) + Embeds(e) + Embeds(f)
  {
    EmbedsAppend(a, b);
    EmbedsAppend(a + b, c);
    EmbedsAppend(a + b + c, d);
    EmbedsAppend(a + b + c + d, e);
    EmbedsAppend(a + b + c + d + e, f);
  }

  /** The row of a tag in two tables one after the other is the row in whichever table covers it. */
  lemma RowValueAppend(a: seq<Slot>, b: seq<Slot>, base: nat, tag: Tag)
    ensures RowValue(a + b, base, tag) == if tag as int - base < |a| then RowValue(a, base, tag) else RowValue(b, base + |a|, tag)
  {
    var k := tag as int - base;
    if 0 <= k < |a| + |b| {
      assert (a + b)[k] == if k < |a| then a[k] else b[k - |a|];
    }
  }
}
