/**
  The tree of org.concord.energy2d.model without its geometry: a bounding box anchored at (0, 0),
  a location offset (x, y) that moves it without recomputing its shape, a kind, a colour, and the
  attribute-omitting toXml. The Area outline, getCenter and contains are not part of this model.
*/
module Trees {
  import opened Common
  import opened Xml

  /** A Java byte. */
  newtype JByte = n: int | -128 <= n < 128

  const Regular: JByte := 0
  const Pine: JByte := 1

  /** A colour channel of java.awt.Color. */
  newtype Channel = n: int | 0 <= n < 256

  datatype Color = Color(red: Channel, green: Channel, blue: Channel, alpha: Channel)

  /** Color.green. */
  const Green := Color(0, 255, 0, 255)

  /** Color.darker(): each colour channel scaled by 0.7 and truncated, the alpha kept. */
  function Darker(c: Color): (d: Color)
    ensures d.alpha == c.alpha
    ensures d.red <= c.red && d.green <= c.green && d.blue <= c.blue
  {
    Color(Scaled(c.red), Scaled(c.green), Scaled(c.blue), c.alpha)
  }

  /** One channel times 0.7, truncated. */
  function Scaled(v: Channel): (w: Channel)
    ensures w <= v
  {
    ((v as int * 7) / 10) as Channel
  }

  /** The colour a new tree starts with: Color.green.darker(). */
  const DefaultColor := Darker(Green)

  /** `0x00ffffff & getRGB()`: the colour without its alpha, as one 24-bit number. */
  function Rgb24(c: Color): (n: int)
    ensures 0 <= n < 0x100_0000
  {
    c.red as int * 0x1_0000 + c.green as int * 0x100 + c.blue as int
  }

  /** The red, green and blue channels read back from a 24-bit number. */
  function Channels(n: int): (int, int, int)
    requires 0 <= n < 0x100_0000
  {
    (n / 0x1_0000, (n / 0x100) % 0x100, n % 0x100)
  }

  /** The written colour determines the channels: the hex value loses only the alpha. */
  lemma ChannelsOfRgb24(c: Color)
    ensures Channels(Rgb24(c)) == (c.red as int, c.green as int, c.blue as int)
  {
    var n := Rgb24(c);
    var hi := c.red as int * 0x100 + c.green as int;
    assert n == hi * 0x100 + c.blue as int;
    assert n / 0x100 == hi && n % 0x100 == c.blue as int;
    assert hi / 0x100 == c.red as int && hi % 0x100 == c.green as int;
    assert n / 0x1_0000 == hi / 0x100;
  }

  /** The default colour is not Color.green, so a tree that keeps it writes its colour. */
  lemma DefaultColorIsNotGreen()
    ensures DefaultColor == Color(0, 178, 0, 255) && DefaultColor != Green
  {
  }

  /** A tree that keeps its initial colour writes a color attribute, whatever its uid and label. */
  lemma DefaultColorWritten(uid: Option<string>, labelText: Option<string>)
    ensures "color" in OptionalNames(uid, labelText, DefaultColor)
    ensures OptionalNames(uid, labelText, DefaultColor)[|OptionalNames(uid, labelText, DefaultColor)| - 1] == "color"
  {
    DefaultColorIsNotGreen();
  }

  /** The bounding shape handed to the constructor. */
  datatype Shape = RectangleFloat(x: real, y: real, width: real, height: real) | OtherShape

  /** A uid or label that toXml writes: present and not blank. */
  predicate Present(s: Option<string>) {
    s.Some? && !IsBlank(s.value)
  }

  /** The names toXml writes for its optional attributes. */
  function OptionalNames(uid: Option<string>, labelText: Option<string>, color: Color): (r: seq<string>)
    ensures |r| == (if Present(uid) then 1 else 0) + (if Present(labelText) then 1 else 0) + (if color != Green then 1 else 0)
  {
    Opt(Present(uid), "uid") + Opt(Present(labelText), "label") + Opt(color != Green, "color")
  }

  class Tree {
    var uid: Option<string>
    var labelText: Option<string>
    var treeType: JByte
    var x: real
    var y: real
    var color: Color
    var width: real
    var height: real

    /** Everything but the location. */
    ghost function Rest(): (Option<string>, Option<string>, JByte, Color, real, real)
      reads this
    {
      (uid, labelText, treeType, color, width, height)
    }

    /** A tree on a box (0, 0, width, height), of the default kind and colour, at (0, 0). */
    constructor (width: real, height: real)
      ensures this.width == width && this.height == height
      ensures x == 0.0 && y == 0.0 && treeType == Pine && color == DefaultColor
      ensures uid == None && labelText == None
    {
      uid := None;
      labelText := None;
      treeType := Pine;
      x := 0.0;
      y := 0.0;
      color := DefaultColor;
      this.width := width;
      this.height := height;
    }

    /** The public constructor: a Rectangle2D.Float gives its size to the box, any other shape is refused. */
    static method Create(bb: Shape) returns (t: Tree?)
      ensures t == null <==> !bb.RectangleFloat?
      ensures t != null ==> fresh(t) && t.width == bb.width && t.height == bb.height
      ensures t != null ==> t.x == 0.0 && t.y == 0.0 && t.treeType == Pine && t.color == DefaultColor
      ensures t != null ==> t.uid == None && t.labelText == None
    {
      if !bb.RectangleFloat? {
        return null;
      }
      t := new Tree(0.0, 0.0);
      t.SetDimension(bb.width, bb.height);
    }

    method SetColor(color: Color)
      modifies this
      ensures this.color == color
      ensures (uid, labelText, treeType, x, y, width, height) == old((uid, labelText, treeType, x, y, width, height))
    {
      this.color := color;
    }

    method TranslateBy(dx: real, dy: real)
      modifies this
      ensures x == old(x) + dx && y == old(y) + dy
      ensures Rest() == old(Rest())
    {
      x := x + dx;
      y := y + dy;
    }

    method SetLocation(x: real, y: real)
      modifies this
      ensures this.x == x && this.y == y
      ensures Rest() == old(Rest())
    {
      this.x := x;
      this.y := y;
    }

    method SetX(x: real)
      modifies this
      ensures this.x == x && y == old(y)
      ensures Rest() == old(Rest())
    {
      this.x := x;
    }

    method SetY(y: real)
      modifies this
      ensures this.y == y && x == old(x)
      ensures Rest() == old(Rest())
    {
      this.y := y;
    }

    method SetType(treeType: JByte)
      modifies this
      ensures this.treeType == treeType
      ensures (uid, labelText, color, x, y, width, height) == old((uid, labelText, color, x, y, width, height))
    {
      this.treeType := treeType;
    }

    /** setDimension: the box becomes (0, 0, w, h); getWidth and getHeight read it back. */
    method SetDimension(w: real, h: real)
      modifies this
      ensures width == w && height == h
      ensures (uid, labelText, treeType, color, x, y) == old((uid, labelText, treeType, color, x, y))
    {
      width := w;
      height := h;
    }

    /**
      duplicate(px, py): a new tree of the same size and label centred on (px, py); its uid, kind
      and colour are those of a new tree.
    */
    method Duplicate(px: real, py: real) returns (t: Tree)
      ensures fresh(t)
      ensures t.width == width && t.height == height && t.labelText == labelText
      ensures t.x + t.width / 2.0 == px && t.y + t.height / 2.0 == py
      ensures t.uid == None && t.treeType == Pine && t.color == DefaultColor
    {
      t := new Tree(width, height);
      t.labelText := labelText;
      t.SetX(px - width / 2.0);
      t.SetY(py - height / 2.0);
    }

    /**
      toXml(): uid and label only when present and not blank, the colour only when it is not
      Color.green, then location, size and kind, in that order.
    */
    function ToXml(): (e: Element)
      reads this
      ensures e.name == "tree"
      ensures |e.attrs| == |OptionalNames(uid, labelText, color)| + 5
      ensures Names(e.attrs) == OptionalNames(uid, labelText, color) + ["x", "y", "width", "height", "type"]
      ensures Present(uid) ==> e.attrs[0].value == Text(uid.value)
      ensures Present(labelText) ==> e.attrs[if Present(uid) then 1 else 0].value == Text(labelText.value)
      ensures color != Green ==> e.attrs[|e.attrs| - 6].value == Hex(Rgb24(color))
      ensures e.attrs[|e.attrs| - 5..] == Placement(x, y, width, height, treeType)
    {
      var a := OptionalAttrs(uid, labelText, color);
      var p := Placement(x, y, width, height, treeType);
      PlacementNames(x, y, width, height, treeType);
      NamesAppend(a, p);
      assert (a + p)[|a|..] == p;
      Element("tree", a + p)
    }
  }

  /** The attributes toXml writes only under a condition: uid, label and colour. */
  function OptionalAttrs(uid: Option<string>, labelText: Option<string>, color: Color): (r: seq<Attr>)
    ensures |r| == |OptionalNames(uid, labelText, color)|
    ensures Names(r) == OptionalNames(uid, labelText, color)
    ensures Present(uid) ==> r[0].value == Text(uid.value)
    ensures Present(labelText) ==> r[if Present(uid) then 1 else 0].value == Text(labelText.value)
    ensures color != Green ==> r[|r| - 1].value == Hex(Rgb24(color))
  {
    var u := if Shown(uid) then [Attr("uid", Text(uid.value))] else [];
    var l := if Shown(labelText) then [Attr("label", Text(labelText.value))] else [];
    var c := if Green != color then [Attr("color", Hex(Rgb24(color)))] else [];
    OptNames(u, Present(uid), Attr("uid", Text(if uid.Some? then uid.value else "")));
    OptNames(l, Present(labelText), Attr("label", Text(if labelText.Some? then labelText.value else "")));
    OptNames(c, color != Green, Attr("color", Hex(Rgb24(color))));
    NamesAppend(u, l);
    NamesAppend(u + l, c);
    Concat3Parts(u, l, c);
    u + l + c
  }

  /** The attributes toXml writes whatever the tree: its location, size and kind. */
  function Placement(x: real, y: real, width: real, height: real, treeType: JByte): seq<Attr> {
    [Attr("x", Real(x)), Attr("y", Real(y)), Attr("width", Real(width)),
     Attr("height", Real(height)), Attr("type", Int(treeType as int))]
  }

  lemma PlacementNames(x: real, y: real, width: real, height: real, treeType: JByte)
    ensures Names(Placement(x, y, width, height, treeType)) == ["x", "y", "width", "height", "type"]
  {
  }

  /** Where each part of `u + l + c` sits, when each has length at most one. */
  lemma Concat3Parts<T>(u: seq<T>, l: seq<T>, c: seq<T>)
    requires |u| <= 1 && |l| <= 1 && |c| <= 1
    ensures var a := u + l + c;
      (u != [] ==> a[0] == u[0]) && (l != [] ==> a[|u|] == l[0]) && (c != [] ==> a[|a| - 1] == c[0])
  {
  }

  /** The test toXml makes of a uid or label, `s != null && !s.trim().equals("")`: it is Present. */
  function Shown(s: Option<string>): (b: bool)
    ensures b == Present(s)
  {
    if s.Some? then TrimEmptyIffBlank(s.value); Trim(s.value) != "" else false
  }
}
