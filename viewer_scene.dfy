/** The scene interpreter of viewer.cpp: the colour decoder with three names
    and a numeric branch whose condition appears twice, text sizes taken as given, the
    handlers for text, rectangles, glyph runs and images, the dispatcher
    `drawItem` and stacking contexts. */
module ViewerScene {
  import opened Results
  import opened NumberText
  import opened YamlNode
  import opened Canvas
  import opened Convert
  import opened SceneCommon

  // ---------------------------------------------------------------------
  // Decoders

  /** The colour names `convert<SkColorW>` knows, in the order it tests them. */
  function NamedColor(name: string): (r: Option<Color>)
    ensures r.Some? <==> name in {"red", "green", "blue"}
  {
    if name == "red" then Some(ColorRed)
    else if name == "green" then Some(ColorGreen)
    else if name == "blue" then Some(ColorBlue)
    else None
  }

  /** `node.as<SkColorW>()`: a scalar that is a colour name, or whose numbers
      are four components, red, green and blue divided by 255 and alpha taken
      raw. The second numeric branch tests for four components again, so it
      is never taken and three components make the decoder refuse, as does
      anything else; `as` then throws. */
  function ColorOf(c: Option<Node>): (r: Result<Color>)
    ensures r.Ok? <==> c.Some? && c.value.Scalar?
                       && (NamedColor(c.value.text).Some? || |NumberList(c.value.text)| == 4)
    ensures r.Ok? && NamedColor(c.value.text).Some? ==> r.value == NamedColor(c.value.text).value
    ensures r.Ok? && NamedColor(c.value.text).None? ==>
              var v := NumberList(c.value.text);
              r.value == FromFloats(v[0] / 255.0, v[1] / 255.0, v[2] / 255.0, v[3])
  {
    if c.None? || !c.value.Scalar? then Err(BadConversion)
    else
      match NamedColor(c.value.text)
      case Some(color) => Ok(color)
      case None =>
        var vec := NumberList(c.value.text);
        if |vec| == 4 then Ok(FromFloats(vec[0] / 255.0, vec[1] / 255.0, vec[2] / 255.0, vec[3]))
        // the repeated test for four components, meant for three: never taken
        else if |vec| == 4 then assert false; Err(BadConversion)
        else Err(BadConversion)
  }

  /** `if (item["color"]) paint.setColor(item["color"].as<SkColorW>().color);`:
      only the colour changes, and only when the key is there. */
  function ColorStep(p: Paint, n: Node): (r: Result<Paint>)
    ensures !Defined(n, "color") ==> r == Ok(p)
    ensures Defined(n, "color") ==> r.Ok? == ColorOf(Lookup(n, "color")).Ok?
    ensures r.Ok? ==> r.value.(color := p.color) == p
    ensures r.Ok? && Defined(n, "color") ==> r.value.color == ColorOf(Lookup(n, "color")).value
  {
    if Defined(n, "color") then
      var color :- ColorOf(Lookup(n, "color"));
      Ok(p.(color := color))
    else Ok(p)
  }

  /** `if (item["size"]) paint.setTextSize(item["size"].as<double>());`: the
      size is used as it is given. */
  function SizeStep(p: Paint, n: Node): (r: Result<Paint>)
    ensures !Defined(n, "size") ==> r == Ok(p)
    ensures Defined(n, "size") ==> r.Ok? == AsReal(Lookup(n, "size")).Ok?
    ensures r.Ok? && Defined(n, "size") ==> r.value == SetTextSize(p, AsReal(Lookup(n, "size")).value)
  {
    if Defined(n, "size") then
      var size :- AsReal(Lookup(n, "size"));
      Ok(SetTextSize(p, size))
    else Ok(p)
  }

  // ---------------------------------------------------------------------
  // Handlers

  /** `drawText`: the text at the first two numbers of "origin", antialiased,
      with the colour and the size when they are given. */
  function TextCommand(n: Node): (r: Result<Command>)
    ensures r.Ok? ==> r.value.DrawText? && r.value.paint.antiAlias && r.value.paint.encoding == Utf8
    ensures r.Ok? <==> !n.Scalar? && AsNumbers(Lookup(n, "origin")).Ok?
                       && |AsNumbers(Lookup(n, "origin")).value| >= 2
                       && ColorStep(DefaultPaint, n).Ok?
                       && SizeStep(ColorStep(DefaultPaint, n).value, n).Ok?
                       && AsString(Lookup(n, "text")).Ok?
    ensures r.Ok? ==>
              var origin := AsNumbers(Lookup(n, "origin")).value;
              r.value.text == CStr(n.entries["text"].text)
              && r.value.x == origin[0] && r.value.y == origin[1]
              && r.value.paint == SizeStep(ColorStep(DefaultPaint, n).value, n).value.(antiAlias := true)
  {
    if n.Scalar? then Err(BadSubscript)
    else
      var origin :- AsNumbers(Lookup(n, "origin"));
      var colored :- ColorStep(DefaultPaint, n);
      var paint :- SizeStep(colored, n);
      var text :- AsString(Lookup(n, "text"));
      if |origin| < 2 then Err(OutOfRange)
      else Ok(Command.DrawText(CStr(text), origin[0], origin[1], paint.(antiAlias := true)))
  }

  /** The key `drawRect` takes its rectangle from: "rect" when it is there,
      "bounds" otherwise. */
  function RectKey(n: Node): string {
    if Defined(n, "rect") then "rect" else "bounds"
  }

  /** `drawRect`: the rectangle of "rect", or of "bounds" when there is no
      "rect", with the colour when it is given. */
  function RectCommand(n: Node): (r: Result<Command>)
    ensures r.Ok? ==> r.value.DrawRect? && r.value.paint.(color := DefaultPaint.color) == DefaultPaint
    ensures r.Ok? <==> !n.Scalar? && AsRect(Lookup(n, RectKey(n))).Ok? && ColorStep(DefaultPaint, n).Ok?
    ensures r.Ok? ==> r.value.rect == AsRect(Lookup(n, RectKey(n))).value
                      && r.value.paint == ColorStep(DefaultPaint, n).value
  {
    if n.Scalar? then Err(BadSubscript)
    else
      var bounds :- if Defined(n, "rect") then AsRect(Lookup(n, "rect")) else AsRect(Lookup(n, "bounds"));
      var paint :- ColorStep(DefaultPaint, n);
      Ok(Command.DrawRect(bounds, paint))
  }

  /** The paint of `drawGlyphs` before its last two settings: the size, the
      typeface of the family at the weight, and the colour, which is decoded
      and set twice over. */
  function GlyphPaint(n: Node): (r: Result<Paint>)
  {
    var sized :- SizeStep(DefaultPaint, n);
    var weight :- WeightOf(n);
    var styled :- FamilyStep(sized, n, weight);
    var colored :- ColorStep(styled, n);
    ColorStep(colored, n)
  }

  /** The typeface of a glyph run: none without "family"; with it, that family
      at the weight given by "weight", or at the normal weight 400 without it. */
  lemma {:induction false} GlyphTypeface(n: Node)
    requires GlyphPaint(n).Ok?
    ensures !Defined(n, "family") ==> GlyphPaint(n).value.typeface == None
    ensures Defined(n, "family") ==>
              GlyphPaint(n).value.typeface
              == Some(Typeface(CStr(n.entries["family"].text),
                               if Defined(n, "weight") then AsInt(Lookup(n, "weight")).value else NormalWeight))
  {
  }

  /** `drawGlyphs`: glyph ids and points decoded from "glyphs" and "offsets",
      the assertion that there are as many of each, then a positioned run
      whose byte length is two bytes per glyph id, antialiased, with glyph-id
      encoding. */
  function GlyphsCommand(n: Node): (r: Result<Command>)
    ensures r.Ok? ==> r.value.DrawPosText?
    ensures r.Ok? <==> !n.Scalar? && GlyphList(Lookup(n, "glyphs")).Ok? && OffsetList(Lookup(n, "offsets")).Ok?
                       && GlyphPaint(n).Ok?
                       && |GlyphList(Lookup(n, "glyphs")).value| == |OffsetList(Lookup(n, "offsets")).value|
    ensures !n.Scalar? && GlyphList(Lookup(n, "glyphs")).Ok? && OffsetList(Lookup(n, "offsets")).Ok?
            && GlyphPaint(n).Ok?
            && |GlyphList(Lookup(n, "glyphs")).value| != |OffsetList(Lookup(n, "offsets")).value|
            ==> r == Err(AssertionFailed)
    ensures r.Ok? ==>
              r.value.glyphs == GlyphList(Lookup(n, "glyphs")).value
              && r.value.points == OffsetList(Lookup(n, "offsets")).value
              && r.value.byteLength == 2 * |r.value.glyphs|
              && r.value.paint == GlyphPaint(n).value.(encoding := GlyphId, antiAlias := true)
  {
    if n.Scalar? then Err(BadSubscript)
    else
      var indices :- GlyphList(Lookup(n, "glyphs"));
      var offsets :- OffsetList(Lookup(n, "offsets"));
      var paint :- GlyphPaint(n);
      if |indices| != |offsets| then Err(AssertionFailed)
      else Ok(Command.DrawPosText(indices, 2 * |indices|, offsets, paint.(encoding := GlyphId, antiAlias := true)))
  }

  // ---------------------------------------------------------------------
  // Dispatch and stacking contexts

  /** `drawItem`: the first of the keys text, rect, image, glyphs,
      stacking_context and type that the node has picks the handler. */
  function ItemTrace(n: Node): Trace
    decreases n, 2
  {
    if n.Scalar? then Stop
    else if Defined(n, "text") then Single(TextCommand(n))
    else if Defined(n, "rect") then Single(RectCommand(n))
    else if Defined(n, "image") then Single(ImageCommand(n))
    else if Defined(n, "glyphs") then Single(GlyphsCommand(n))
    else if Defined(n, "stacking_context") then Done
    else if Defined(n, "type") then
      match AsString(Lookup(n, "type"))
      case Err(_) => Stop
      case Ok(kind) =>
        if kind == "stacking_context" then StackingTrace(n)
        else if kind == "rect" then Single(RectCommand(n))
        else Done
    else Done
  }

  /** `drawStackingContext`: save, translate by the first two numbers of
      "bounds", draw the children, restore. */
  function StackingTrace(n: Node): Trace
    decreases n, 1
  {
    if n.Scalar? then Stop
    else
      match AsNumbers(Lookup(n, "bounds"))
      case Err(_) => Stop
      case Ok(bounds) =>
        if |bounds| < 2 then Trace([Save], false)
        else Bracket(bounds[0], bounds[1], ChildrenTrace(n))
  }

  /** `for (auto i : node["items"]) drawItem(c, i);` */
  function ChildrenTrace(n: Node): Trace
    decreases n, 0
  {
    match Lookup(n, "items")
    case Some(Seq(xs)) => ItemsTrace(xs, |xs|)
    case items => if Elements(items).Err? then Stop else Done
  }

  /** The first `k` items of `xs`, one after the other, until one stops the program. */
  function ItemsTrace(xs: seq<Node>, k: nat): Trace
    requires k <= |xs|
    decreases Seq(xs), k
  {
    if k == 0 then Done else Then(ItemsTrace(xs, k - 1), ItemTrace(xs[k - 1]))
  }

  // ---------------------------------------------------------------------
  // Save and restore stay balanced

  /** Every item leaves the canvas with the saves it found once it comes to
      its end, and never restores a save it did not make. */
  lemma {:induction false} ItemWellBracketed(n: Node)
    ensures WellBracketed(ItemTrace(n))
    decreases n, 2
  {
    if n.Scalar? {
    } else if Defined(n, "text") {
      SingleWellBracketed(TextCommand(n));
    } else if Defined(n, "rect") {
      SingleWellBracketed(RectCommand(n));
    } else if Defined(n, "image") {
      SingleWellBracketed(ImageCommand(n));
    } else if Defined(n, "glyphs") {
      SingleWellBracketed(GlyphsCommand(n));
    } else if !Defined(n, "stacking_context") && Defined(n, "type") && AsString(Lookup(n, "type")).Ok? {
      var kind := AsString(Lookup(n, "type")).value;
      if kind == "stacking_context" {
        StackingWellBracketed(n);
      } else if kind == "rect" {
        SingleWellBracketed(RectCommand(n));
      }
    }
  }

  lemma {:induction false} StackingWellBracketed(n: Node)
    ensures WellBracketed(StackingTrace(n))
    decreases n, 1
  {
    if !n.Scalar? && AsNumbers(Lookup(n, "bounds")).Ok? {
      var bounds := AsNumbers(Lookup(n, "bounds")).value;
      if |bounds| < 2 {
        NestedAppend([], Save);
        assert [] + [Save] == [Save];
      } else {
        ChildrenWellBracketed(n);
        BracketWellBracketed(bounds[0], bounds[1], ChildrenTrace(n));
      }
    }
  }

  lemma {:induction false} ChildrenWellBracketed(n: Node)
    ensures WellBracketed(ChildrenTrace(n))
    decreases n, 0
  {
    match Lookup(n, "items")
    case Some(Seq(xs)) => ItemsWellBracketed(xs, |xs|);
    case _ =>
  }

  lemma {:induction false} ItemsWellBracketed(xs: seq<Node>, k: nat)
    requires k <= |xs|
    ensures WellBracketed(ItemsTrace(xs, k))
    decreases Seq(xs), k
  {
    if k > 0 {
      ItemsWellBracketed(xs, k - 1);
      ItemWellBracketed(xs[k - 1]);
      ThenWellBracketed(ItemsTrace(xs, k - 1), ItemTrace(xs[k - 1]));
    }
  }

  // ---------------------------------------------------------------------
  // What the decoders and the dispatcher promise

  /** The three names decode to their colour constants. */
  lemma {:induction false} NamedColorsDecode()
    ensures ColorOf(Some(Scalar("red"))) == Ok(ColorRed)
    ensures ColorOf(Some(Scalar("green"))) == Ok(ColorGreen)
    ensures ColorOf(Some(Scalar("blue"))) == Ok(ColorBlue)
  {
  }

  /** "white" is not a name here: it is read as numbers, of which it has none,
      and so does not decode. */
  lemma {:induction false} WhiteIsNotAColor()
    ensures ColorOf(Some(Scalar("white"))) == Err(BadConversion)
  {
    NoNumbersAtLetter("white");
  }

  /** A list of integers is never a colour name. */
  lemma {:induction false} JoinIsNotNamed(xs: seq<int>)
    ensures NamedColor(Join(xs)).None?
  {
    if xs != [] {
      JoinStart(xs);
    }
  }

  /** Three components do not decode: the branch meant for them repeats the
      test for four. */
  lemma {:induction false} ThreeComponentsFail(r: int, g: int, b: int)
    ensures ColorOf(Some(Scalar(Join([r, g, b])))) == Err(BadConversion)
  {
    JoinIsNotNamed([r, g, b]);
    NumberListOfJoin([r, g, b]);
  }

  /** Four components written as integers: red, green and blue divided by 255,
      alpha taken as it is. */
  lemma {:induction false} FourComponentsRawAlpha(r: int, g: int, b: int, a: int)
    ensures ColorOf(Some(Scalar(Join([r, g, b, a]))))
         == Ok(FromFloats(r as real / 255.0, g as real / 255.0, b as real / 255.0, a as real))
  {
    JoinIsNotNamed([r, g, b, a]);
    NumberListOfJoin([r, g, b, a]);
  }

  /** Any number of components other than four does not decode. */
  lemma {:induction false} OtherComponentCountsFail(xs: seq<int>)
    requires |xs| != 4
    ensures ColorOf(Some(Scalar(Join(xs)))) == Err(BadConversion)
  {
    JoinIsNotNamed(xs);
    NumberListOfJoin(xs);
  }

  /** Setting the colour a second time changes nothing: the paint `drawGlyphs`
      builds has the colour set once. */
  lemma {:induction false} ColorStepTwice(p: Paint, n: Node)
    ensures ColorStep(p, n).Ok? ==> ColorStep(ColorStep(p, n).value, n) == ColorStep(p, n)
  {
  }

  /** `drawItem` picks the first handler whose key the node has. */
  lemma {:induction false} ItemDispatch(n: Node)
    ensures n.Scalar? ==> ItemTrace(n) == Stop
    ensures Defined(n, "text") ==> ItemTrace(n) == Single(TextCommand(n))
    ensures !Defined(n, "text") && Defined(n, "rect") ==> ItemTrace(n) == Single(RectCommand(n))
    ensures !Defined(n, "text") && !Defined(n, "rect") && Defined(n, "image")
            ==> ItemTrace(n) == Single(ImageCommand(n))
    ensures !Defined(n, "text") && !Defined(n, "rect") && !Defined(n, "image") && Defined(n, "glyphs")
            ==> ItemTrace(n) == Single(GlyphsCommand(n))
    ensures !Defined(n, "text") && !Defined(n, "rect") && !Defined(n, "image") && !Defined(n, "glyphs")
            && Defined(n, "stacking_context")
            ==> ItemTrace(n) == Done
    ensures !n.Scalar? && !Defined(n, "text") && !Defined(n, "rect") && !Defined(n, "image")
            && !Defined(n, "glyphs") && !Defined(n, "stacking_context") && !Defined(n, "type")
            ==> ItemTrace(n) == Done
  {
  }

  /** Without any of those keys, the value of "type" picks the handler. */
  lemma {:induction false} TypeDispatch(n: Node)
    requires !Defined(n, "text") && !Defined(n, "rect") && !Defined(n, "image") && !Defined(n, "glyphs")
             && !Defined(n, "stacking_context") && Defined(n, "type")
    ensures ItemTrace(n) == match AsString(Lookup(n, "type"))
                              case Err(_) => Stop
                              case Ok(kind) =>
                                if kind == "stacking_context" then StackingTrace(n)
                                else if kind == "rect" then Single(RectCommand(n))
                                else Done
  {
  }

  /** A stacking context with at least two bounds saves, translates by the
      first two, draws its children in order and, once they have all come to
      their end, restores. */
  lemma {:induction false} StackingShape(n: Node, bounds: seq<real>)
    requires !n.Scalar? && AsNumbers(Lookup(n, "bounds")) == Ok(bounds) && |bounds| >= 2
    ensures StackingTrace(n).ok == ChildrenTrace(n).ok
    ensures StackingTrace(n).cmds[..2] == [Save, Translate(bounds[0], bounds[1])]
    ensures StackingTrace(n).cmds[2..2 + |ChildrenTrace(n).cmds|] == ChildrenTrace(n).cmds
    ensures StackingTrace(n).ok ==> StackingTrace(n).cmds == [Save, Translate(bounds[0], bounds[1])]
                                                          + ChildrenTrace(n).cmds + [Restore]
  {
  }

  /** When every child comes to its end, their commands follow one another in order. */
  lemma {:induction false} ItemsInOrder(xs: seq<Node>, k: nat)
    requires k < |xs| && ItemsTrace(xs, k).ok
    ensures ItemsTrace(xs, k + 1).cmds == ItemsTrace(xs, k).cmds + ItemTrace(xs[k]).cmds
  {
  }

  /** The first child that stops the program ends the loop: nothing of the
      children after it is drawn. */
  lemma {:induction false} ItemsStop(xs: seq<Node>, i: nat, k: nat)
    requires i < k <= |xs| && !ItemsTrace(xs, i + 1).ok
    ensures ItemsTrace(xs, k) == ItemsTrace(xs, i + 1)
    decreases k
  {
    if k > i + 1 {
      ItemsStop(xs, i, k - 1);
    }
  }

  /** With two bounds, a stacking context is its children bracketed by a
      save and translation and a restore. */
  lemma {:induction false} StackingIsBracket(n: Node, bounds: seq<real>)
    requires !n.Scalar? && AsNumbers(Lookup(n, "bounds")) == Ok(bounds) && |bounds| >= 2
    ensures StackingTrace(n) == Bracket(bounds[0], bounds[1], ChildrenTrace(n))
  {
  }

  /** One more item drawn after the first `i`, which came to their end. */
  lemma {:induction false} ItemsAdvance(xs: seq<Node>, i: nat, l0: seq<Command>, l1: seq<Command>, l2: seq<Command>)
    requires i < |xs| && ItemsTrace(xs, i).ok
    requires l1 == l0 + ItemsTrace(xs, i).cmds && l2 == l1 + ItemTrace(xs[i]).cmds
    ensures l2 == l0 + ItemsTrace(xs, i + 1).cmds && ItemsTrace(xs, i + 1).ok == ItemTrace(xs[i]).ok
  {
    LogThen(l0, ItemsTrace(xs, i), ItemTrace(xs[i]), l1, l2);
  }

  /** A rectangle written as four integers under "rect" gives that rectangle,
      drawn with the default paint when no colour is given. */
  lemma {:induction false} RectOfJoin(n: Node, x: int, y: int, w: int, h: int)
    requires n.Map? && Lookup(n, "rect") == Some(Scalar(Join([x, y, w, h]))) && !Defined(n, "color")
    ensures RectCommand(n) == Ok(Command.DrawRect(MakeXYWH(x as real, y as real, w as real, h as real), DefaultPaint))
  {
    AsRectOfJoin(x, y, w, h, []);
    assert [x, y, w, h] + [] == [x, y, w, h];
  }

  // ---------------------------------------------------------------------
  // The interpreter drawing into a recording canvas

  method DrawText(c: Recorder, n: Node) returns (ok: bool)
    modifies c
    ensures c.depth == old(c.depth)
    ensures c.log == old(c.log) + Single(TextCommand(n)).cmds && ok == TextCommand(n).Ok?
  {
    if n.Scalar? {
      return false;
    }
    var origin := DecodeNumbers(Lookup(n, "origin"));
    if origin.Err? {
      return false;
    }
    var colored := ColorStep(DefaultPaint, n);
    if colored.Err? {
      return false;
    }
    var paint := SizeStep(colored.value, n);
    if paint.Err? {
      return false;
    }
    var text := AsString(Lookup(n, "text"));
    if text.Err? {
      return false;
    }
    if |origin.value| < 2 {
      return false;
    }
    c.DrawText(CStr(text.value), origin.value[0], origin.value[1], paint.value.(antiAlias := true));
    ok := true;
  }

  method DrawRect(c: Recorder, n: Node) returns (ok: bool)
    modifies c
    ensures c.depth == old(c.depth)
    ensures c.log == old(c.log) + Single(RectCommand(n)).cmds && ok == RectCommand(n).Ok?
  {
    if n.Scalar? {
      return false;
    }
    var bounds;
    if Defined(n, "rect") {
      bounds := AsRect(Lookup(n, "rect"));
    } else {
      bounds := AsRect(Lookup(n, "bounds"));
    }
    if bounds.Err? {
      return false;
    }
    var paint := ColorStep(DefaultPaint, n);
    if paint.Err? {
      return false;
    }
    c.DrawRect(bounds.value, paint.value);
    ok := true;
  }

  method DrawGlyphs(c: Recorder, n: Node) returns (ok: bool)
    modifies c
    ensures c.depth == old(c.depth)
    ensures c.log == old(c.log) + Single(GlyphsCommand(n)).cmds && ok == GlyphsCommand(n).Ok?
  {
    if n.Scalar? {
      return false;
    }
    var indices := CollectGlyphIds(Lookup(n, "glyphs"));
    if indices.Err? {
      return false;
    }
    var offsets := CollectOffsets(Lookup(n, "offsets"));
    if offsets.Err? {
      return false;
    }
    var paint := GlyphPaint(n);
    if paint.Err? {
      return false;
    }
    if |indices.value| != |offsets.value| {
      return false;
    }
    c.DrawPosText(indices.value, 2 * |indices.value|, offsets.value,
                  paint.value.(encoding := GlyphId, antiAlias := true));
    ok := true;
  }

  /** `drawItem`: picks the handler, and leaves the open saves as they were
      once it comes to its end. */
  method DrawItem(c: Recorder, n: Node) returns (ok: bool)
    modifies c
    ensures c.log == old(c.log) + ItemTrace(n).cmds && ok == ItemTrace(n).ok
    ensures ok ==> c.depth == old(c.depth)
    decreases n, 3
  {
    if n.Scalar? {
      return false;
    }
    if Defined(n, "text") {
      ok := DrawText(c, n);
    } else if Defined(n, "rect") {
      ok := DrawRect(c, n);
    } else if Defined(n, "image") {
      ok := SceneCommon.DrawImage(c, n);
    } else if Defined(n, "glyphs") {
      ok := DrawGlyphs(c, n);
    } else if Defined(n, "stacking_context") {
      ok := true;
    } else if Defined(n, "type") {
      var kind := AsString(Lookup(n, "type"));
      if kind.Err? {
        return false;
      }
      if kind.value == "stacking_context" {
        ok := DrawStackingContext(c, n);
      } else if kind.value == "rect" {
        ok := DrawRect(c, n);
      } else {
        ok := true;
      }
    } else {
      ok := true;
    }
  }

  /** `drawStackingContext`. */
  method DrawStackingContext(c: Recorder, n: Node) returns (ok: bool)
    modifies c
    ensures c.log == old(c.log) + StackingTrace(n).cmds && ok == StackingTrace(n).ok
    ensures ok ==> c.depth == old(c.depth)
    decreases n, 2
  {
    if n.Scalar? {
      return false;
    }
    var bounds := DecodeNumbers(Lookup(n, "bounds"));
    if bounds.Err? {
      return false;
    }
    c.Save();
    if |bounds.value| < 2 {
      return false;
    }
    ghost var saved := c.log;
    StackingIsBracket(n, bounds.value);
    ok := DrawTranslated(c, n, bounds.value[0], bounds.value[1]);
    LogBracket(old(c.log), bounds.value[0], bounds.value[1], ChildrenTrace(n), saved, c.log);
  }

  /** The part of `drawStackingContext` after the save: translate, draw the
      children and, if they all came to their end, restore. */
  method DrawTranslated(c: Recorder, n: Node, dx: real, dy: real) returns (ok: bool)
    requires c.depth > 0
    modifies c
    ensures ok == ChildrenTrace(n).ok && (ok ==> c.depth == old(c.depth) - 1)
    ensures c.log == old(c.log) + [Translate(dx, dy)] + ChildrenTrace(n).cmds + (if ok then [Restore] else [])
    decreases n, 1
  {
    c.Translate(dx, dy);
    ok := DrawChildren(c, n);
    if ok {
      c.Restore();
    }
  }

  /** The children of a stacking context, `for (auto i : node["items"]) drawItem(c, i);`. */
  method DrawChildren(c: Recorder, n: Node) returns (ok: bool)
    modifies c
    ensures c.log == old(c.log) + ChildrenTrace(n).cmds && ok == ChildrenTrace(n).ok
    ensures ok ==> c.depth == old(c.depth)
    decreases n, 0
  {
    var items := Lookup(n, "items");
    if items.Some? && items.value.Seq? {
      ok := DrawItems(c, items.value.items);
    } else {
      ok := Elements(items).Ok?;
    }
  }

  /** The loop `for (auto i : items) drawItem(c, i);` over the items `xs`. */
  method DrawItems(c: Recorder, xs: seq<Node>) returns (ok: bool)
    modifies c
    ensures ok ==> c.depth == old(c.depth)
    ensures c.log == old(c.log) + ItemsTrace(xs, |xs|).cmds && ok == ItemsTrace(xs, |xs|).ok
    decreases Seq(xs), 1
  {
    var i := 0;
    while i < |xs|
      invariant i <= |xs| && ItemsTrace(xs, i).ok
      invariant c.depth == old(c.depth) && c.log == old(c.log) + ItemsTrace(xs, i).cmds
    {
      ok := DrawNext(c, xs, i, old(c.log));
      if !ok {
        ItemsStop(xs, i, |xs|);
        return false;
      }
      i := i + 1;
    }
    ok := true;
  }

  /** One round of the item loop: item `i` drawn after the items before it. */
  method DrawNext(c: Recorder, xs: seq<Node>, i: nat, ghost l0: seq<Command>) returns (ok: bool)
    requires i < |xs| && ItemsTrace(xs, i).ok && c.log == l0 + ItemsTrace(xs, i).cmds
    modifies c
    ensures c.log == l0 + ItemsTrace(xs, i + 1).cmds && ok == ItemsTrace(xs, i + 1).ok
    ensures ok ==> c.depth == old(c.depth)
    decreases Seq(xs), 0
  {
    ghost var before := c.log;
    ok := DrawItem(c, xs[i]);
    ItemsAdvance(xs, i, l0, before, c.log);
  }
}
