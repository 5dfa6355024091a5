/** The scene interpreter of example.cpp: the colour decoder with three names
    whose numeric branch subscripts the scalar itself, the handlers for text,
    rectangles and glyph runs placed along the x axis, an image handler that
    draws nothing, and a dispatcher that does not descend into stacking
    contexts. */
module ExampleScene {
  import opened Results
  import opened NumberText
  import opened YamlNode
  import opened Canvas
  import opened Convert
  import opened SceneCommon

  // ---------------------------------------------------------------------
  // Decoders

  /** The colour names `convert<SkColorW>` knows, in the order it tests them. */
  function NamedColor(name: string): (r: Option<Color>)
    ensures r.Some? <==> name in {"red", "green", "blue"}
  {
    if name == "red" then Some(ColorRed)
    else if name == "green" then Some(ColorGreen)
    else if name == "blue" then Some(ColorBlue)
    else None
  }

  /** `node.as<SkColorW>()`: a scalar that is a colour name decodes to it.
      Four numbers take the branch that reads the components as `node[0]` to
      `node[3]`, and subscripting a scalar throws. The second numeric branch
      tests for four components again and is never taken. Anything else makes
      the decoder refuse, and `as` throws. */
  function ColorOf(c: Option<Node>): (r: Result<Color>)
    ensures r.Ok? <==> c.Some? && c.value.Scalar? && NamedColor(c.value.text).Some?
    ensures r.Ok? ==> r.value == NamedColor(c.value.text).value
    ensures c.Some? && c.value.Scalar? && NamedColor(c.value.text).None? ==>
              r == if |NumberList(c.value.text)| == 4 then Err(BadSubscript) else Err(BadConversion)
  {
    if c.None? || !c.value.Scalar? then Err(BadConversion)
    else
      match NamedColor(c.value.text)
      case Some(color) => Ok(color)
      case None =>
        var vec := NumberList(c.value.text);
        // `node[0]` on a scalar
        if |vec| == 4 then Err(BadSubscript)
        // the repeated test for four components, meant for three: never taken
        else if |vec| == 4 then assert false; Err(BadConversion)
        else Err(BadConversion)
  }

  /** `if (item["color"]) paint.setColor(item["color"].as<SkColorW>().color);`:
      only the colour changes, and only when the key is there. */
  function ColorStep(p: Paint, n: Node): (r: Result<Paint>)
    ensures !Defined(n, "color") ==> r == Ok(p)
    ensures Defined(n, "color") ==> r.Ok? == ColorOf(Lookup(n, "color")).Ok?
    ensures r.Ok? ==> r.value.(color := p.color) == p
    ensures r.Ok? && Defined(n, "color") ==> r.value.color == ColorOf(Lookup(n, "color")).value
  {
    if Defined(n, "color") then
      var color :- ColorOf(Lookup(n, "color"));
      Ok(p.(color := color))
    else Ok(p)
  }

  /** `if (item["size"]) paint.setTextSize(item["size"].as<int>());`: the size
      must be a whole 32-bit integer and is used as it is given. */
  function SizeStep(p: Paint, n: Node): (r: Result<Paint>)
    ensures !Defined(n, "size") ==> r == Ok(p)
    ensures Defined(n, "size") ==> r.Ok? == AsInt(Lookup(n, "size")).Ok?
    ensures r.Ok? && Defined(n, "size") ==>
              r.value == SetTextSize(p, AsInt(Lookup(n, "size")).value as real)
  {
    if Defined(n, "size") then
      var size :- AsInt(Lookup(n, "size"));
      Ok(SetTextSize(p, size as real))
    else Ok(p)
  }

  // ---------------------------------------------------------------------
  // Glyph positions: `for (auto i : item["positions"])` reading each entry
  // as the x of a point on the axis.

  /** The points of the position nodes `xs`, or the failure of the first that
      is not a number. */
  function Positions(xs: seq<Node>): (r: Result<seq<Point>>)
    ensures r.Ok? <==> forall i | 0 <= i < |xs| :: AsReal(Some(xs[i])).Ok?
    ensures r.Ok? ==> |r.value| == |xs|
    ensures r.Ok? ==> forall i | 0 <= i < |xs| :: r.value[i] == Point(AsReal(Some(xs[i])).value, 0.0)
  {
    if xs == [] then Ok([])
    else
      var init :- Positions(xs[..|xs| - 1]);
      var x :- AsReal(Some(xs[|xs| - 1]));
      assert forall i | 0 <= i < |xs| - 1 :: xs[..|xs| - 1][i] == xs[i];
      Ok(init + [Point(x, 0.0)])
  }

  /** The points a range-for over the (possibly undefined) node `c` collects. */
  function PositionList(c: Option<Node>): (r: Result<seq<Point>>)
    ensures Elements(c).Err? ==> r.Err?
    ensures Elements(c).Ok? ==> r == Positions(Elements(c).value)
  {
    var xs :- Elements(c);
    Positions(xs)
  }

  method CollectPositions(c: Option<Node>) returns (r: Result<seq<Point>>)
    ensures r == PositionList(c)
  {
    var elements := Elements(c);
    if elements.Err? {
      return Err(elements.failure);
    }
    var xs := elements.value;
    var offsets: seq<Point> := [];
    for i := 0 to |xs|
      invariant Positions(xs[..i]) == Ok(offsets)
    {
      var x := AsReal(Some(xs[i]));
      assert xs[..i + 1][..i] == xs[..i];
      if x.Err? {
        PositionsStop(xs, i + 1);
        return Err(x.failure);
      }
      offsets := offsets + [Point(x.value, 0.0)];
    }
    assert xs[..|xs|] == xs;
    r := Ok(offsets);
  }

  /** Once a prefix of the position nodes fails, the whole list fails the same way. */
  lemma {:induction false} PositionsStop(xs: seq<Node>, k: nat)
    requires k <= |xs| && Positions(xs[..k]).Err?
    ensures Positions(xs) == Positions(xs[..k])
    decreases |xs| - k
  {
    if k < |xs| {
      assert xs[..k + 1][..k] == xs[..k];
      PositionsStop(xs, k + 1);
    } else {
      assert xs[..k] == xs;
    }
  }

  // ---------------------------------------------------------------------
  // Handlers

  /** `drawText`: the text at the first two numbers of "origin", with the
      colour and the size when they are given, and otherwise the default
      paint (no antialiasing, UTF-8 text). */
  function TextCommand(n: Node): (r: Result<Command>)
    ensures r.Ok? ==> r.value.DrawText? && !r.value.paint.antiAlias && r.value.paint.encoding == Utf8
    ensures r.Ok? <==> !n.Scalar? && AsNumbers(Lookup(n, "origin")).Ok?
                       && |AsNumbers(Lookup(n, "origin")).value| >= 2
                       && ColorStep(DefaultPaint, n).Ok?
                       && SizeStep(ColorStep(DefaultPaint, n).value, n).Ok?
                       && AsString(Lookup(n, "text")).Ok?
    ensures r.Ok? ==>
              var origin := AsNumbers(Lookup(n, "origin")).value;
              r.value.text == CStr(n.entries["text"].text)
              && r.value.x == origin[0] && r.value.y == origin[1]
              && r.value.paint == SizeStep(ColorStep(DefaultPaint, n).value, n).value
  {
    if n.Scalar? then Err(BadSubscript)
    else
      var origin :- AsNumbers(Lookup(n, "origin"));
      var colored :- ColorStep(DefaultPaint, n);
      var paint :- SizeStep(colored, n);
      var text :- AsString(Lookup(n, "text"));
      if |origin| < 2 then Err(OutOfRange)
      else Ok(Command.DrawText(CStr(text), origin[0], origin[1], paint))
  }

  /** `drawRect`: the rectangle of "rect" (there is no "bounds" fallback),
      with the colour when it is given. */
  function RectCommand(n: Node): (r: Result<Command>)
    ensures r.Ok? ==> r.value.DrawRect? && r.value.paint.(color := DefaultPaint.color) == DefaultPaint
    ensures r.Ok? <==> !n.Scalar? && AsRect(Lookup(n, "rect")).Ok? && ColorStep(DefaultPaint, n).Ok?
    ensures r.Ok? ==> r.value.rect == AsRect(Lookup(n, "rect")).value
                      && r.value.paint == ColorStep(DefaultPaint, n).value
  {
    if n.Scalar? then Err(BadSubscript)
    else
      var bounds :- AsRect(Lookup(n, "rect"));
      var paint :- ColorStep(DefaultPaint, n);
      Ok(Command.DrawRect(bounds, paint))
  }

  /** `drawGlyphs`: glyph ids from "glyphs" and points on the x axis from
      "positions", then a positioned run whose byte length is two bytes per
      glyph id, with the colour when it is given. Nothing checks that there
      are as many points as glyph ids, and the paint keeps its UTF-8 text
      encoding. */
  function GlyphsCommand(n: Node): (r: Result<Command>)
    ensures r.Ok? ==> r.value.DrawPosText? && r.value.paint.encoding == Utf8 && !r.value.paint.antiAlias
    ensures r.Ok? <==> !n.Scalar? && GlyphList(Lookup(n, "glyphs")).Ok?
                       && PositionList(Lookup(n, "positions")).Ok? && ColorStep(DefaultPaint, n).Ok?
    ensures r.Ok? ==>
              r.value.glyphs == GlyphList(Lookup(n, "glyphs")).value
              && r.value.points == PositionList(Lookup(n, "positions")).value
              && r.value.byteLength == 2 * |r.value.glyphs|
              && r.value.paint == ColorStep(DefaultPaint, n).value
  {
    if n.Scalar? then Err(BadSubscript)
    else
      var indices :- GlyphList(Lookup(n, "glyphs"));
      var offsets :- PositionList(Lookup(n, "positions"));
      var paint :- ColorStep(DefaultPaint, n);
      Ok(Command.DrawPosText(indices, 2 * |indices|, offsets, paint))
  }

  // ---------------------------------------------------------------------
  // Dispatch

  /** `drawItem`'s choice: the first of the keys text, rect, image, glyphs and
      stacking_context that the node has picks the handler; the image handler
      and the stacking-context branch draw nothing, and so does a node with
      none of the keys. Testing a key of a scalar throws. */
  function HandlerOf(n: Node): (r: Result<Handler>)
    ensures r.Err? <==> n.Scalar?
    ensures r.Ok? ==> r.value != StackingHandler
  {
    if n.Scalar? then Err(BadSubscript)
    else if Defined(n, "text") then Ok(TextHandler)
    else if Defined(n, "rect") then Ok(RectHandler)
    else if Defined(n, "image") then Ok(ImageHandler)
    else if Defined(n, "glyphs") then Ok(GlyphsHandler)
    else Ok(Skip)
  }

  /** What each handler draws for the node `n`: `drawImage` has an empty body. */
  function Handle(h: Handler, n: Node): Trace {
    match h
    case TextHandler => Single(TextCommand(n))
    case RectHandler => Single(RectCommand(n))
    case GlyphsHandler => Single(GlyphsCommand(n))
    case _ => Done
  }

  /** `drawItem`: what the chosen handler draws. */
  function ItemTrace(n: Node): Trace {
    match HandlerOf(n)
    case Err(_) => Stop
    case Ok(h) => Handle(h, n)
  }

  // ---------------------------------------------------------------------
  // What the decoders and the dispatcher promise

  /** The three names decode to their colour constants. */
  lemma {:induction false} NamedColorsDecode()
    ensures ColorOf(Some(Scalar("red"))) == Ok(ColorRed)
    ensures ColorOf(Some(Scalar("green"))) == Ok(ColorGreen)
    ensures ColorOf(Some(Scalar("blue"))) == Ok(ColorBlue)
  {
  }

  /** A list of integers is never a colour name. */
  lemma {:induction false} JoinIsNotNamed(xs: seq<int>)
    ensures NamedColor(Join(xs)).None?
  {
    if xs != [] {
      JoinStart(xs);
    }
  }

  /** Four components written as integers throw: the decoder subscripts the
      scalar instead of the numbers read from it. */
  lemma {:induction false} FourComponentsThrow(r: int, g: int, b: int, a: int)
    ensures ColorOf(Some(Scalar(Join([r, g, b, a])))) == Err(BadSubscript)
  {
    JoinIsNotNamed([r, g, b, a]);
    NumberListOfJoin([r, g, b, a]);
  }

  /** Any other number of components makes the decoder refuse, three
      included: the branch meant for them repeats the test for four. */
  lemma {:induction false} OtherComponentCountsFail(xs: seq<int>)
    requires |xs| != 4
    ensures ColorOf(Some(Scalar(Join(xs)))) == Err(BadConversion)
  {
    JoinIsNotNamed(xs);
    NumberListOfJoin(xs);
  }

  /** The glyph run places one point per position entry, in order, at that
      entry's number on the x axis. */
  lemma {:induction false} GlyphPointsOnAxis(n: Node)
    requires GlyphsCommand(n).Ok?
    ensures Elements(Lookup(n, "positions")).Ok?
    ensures var xs := Elements(Lookup(n, "positions")).value;
            var pts := GlyphsCommand(n).value.points;
            |pts| == |xs| && forall i | 0 <= i < |xs| :: pts[i] == Point(AsReal(Some(xs[i])).value, 0.0)
  {
  }

  /** `drawItem`'s first-match order: a scalar throws; otherwise the first of
      text, rect, image and glyphs the node has picks the handler, the image
      handler drawing nothing; a node with none of them draws nothing,
      stacking contexts included. */
  lemma {:induction false} ItemDispatch(n: Node)
    ensures n.Scalar? ==> ItemTrace(n) == Stop
    ensures Defined(n, "text") ==> ItemTrace(n) == Single(TextCommand(n))
    ensures !Defined(n, "text") && Defined(n, "rect") ==> ItemTrace(n) == Single(RectCommand(n))
    ensures !Defined(n, "text") && !Defined(n, "rect") && Defined(n, "image") ==> ItemTrace(n) == Done
    ensures !Defined(n, "text") && !Defined(n, "rect") && !Defined(n, "image") && Defined(n, "glyphs")
            ==> ItemTrace(n) == Single(GlyphsCommand(n))
    ensures !n.Scalar? && !Defined(n, "text") && !Defined(n, "rect") && !Defined(n, "image")
            && !Defined(n, "glyphs")
            ==> ItemTrace(n) == Done
  {
  }

  /** An image item draws nothing. */
  lemma {:induction false} ImageDrawsNothing(n: Node)
    requires n.Map? && !Defined(n, "text") && !Defined(n, "rect") && Defined(n, "image")
    ensures ItemTrace(n) == Done
  {
  }

  /** A stacking context is not descended into: its children are not drawn. */
  lemma {:induction false} StackingDrawsNothing(n: Node)
    requires n.Map? && !Defined(n, "text") && !Defined(n, "rect") && !Defined(n, "image")
             && !Defined(n, "glyphs") && Defined(n, "stacking_context")
    ensures ItemTrace(n) == Done
  {
  }

  /** A drawing command: neither a save, a restore nor a translation. */
  predicate IsDraw(c: Command) {
    c.DrawText? || c.DrawRect? || c.DrawPosText?
  }

  /** Every item records at most one command, and never a save, a restore or
      a translation: the canvas state is the same after any item. */
  lemma {:induction false} ItemFlat(n: Node)
    ensures |ItemTrace(n).cmds| <= 1 && forall i | 0 <= i < |ItemTrace(n).cmds| :: IsDraw(ItemTrace(n).cmds[i])
    ensures Depth(ItemTrace(n).cmds) == 0 && Nested(ItemTrace(n).cmds)
  {
    if HandlerOf(n).Ok? {
      HandleFlat(HandlerOf(n).value, n);
    }
    DrawsKeepDepth(ItemTrace(n).cmds);
  }

  lemma {:induction false} HandleFlat(h: Handler, n: Node)
    ensures |Handle(h, n).cmds| <= 1 && forall i | 0 <= i < |Handle(h, n).cmds| :: IsDraw(Handle(h, n).cmds[i])
  {
    match h
    case TextHandler => assert TextCommand(n).Ok? ==> IsDraw(TextCommand(n).value);
    case RectHandler => assert RectCommand(n).Ok? ==> IsDraw(RectCommand(n).value);
    case GlyphsHandler => assert GlyphsCommand(n).Ok? ==> IsDraw(GlyphsCommand(n).value);
    case _ =>
  }

  /** At most one drawing command opens and closes no save. */
  lemma {:induction false} DrawsKeepDepth(cmds: seq<Command>)
    requires |cmds| <= 1 && forall i | 0 <= i < |cmds| :: IsDraw(cmds[i])
    ensures Depth(cmds) == 0 && Nested(cmds)
  {
    if cmds != [] {
      assert IsDraw(cmds[0]) && Delta(cmds[0]) == 0;
      NestedAppend([], cmds[0]);
      assert [] + [cmds[0]] == cmds;
    }
  }

  // ---------------------------------------------------------------------
  // The interpreter drawing into a recording canvas

  method DrawText(c: Recorder, n: Node) returns (ok: bool)
    modifies c
    ensures c.depth == old(c.depth)
    ensures c.log == old(c.log) + Single(TextCommand(n)).cmds && ok == TextCommand(n).Ok?
  {
    if n.Scalar? {
      return false;
    }
    var origin := DecodeNumbers(Lookup(n, "origin"));
    if origin.Err? {
      return false;
    }
    var colored := ColorStep(DefaultPaint, n);
    if colored.Err? {
      return false;
    }
    var paint := SizeStep(colored.value, n);
    if paint.Err? {
      return false;
    }
    var text := AsString(Lookup(n, "text"));
    if text.Err? {
      return false;
    }
    if |origin.value| < 2 {
      return false;
    }
    c.DrawText(CStr(text.value), origin.value[0], origin.value[1], paint.value);
    ok := true;
  }

  method DrawRect(c: Recorder, n: Node) returns (ok: bool)
    modifies c
    ensures c.depth == old(c.depth)
    ensures c.log == old(c.log) + Single(RectCommand(n)).cmds && ok == RectCommand(n).Ok?
  {
    if n.Scalar? {
      return false;
    }
    var bounds := AsRect(Lookup(n, "rect"));
    if bounds.Err? {
      return false;
    }
    var paint := ColorStep(DefaultPaint, n);
    if paint.Err? {
      return false;
    }
    c.DrawRect(bounds.value, paint.value);
    ok := true;
  }

  method DrawGlyphs(c: Recorder, n: Node) returns (ok: bool)
    modifies c
    ensures c.depth == old(c.depth)
    ensures c.log == old(c.log) + Single(GlyphsCommand(n)).cmds && ok == GlyphsCommand(n).Ok?
  {
    if n.Scalar? {
      return false;
    }
    var indices := CollectGlyphIds(Lookup(n, "glyphs"));
    if indices.Err? {
      return false;
    }
    var offsets := CollectPositions(Lookup(n, "positions"));
    if offsets.Err? {
      return false;
    }
    var paint := ColorStep(DefaultPaint, n);
    if paint.Err? {
      return false;
    }
    c.DrawPosText(indices.value, 2 * |indices.value|, offsets.value, paint.value);
    ok := true;
  }

  /** `drawItem`: picks the handler; nothing it draws changes the open saves. */
  method DrawItem(c: Recorder, n: Node) returns (ok: bool)
    modifies c
    ensures c.depth == old(c.depth)
    ensures c.log == old(c.log) + ItemTrace(n).cmds && ok == ItemTrace(n).ok
  {
    if n.Scalar? {
      return false;
    }
    if Defined(n, "text") {
      ok := DrawText(c, n);
    } else if Defined(n, "rect") {
      ok := DrawRect(c, n);
    } else if Defined(n, "image") {
      // `drawImage` does nothing
      ok := true;
    } else if Defined(n, "glyphs") {
      ok := DrawGlyphs(c, n);
    } else {
      ok := true;
    }
  }
}
