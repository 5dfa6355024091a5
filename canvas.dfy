/** The drawing canvas the scene programs record into, abstracted as the log of
    commands it receives. Skia's own rendering, paint internals and colour
    packing are outside the model: each command carries its arguments as an
    opaque payload. */
module Canvas {
  import opened Results

  /** A paint colour: a packed 32-bit ARGB constant, or the four float
      components handed to `SkColor4f::toSkColor` (the packing is not modelled). */
  datatype Color = Packed(argb: nat) | FromFloats(r: real, g: real, b: real, a: real)

  const ColorBlack: Color := Packed(0xFF00_0000)
  const ColorWhite: Color := Packed(0xFFFF_FFFF)
  const ColorRed: Color := Packed(0xFFFF_0000)
  const ColorGreen: Color := Packed(0xFF00_FF00)
  const ColorBlue: Color := Packed(0xFF00_00FF)

  /** An `SkRect`: its left, top, right and bottom edges. */
  datatype Rect = Rect(left: real, top: real, right: real, bottom: real)

  /** `SkRect::MakeXYWH`. */
  function MakeXYWH(x: real, y: real, w: real, h: real): (r: Rect)
    ensures r.left == x && r.top == y
    ensures r.right - r.left == w && r.bottom - r.top == h
  {
    Rect(x, y, x + w, y + h)
  }

  datatype Point = Point(x: real, y: real)

  /** `SkTypeface::MakeFromName(family, SkFontStyle(weight, normal width, upright))`. */
  datatype Typeface = Typeface(family: string, weight: int)

  /** The text encoding of a paint: UTF-8 by default, glyph ids when set. */
  datatype TextEncoding = Utf8 | GlyphId

  datatype Paint = Paint(color: Color, textSize: real, antiAlias: bool,
                         typeface: Option<Typeface>, encoding: TextEncoding)

  /** A default-constructed `SkPaint`: black, 12-point text, no antialiasing,
      the default typeface, UTF-8 text. */
  const DefaultPaint: Paint := Paint(ColorBlack, 12.0, false, None, Utf8)

  /** `SkPaint::setTextSize`, which ignores a negative size. */
  function SetTextSize(p: Paint, size: real): (q: Paint)
    ensures q.textSize == (if size >= 0.0 then size else p.textSize)
    ensures q.(textSize := p.textSize) == p
  {
    if size >= 0.0 then p.(textSize := size) else p
  }

  datatype Command =
    | Save
    | Restore
    | Translate(dx: real, dy: real)
    | DrawRect(rect: Rect, paint: Paint)
    | DrawText(text: string, x: real, y: real, paint: Paint)
    | DrawPosText(glyphs: seq<nat>, byteLength: nat, points: seq<Point>, paint: Paint)
    | DrawImage(path: string, left: real, top: real)

  /** How a command changes the number of open saves. */
  function Delta(c: Command): int {
    match c
    case Save => 1
    case Restore => -1
    case _ => 0
  }

  /** The number of saves a log leaves open. */
  function Depth(cmds: seq<Command>): int {
    if cmds == [] then 0 else Depth(cmds[..|cmds| - 1]) + Delta(cmds[|cmds| - 1])
  }

  /** No prefix of the log restores more than it saved. */
  predicate Nested(cmds: seq<Command>) {
    cmds == [] || (Nested(cmds[..|cmds| - 1]) && Depth(cmds) >= 0)
  }

  /** What a piece of the interpreter does to the canvas: the commands it
      issues, and whether it comes to its end (false: the program stops after
      these commands, by an exception, a failed assertion or an out-of-range
      access). */
  datatype Trace = Trace(cmds: seq<Command>, ok: bool)

  const Done: Trace := Trace([], true)
  const Stop: Trace := Trace([], false)

  /** Run `a`, then, if it came to its end, `b`. */
  function Then(a: Trace, b: Trace): Trace {
    if a.ok then Trace(a.cmds + b.cmds, b.ok) else a
  }

  /** A handler that decodes its arguments and, if that succeeds, issues one command. */
  function Single(r: Result<Command>): Trace {
    if r.Ok? then Trace([r.value], true) else Stop
  }

  lemma {:induction false} NestedDepth(cmds: seq<Command>)
    requires Nested(cmds)
    ensures Depth(cmds) >= 0
  {
  }

  lemma {:induction false} DepthConcat(a: seq<Command>, b: seq<Command>)
    ensures Depth(a + b) == Depth(a) + Depth(b)
  {
    if b != [] {
      var b' := b[..|b| - 1];
      assert (a + b)[..|a + b| - 1] == a + b';
      DepthConcat(a, b');
    } else {
      assert a + b == a;
    }
  }

  /** Two logs in which no prefix over-restores make one with the same property. */
  lemma {:induction false} NestedConcat(a: seq<Command>, b: seq<Command>)
    requires Nested(a) && Nested(b)
    ensures Nested(a + b)
  {
    if b == [] {
      assert a + b == a;
    } else {
      var b' := b[..|b| - 1];
      assert (a + b)[..|a + b| - 1] == a + b';
      NestedConcat(a, b');
      DepthConcat(a, b);
      NestedDepth(a);
    }
  }

  lemma {:induction false} NestedAppend(a: seq<Command>, c: Command)
    requires Nested(a) && Depth(a) + Delta(c) >= 0
    ensures Nested(a + [c]) && Depth(a + [c]) == Depth(a) + Delta(c)
  {
    assert (a + [c])[..|a|] == a;
  }

  /** A save, a translation, a well-nested body and a restore: the open saves
      of the body plus one are left open before the restore. */
  lemma {:induction false} BracketNested(dx: real, dy: real, body: seq<Command>)
    requires Nested(body)
    ensures Nested([Save, Translate(dx, dy)] + body)
    ensures Depth([Save, Translate(dx, dy)] + body) == 1 + Depth(body)
  {
    var head := [Save, Translate(dx, dy)];
    assert [Save] + [Translate(dx, dy)] == head;
    NestedAppend([], Save);
    assert [] + [Save] == [Save];
    NestedAppend([Save], Translate(dx, dy));
    NestedConcat(head, body);
    DepthConcat(head, body);
  }

  /** A trace that never restores more than it saved, and that closes every
      save it makes when it comes to its end. */
  predicate WellBracketed(t: Trace) {
    Nested(t.cmds) && (t.ok ==> Depth(t.cmds) == 0)
  }

  lemma {:induction false} ThenWellBracketed(a: Trace, b: Trace)
    requires WellBracketed(a) && WellBracketed(b)
    ensures WellBracketed(Then(a, b))
  {
    if a.ok {
      NestedConcat(a.cmds, b.cmds);
      DepthConcat(a.cmds, b.cmds);
    }
  }

  /** A single drawing command leaves the saves as they were. */
  lemma {:induction false} SingleWellBracketed(r: Result<Command>)
    requires r.Ok? ==> Delta(r.value) == 0
    ensures WellBracketed(Single(r))
  {
    if r.Ok? {
      NestedAppend([], r.value);
      assert [] + [r.value] == [r.value];
    }
  }

  /** `save(); translate(dx, dy);` then `body`, then, if the body came to its
      end, `restore()`. */
  function Bracket(dx: real, dy: real, body: Trace): (t: Trace)
    ensures t.ok == body.ok
    ensures |t.cmds| == 2 + |body.cmds| + (if body.ok then 1 else 0)
    ensures t.cmds[..2] == [Save, Translate(dx, dy)] && t.cmds[2..2 + |body.cmds|] == body.cmds
    ensures body.ok ==> t.cmds[|t.cmds| - 1] == Restore
  {
    var prefix := [Save, Translate(dx, dy)] + body.cmds;
    if body.ok then Trace(prefix + [Restore], true) else Trace(prefix, false)
  }

  /** Bracketing a well-bracketed body gives a well-bracketed trace: the save
      is closed by the restore exactly when the body comes to its end. */
  lemma {:induction false} BracketWellBracketed(dx: real, dy: real, body: Trace)
    requires WellBracketed(body)
    ensures WellBracketed(Bracket(dx, dy, body))
  {
    var prefix := [Save, Translate(dx, dy)] + body.cmds;
    BracketNested(dx, dy, body.cmds);
    if body.ok {
      NestedAppend(prefix, Restore);
    }
  }

  /** A log that has recorded `a`, which came to its end, and then `b` has
      recorded `Then(a, b)`. */
  lemma {:induction false} LogThen(l0: seq<Command>, a: Trace, b: Trace, l1: seq<Command>, l2: seq<Command>)
    requires a.ok && l1 == l0 + a.cmds && l2 == l1 + b.cmds
    ensures l2 == l0 + Then(a, b).cmds
  {
    assert l0 + a.cmds + b.cmds == l0 + (a.cmds + b.cmds);
  }

  /** A log that has recorded a save, a translation, a body and, if the
      body came to its end, a restore has recorded the bracketed body. */
  lemma {:induction false} LogBracket(l0: seq<Command>, dx: real, dy: real, body: Trace, l1: seq<Command>, l2: seq<Command>)
    requires l1 == l0 + [Save]
    requires l2 == l1 + [Translate(dx, dy)] + body.cmds + (if body.ok then [Restore] else [])
    ensures l2 == l0 + Bracket(dx, dy, body).cmds
  {
    if body.ok {
      assert l2 == l0 + ([Save, Translate(dx, dy)] + body.cmds + [Restore]);
    } else {
      assert l2 == l0 + ([Save, Translate(dx, dy)] + body.cmds) + [];
    }
  }

  /** The recording canvas, as the interpreter sees it: the commands recorded
      so far and how many saves are open. */
  class Recorder {
    var log: seq<Command>
    var depth: nat

    constructor ()
      ensures log == [] && depth == 0
    {
      log := [];
      depth := 0;
    }

    method Save()
      modifies this
      ensures log == old(log) + [Command.Save] && depth == old(depth) + 1
    {
      log := log + [Command.Save];
      depth := depth + 1;
    }

    /** Restoring with no open save records nothing, as a recording canvas does. */
    method Restore()
      modifies this
      ensures old(depth) > 0 ==> log == old(log) + [Command.Restore] && depth == old(depth) - 1
      ensures old(depth) == 0 ==> log == old(log) && depth == 0
    {
      if depth > 0 {
        log := log + [Command.Restore];
        depth := depth - 1;
      }
    }

    method Translate(dx: real, dy: real)
      modifies this
      ensures log == old(log) + [Command.Translate(dx, dy)] && depth == old(depth)
    {
      log := log + [Command.Translate(dx, dy)];
    }

    method DrawRect(rect: Rect, paint: Paint)
      modifies this
      ensures log == old(log) + [Command.DrawRect(rect, paint)] && depth == old(depth)
    {
      log := log + [Command.DrawRect(rect, paint)];
    }

    method DrawText(text: string, x: real, y: real, paint: Paint)
      modifies this
      ensures log == old(log) + [Command.DrawText(text, x, y, paint)] && depth == old(depth)
    {
      log := log + [Command.DrawText(text, x, y, paint)];
    }

    method DrawPosText(glyphs: seq<nat>, byteLength: nat, points: seq<Point>, paint: Paint)
      modifies this
      ensures log == old(log) + [Command.DrawPosText(glyphs, byteLength, points, paint)]
      ensures depth == old(depth)
    {
      log := log + [Command.DrawPosText(glyphs, byteLength, points, paint)];
    }

    method DrawImage(path: string, left: real, top: real)
      modifies this
      ensures log == old(log) + [Command.DrawImage(path, left, top)] && depth == old(depth)
    {
      log := log + [Command.DrawImage(path, left, top)];
    }
  }
}
