/** Pieces the three copies of the scene interpreter share word for word: the
    C-string view of a text, the loops that collect glyph ids and glyph
    offsets, the image handler, and the bracketing of a trace. */
module SceneCommon {
  import opened Results
  import opened NumberText
  import opened YamlNode
  import opened Canvas
  import opened Convert

  /** `strlen(s.c_str())` characters of `s`: the text up to its first NUL. */
  function CStr(s: string): (r: string)
    ensures |r| <= |s| && r == s[..|r|]
    ensures forall i | 0 <= i < |r| :: r[i] != '\0'
    ensures |r| < |s| ==> s[|r|] == '\0'
  {
    if s == [] || s[0] == '\0' then [] else [s[0]] + CStr(s[1..])
  }

  /** `node[key]` on a node that may itself be undefined: a lookup in an
      undefined node yields an undefined node. */
  function ChildOf(c: Option<Node>, key: string): Result<Option<Node>> {
    if c.None? then Ok(None) else Child(c.value, key)
  }

  // ---------------------------------------------------------------------
  // Glyph ids: `for (auto i : item["glyphs"]) indices.push_back(i.as<uint16_t>());`

  /** The glyph ids of the nodes `xs`, or the failure of the first that is not one. */
  function GlyphIds(xs: seq<Node>): (r: Result<seq<nat>>)
    ensures r.Ok? <==> forall i | 0 <= i < |xs| :: AsUint16(Some(xs[i])).Ok?
    ensures r.Ok? ==> |r.value| == |xs|
    ensures r.Ok? ==> forall i | 0 <= i < |xs| :: r.value[i] == AsUint16(Some(xs[i])).value
  {
    if xs == [] then Ok([])
    else
      var init :- GlyphIds(xs[..|xs| - 1]);
      var g :- AsUint16(Some(xs[|xs| - 1]));
      assert forall i | 0 <= i < |xs| - 1 :: xs[..|xs| - 1][i] == xs[i];
      Ok(init + [g])
  }

  /** The glyph ids a range-for over the (possibly undefined) node `c` collects. */
  function GlyphList(c: Option<Node>): (r: Result<seq<nat>>)
    ensures Elements(c).Err? ==> r.Err?
    ensures Elements(c).Ok? ==> r == GlyphIds(Elements(c).value)
  {
    var xs :- Elements(c);
    GlyphIds(xs)
  }

  method CollectGlyphIds(c: Option<Node>) returns (r: Result<seq<nat>>)
    ensures r == GlyphList(c)
  {
    var elements := Elements(c);
    if elements.Err? {
      return Err(elements.failure);
    }
    var xs := elements.value;
    var indices: seq<nat> := [];
    for i := 0 to |xs|
      invariant GlyphIds(xs[..i]) == Ok(indices)
    {
      var g := AsUint16(Some(xs[i]));
      if g.Err? {
        assert xs[..i + 1][..i] == xs[..i];
        GlyphIdsStop(xs, i + 1);
        return Err(g.failure);
      }
      assert xs[..i + 1][..i] == xs[..i];
      indices := indices + [g.value];
    }
    assert xs[..|xs|] == xs;
    r := Ok(indices);
  }

  /** Once a prefix of the glyph nodes fails, the whole list fails the same way. */
  lemma {:induction false} GlyphIdsStop(xs: seq<Node>, k: nat)
    requires k <= |xs| && GlyphIds(xs[..k]).Err?
    ensures GlyphIds(xs) == GlyphIds(xs[..k])
    decreases |xs| - k
  {
    if k < |xs| {
      assert xs[..k + 1][..k] == xs[..k];
      GlyphIdsStop(xs, k + 1);
    } else {
      assert xs[..k] == xs;
    }
  }

  // ---------------------------------------------------------------------
  // Glyph offsets: `for (int i = 0; i < item["offsets"].size(); i += 2)`
  // reading `item["offsets"][i]` and `item["offsets"][i + 1]` as one point.

  /** `offsets[i].as<double>()` for each offset `i`. */
  function Offsets(xs: seq<Node>): (r: seq<Result<real>>)
    ensures |r| == |xs| && forall i | 0 <= i < |xs| :: r[i] == AsReal(Some(xs[i]))
  {
    seq(|xs|, i requires 0 <= i < |xs| => AsReal(Some(xs[i])))
  }

  /** The converted offsets `vs` read two at a time as the x and y of one
      point, stopping at the first that is not a number. An odd count reads
      one past the end: subscripting a sequence at its own length appends an
      undefined node, which does not convert to a number. */
  function PairPoints(vs: seq<Result<real>>): (r: Result<seq<Point>>)
    ensures r.Ok? ==> |vs| % 2 == 0 && |r.value| == |vs| / 2
    decreases |vs|
  {
    if vs == [] then Ok([])
    else
      var x :- vs[0];
      if |vs| == 1 then Err(BadConversion)
      else
        var y :- vs[1];
        var rest :- PairPoints(vs[2..]);
        Ok([Point(x, y)] + rest)
  }

  /** The offsets give points exactly when their count is even and every one
      is a number. */
  lemma {:induction false} PairPointsOk(vs: seq<Result<real>>)
    ensures PairPoints(vs).Ok? <==> |vs| % 2 == 0 && forall i | 0 <= i < |vs| :: vs[i].Ok?
    decreases |vs|
  {
    if |vs| >= 2 {
      var rest := vs[2..];
      PairPointsOk(rest);
      assert forall i | 2 <= i < |vs| :: vs[i] == rest[i - 2];
    }
  }

  /** Point `j` is made of offsets `2j` and `2j + 1`. */
  lemma {:induction false} PairPointsAt(vs: seq<Result<real>>)
    ensures PairPoints(vs).Ok? ==> forall j | 0 <= j < |vs| / 2 ::
      vs[2 * j] == Ok(PairPoints(vs).value[j].x) && vs[2 * j + 1] == Ok(PairPoints(vs).value[j].y)
    decreases |vs|
  {
    if |vs| >= 2 && PairPoints(vs).Ok? {
      var rest := vs[2..];
      assert vs[0].Ok? && vs[1].Ok?;
      PairPointsStep(vs);
      var pts := PairPoints(vs).value;
      var tail := PairPoints(rest).value;
      assert pts == [Point(vs[0].value, vs[1].value)] + tail;
      PairPointsAt(rest);
      forall j | 0 <= j < |vs| / 2
        ensures vs[2 * j] == Ok(pts[j].x) && vs[2 * j + 1] == Ok(pts[j].y)
      {
        if j > 0 {
          assert pts[j] == tail[j - 1];
          assert vs[2 * j] == rest[2 * (j - 1)] && vs[2 * j + 1] == rest[2 * (j - 1) + 1];
        }
      }
    }
  }

  /** The points the offsets loop collects from the (possibly undefined) node
      `c`. An undefined node and a scalar have size 0. A map is subscripted by
      integer keys, which this model does not follow: it fails. */
  function OffsetList(c: Option<Node>): (r: Result<seq<Point>>)
    ensures c.None? || c.value.Scalar? ==> r == Ok([])
    ensures c.Some? && c.value.Seq? ==> r == PairPoints(Offsets(c.value.items))
  {
    match c
    case None => Ok([])
    case Some(Scalar(_)) => Ok([])
    case Some(Seq(xs)) => PairPoints(Offsets(xs))
    case Some(Map(m)) => if |m| == 0 then Ok([]) else Err(BadConversion)
  }

  /** `pts` in front of the points of a successful rest; a failure stays. */
  function Prepend(pts: seq<Point>, r: Result<seq<Point>>): (q: Result<seq<Point>>)
    ensures q.Ok? == r.Ok?
    ensures r.Ok? ==> q.value == pts + r.value
    ensures r.Err? ==> q == r
  {
    if r.Ok? then Ok(pts + r.value) else r
  }

  method CollectOffsets(c: Option<Node>) returns (r: Result<seq<Point>>)
    ensures r == OffsetList(c)
  {
    if c.None? || c.value.Scalar? {
      return Ok([]);
    }
    if c.value.Map? {
      return if |c.value.entries| == 0 then Ok([]) else Err(BadConversion);
    }
    var xs := c.value.items;
    ghost var vs := Offsets(xs);
    var offsets: seq<Point> := [];
    var i := 0;
    assert vs[i..] == vs;
    if PairPoints(vs).Ok? {
      assert [] + PairPoints(vs).value == PairPoints(vs).value;
    }
    while i < |xs|
      invariant 0 <= i <= |xs|
      invariant Prepend(offsets, PairPoints(vs[i..])) == PairPoints(vs)
      decreases |xs| - i
    {
      var x := AsReal(Some(xs[i]));
      if x.Err? || i + 1 == |xs| {
        PairPointsFails(vs, i, offsets);
        return if x.Err? then Err(x.failure) else Err(BadConversion);
      }
      var y := AsReal(Some(xs[i + 1]));
      if y.Err? {
        PairPointsFails(vs, i, offsets);
        return Err(y.failure);
      }
      PairPointsAdvance(vs, i, offsets);
      offsets := offsets + [Point(x.value, y.value)];
      i := i + 2;
    }
    assert vs[i..] == [] && offsets + [] == offsets;
    r := Ok(offsets);
  }

  /** The offsets loop stops at offset `i` when it or its partner is not a
      number, or when it has no partner, and the whole reading fails the same way. */
  lemma {:induction false} PairPointsFails(vs: seq<Result<real>>, i: nat, offsets: seq<Point>)
    requires i < |vs| && Prepend(offsets, PairPoints(vs[i..])) == PairPoints(vs)
    requires vs[i].Err? || i + 1 == |vs| || vs[i + 1].Err?
    ensures PairPoints(vs) == if vs[i].Err? then Err(vs[i].failure)
                              else if i + 1 == |vs| then Err(BadConversion)
                              else Err(vs[i + 1].failure)
  {
    assert vs[i..][0] == vs[i];
    if i + 1 < |vs| {
      assert vs[i..][1] == vs[i + 1];
    }
  }

  /** Two numbers at offset `i` add one point to those collected so far. */
  lemma {:induction false} PairPointsAdvance(vs: seq<Result<real>>, i: nat, offsets: seq<Point>)
    requires i + 2 <= |vs| && vs[i].Ok? && vs[i + 1].Ok?
    requires Prepend(offsets, PairPoints(vs[i..])) == PairPoints(vs)
    ensures Prepend(offsets + [Point(vs[i].value, vs[i + 1].value)], PairPoints(vs[i + 2..])) == PairPoints(vs)
  {
    var p := Point(vs[i].value, vs[i + 1].value);
    assert vs[i..][0] == vs[i] && vs[i..][1] == vs[i + 1];
    assert vs[i..][2..] == vs[i + 2..];
    PairPointsStep(vs[i..]);
    if PairPoints(vs[i + 2..]).Ok? {
      assert offsets + ([p] + PairPoints(vs[i + 2..]).value) == (offsets + [p]) + PairPoints(vs[i + 2..]).value;
    }
  }

  /** One step of the offsets loop: two numbers become the first point, and
      the rest of the list decides the others. */
  lemma {:induction false} PairPointsStep(vs: seq<Result<real>>)
    requires |vs| >= 2 && vs[0].Ok? && vs[1].Ok?
    ensures PairPoints(vs) == Prepend([Point(vs[0].value, vs[1].value)], PairPoints(vs[2..]))
  {
  }

  // ---------------------------------------------------------------------
  // The font of `drawGlyphs` in yaml.cpp and viewer.cpp.

  /** `SkFontStyle::kNormal_Weight`. */
  const NormalWeight: int := 400

  /** The font weight: `kNormal_Weight`, or `item["weight"].as<int>()` when the
      key is there. */
  function WeightOf(n: Node): Result<int> {
    if Defined(n, "weight") then AsInt(Lookup(n, "weight")) else Ok(NormalWeight)
  }

  /** `if (item["family"]) paint.setTypeface(SkTypeface::MakeFromName(family.c_str(), style))`:
      only the typeface changes, and only when the key is there. */
  function FamilyStep(p: Paint, n: Node, weight: int): (r: Result<Paint>)
    ensures !Defined(n, "family") ==> r == Ok(p)
    ensures Defined(n, "family") ==> (r.Ok? <==> n.entries["family"].Scalar?)
    ensures r.Ok? ==> r.value.(typeface := p.typeface) == p
    ensures r.Ok? && Defined(n, "family") ==>
              r.value.typeface == Some(Typeface(CStr(n.entries["family"].text), weight))
  {
    if Defined(n, "family") then
      var family :- AsString(Lookup(n, "family"));
      Ok(p.(typeface := Some(Typeface(CStr(family), weight))))
    else Ok(p)
  }

  // ---------------------------------------------------------------------
  // The handlers `drawItem` chooses between.

  /** Which function `drawItem` hands a node to; `Skip` is a branch that
      draws nothing. */
  datatype Handler = TextHandler | RectHandler | ImageHandler | GlyphsHandler | StackingHandler | Skip

  // ---------------------------------------------------------------------
  // The image handler of yaml.cpp and viewer.cpp.

  /** `drawImage`: the image path and the first two numbers of "bounds" as the
      top-left corner. The image file itself is not read here; the command
      names it. */
  function ImageCommand(n: Node): (r: Result<Command>)
    ensures r.Ok? ==> r.value.DrawImage?
    ensures r.Ok? <==> Defined(n, "image") && n.entries["image"].Scalar?
                       && Defined(n, "bounds") && n.entries["bounds"].Scalar?
                       && |NumberList(n.entries["bounds"].text)| >= 2
    ensures r.Ok? ==> r.value == Command.DrawImage(CStr(n.entries["image"].text),
                                                   NumberList(n.entries["bounds"].text)[0],
                                                   NumberList(n.entries["bounds"].text)[1])
  {
    if n.Scalar? then Err(BadSubscript)
    else
      var path :- AsString(Lookup(n, "image"));
      var bounds :- AsNumbers(Lookup(n, "bounds"));
      if |bounds| < 2 then Err(OutOfRange) else Ok(Command.DrawImage(CStr(path), bounds[0], bounds[1]))
  }

  method DrawImage(c: Recorder, n: Node) returns (ok: bool)
    modifies c
    ensures c.depth == old(c.depth)
    ensures c.log == old(c.log) + Single(ImageCommand(n)).cmds && ok == Single(ImageCommand(n)).ok
  {
    if n.Scalar? {
      return false;
    }
    var path := AsString(Lookup(n, "image"));
    if path.Err? {
      return false;
    }
    var bounds := DecodeNumbers(Lookup(n, "bounds"));
    if bounds.Err? || |bounds.value| < 2 {
      return false;
    }
    c.DrawImage(CStr(path.value), bounds.value[0], bounds.value[1]);
    ok := true;
  }
}
