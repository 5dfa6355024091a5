/** The YAML document tree the scene programs read, and the parts of yaml-cpp's
    node interface they use: key lookup, iteration, and the built-in
    conversions of a scalar to a string or a number. */
module YamlNode {
  import opened Results
  import opened NumberText

  /** A YAML node: a scalar's text, a sequence, or a mapping from keys to nodes. */
  datatype Node = Scalar(text: string) | Seq(items: seq<Node>) | Map(entries: map<string, Node>)

  /** `node[key]` on a (non-const) node: a scalar throws, a sequence or a map
      without the key yields an undefined node (None), and a map with the key
      yields its value. */
  function Child(n: Node, key: string): (r: Result<Option<Node>>)
    ensures r.Err? <==> n.Scalar?
    ensures r.Ok? && r.value.Some? <==> n.Map? && key in n.entries
  {
    match n
    case Scalar(_) => Err(BadSubscript)
    case Seq(_) => Ok(None)
    case Map(m) => Ok(if key in m then Some(m[key]) else None)
  }

  /** `if (node[key])` on a node that is not a scalar: whether the key is defined. */
  predicate Defined(n: Node, key: string) {
    n.Map? && key in n.entries
  }

  /** `node[key]` once `node` is known not to be a scalar: the value under
      the key, or an undefined node. */
  function Lookup(n: Node, key: string): (r: Option<Node>)
    ensures !n.Scalar? ==> Child(n, key) == Ok(r)
    ensures r.Some? <==> Defined(n, key)
  {
    if Defined(n, key) then Some(n.entries[key]) else None
  }

  /** The nodes a range-for loop over a (possibly undefined) node visits. An
      undefined node and a scalar have none. Iterating a map yields key/value
      pairs whose node part is a zombie, so the first use of a map element as
      a node throws; the loop bodies here all use it that way. */
  function Elements(c: Option<Node>): (r: Result<seq<Node>>)
    ensures r.Err? <==> c.Some? && c.value.Map? && |c.value.entries| > 0
  {
    match c
    case None => Ok([])
    case Some(Scalar(_)) => Ok([])
    case Some(Seq(xs)) => Ok(xs)
    case Some(Map(m)) => if |m| == 0 then Ok([]) else Err(InvalidNode)
  }

  /** `as<string>()`: the text of a scalar; anything else throws. */
  function AsString(c: Option<Node>): (r: Result<string>)
    ensures r.Ok? <==> c.Some? && c.value.Scalar?
  {
    match c
    case Some(Scalar(s)) => Ok(s)
    case _ => Err(BadConversion)
  }

  /** `as<double>()`: the whole scalar must be one number, possibly followed by
      whitespace (yaml-cpp reads with `noskipws` and then checks that only
      whitespace is left). */
  function AsReal(c: Option<Node>): (r: Result<real>)
    ensures r.Ok? ==> c.Some? && c.value.Scalar?
    ensures r.Err? ==> r == Err(BadConversion)
  {
    if c.None? || !c.value.Scalar? then Err(BadConversion)
    else
      var s := c.value.text;
      match ScanReal(s, 0)
      case Some(x) => if SpacesFrom(s, x.end) then Ok(x.value) else Err(BadConversion)
      case None => Err(BadConversion)
  }

  /** Round trip: a scalar holding the decimal text of an integer converts to
      that integer with `as<double>()`. */
  lemma {:induction false} AsRealOfIntText(x: int)
    ensures AsReal(Some(Scalar(IntText(x)))) == Ok(x as real)
  {
    var s := IntText(x);
    assert s[0..|s|] == s;
    ScanRealOfIntText(s, 0, x);
  }

  /** The whole scalar as one integer with no base given, or None. */
  function WholeInt(s: string): (r: Option<IntLexeme>)
    ensures r.Some? ==> 0 < r.value.length <= |s|
  {
    match ScanInt(s)
    case Some(x) => if SpacesFrom(s, x.length) then Some(x) else None
    case None => None
  }

  const IntMin: int := -0x8000_0000
  const IntMax: int := 0x7FFF_FFFF

  /** `as<int>()`: the stream reads a `long` and fails unless it fits in a
      32-bit `int`. */
  function AsInt(c: Option<Node>): (r: Result<int>)
    ensures r.Ok? ==> IntMin <= r.value <= IntMax
  {
    if c.None? || !c.value.Scalar? then Err(BadConversion)
    else
      match WholeInt(c.value.text)
      case Some(x) =>
        var v: int := if x.negative then 0 - x.magnitude as int else x.magnitude;
        if IntMin <= v <= IntMax then Ok(v) else Err(BadConversion)
      case None => Err(BadConversion)
  }

  /** `as<uint16_t>()` as the stream-based conversion of yaml-cpp 0.6 does
      it, with no sign check of its own: a magnitude above 65535 fails, and a
      minus sign negates modulo 2^16, as the standard library's extraction
      into an unsigned type does. */
  function AsUint16(c: Option<Node>): (r: Result<nat>)
    ensures r.Ok? ==> r.value < 0x1_0000
  {
    if c.None? || !c.value.Scalar? then Err(BadConversion)
    else
      match WholeInt(c.value.text)
      case Some(x) =>
        if x.magnitude > 0xFFFF then Err(BadConversion)
        else if x.negative then Ok((0x1_0000 - x.magnitude) % 0x1_0000)
        else Ok(x.magnitude)
      case None => Err(BadConversion)
  }

  /** The decimal text of an integer is read whole by `as<int>()`'s
      extraction, with no base prefix taken. */
  lemma {:induction false} WholeIntOfIntText(x: int)
    ensures WholeInt(IntText(x)) == Some(IntLexeme(x < 0, if x < 0 then -x else x, |IntText(x)|))
  {
    ScanIntOfIntText(x);
  }

  /** Round trip: a scalar holding the decimal text of an integer converts
      with `as<int>()` to that integer exactly when it fits in 32 bits. */
  lemma {:induction false} AsIntOfIntText(x: int)
    ensures AsInt(Some(Scalar(IntText(x)))) == if IntMin <= x <= IntMax then Ok(x) else Err(BadConversion)
  {
    WholeIntOfIntText(x);
  }

  /** Round trip: a scalar holding the decimal text of a number converts with
      `as<uint16_t>()` to that number exactly when it is below 65536. */
  lemma {:induction false} AsUint16OfNatText(n: nat)
    ensures AsUint16(Some(Scalar(NatText(n)))) == if n < 0x1_0000 then Ok(n) else Err(BadConversion)
  {
    WholeIntOfIntText(n);
  }
}
