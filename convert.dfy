/** The two value decoders that the three scene programs define identically:
    `YAML::convert<vector<double>>` (a scalar read as a whitespace-separated
    list of numbers) and `YAML::convert<SkRect>` (the first four of those
    numbers as x, y, width and height). */
module Convert {
  import opened Results
  import opened NumberText
  import opened YamlNode
  import opened Canvas

  /** The numbers `while (ss >> token) vec.push_back(token)` collects from a
      stream over `s` standing at position `k`: read a number at a time,
      skipping whitespace before each, and stop at the end of the text or at
      the first extraction that fails. */
  function NumbersFrom(s: string, k: nat): seq<real>
    decreases |s| - k
  {
    var p := SpaceEnd(s, k);
    if p >= |s| then []
    else
      match ScanReal(s, p)
      case None => []
      case Some(x) => [x.value] + NumbersFrom(s, x.end)
  }

  /** The numbers a fresh stream over `s` yields. */
  function NumberList(s: string): seq<real> {
    NumbersFrom(s, 0)
  }

  /** `node.as<vector<double>>()`: the decoder accepts any scalar and refuses
      everything else, and `as` throws on a refusal. */
  function AsNumbers(c: Option<Node>): (r: Result<seq<real>>)
    ensures r.Ok? <==> c.Some? && c.value.Scalar?
    ensures r.Ok? ==> r.value == NumberList(c.value.text)
  {
    if c.Some? && c.value.Scalar? then Ok(NumberList(c.value.text)) else Err(BadConversion)
  }

  /** `convert<vector<double>>::decode` together with the `as` that calls it:
      a scalar's text is read as a stream of numbers, anything else throws. */
  method DecodeNumbers(c: Option<Node>) returns (r: Result<seq<real>>)
    ensures r.Ok? <==> c.Some? && c.value.Scalar?
    ensures r.Ok? ==> r.value == NumberList(c.value.text)
  {
    if c.None? || !c.value.Scalar? {
      return Err(BadConversion);
    }
    var vec := ReadStream(c.value.text);
    r := Ok(vec);
  }

  /** `while (ss >> token) vec.push_back(token);` over a `stringstream` of `s`. */
  method ReadStream(s: string) returns (vec: seq<real>)
    ensures vec == NumberList(s)
  {
    var pos := 0;
    vec := [];
    while true
      invariant pos <= |s|
      invariant vec + NumbersFrom(s, pos) == NumberList(s)
      decreases |s| - pos
    {
      // the extraction first skips whitespace
      while pos < |s| && IsSpace(s[pos])
        invariant pos <= |s|
        invariant vec + NumbersFrom(s, pos) == NumberList(s)
        decreases |s| - pos
      {
        pos := pos + 1;
      }
      if pos == |s| {
        break;
      }
      var token := ScanReal(s, pos);
      if token.None? {
        break;
      }
      assert NumbersFrom(s, pos) == [token.value.value] + NumbersFrom(s, token.value.end);
      vec := vec + [token.value.value];
      pos := token.value.end;
    }
  }

  /** `node.as<SkRect>()`: a scalar whose numbers give x, y, width and height,
      in that order; fewer than four numbers index past the end of the vector,
      which stops the program here. */
  function AsRect(c: Option<Node>): (r: Result<Rect>)
    ensures r.Ok? <==> c.Some? && c.value.Scalar? && |NumberList(c.value.text)| >= 4
    ensures r.Ok? ==>
      var v := NumberList(c.value.text);
      r.value.left == v[0] && r.value.top == v[1]
      && r.value.right - r.value.left == v[2] && r.value.bottom - r.value.top == v[3]
  {
    var vec :- AsNumbers(c);
    if |vec| < 4 then Err(OutOfRange) else Ok(MakeXYWH(vec[0], vec[1], vec[2], vec[3]))
  }

  /** The decimal text of an integer at position `k`, followed by the end of
      the text or by whitespace, reads as that integer, after which reading
      carries on where its text ends. */
  lemma {:induction false} NumbersAfterIntText(s: string, k: nat, x: int, e: nat)
    requires e == k + |IntText(x)|
    requires e <= |s| && s[k..e] == IntText(x)
    requires e == |s| || IsSpace(s[e])
    ensures NumbersFrom(s, k) == [x as real] + NumbersFrom(s, e)
  {
    ScanRealOfIntText(s, k, x);
  }

  /** Integers written with single spaces between them at position `k`,
      followed by the end of the text or by whitespace, read back as exactly
      those numbers, after which reading carries on where their text ends. */
  lemma {:induction false} NumbersAfterJoin(s: string, k: nat, xs: seq<int>, q: nat)
    requires xs != [] && q == k + |Join(xs)|
    requires q <= |s| && s[k..q] == Join(xs)
    requires q == |s| || IsSpace(s[q])
    ensures NumbersFrom(s, k) == Reals(xs) + NumbersFrom(s, q)
    decreases |xs|
  {
    if |xs| == 1 {
      NumbersAfterIntText(s, k, xs[0], q);
    } else {
      var p := k + |IntText(xs[0])| + 1;
      RestAt(s, k, xs, p, q);
      NumbersAfterJoin(s, p, xs[1..], q);
      NumbersAfterCons(s, k, xs, p, q);
    }
  }

  /** After the first integer and its space, the join of the others. */
  lemma {:induction false} RestAt(s: string, k: nat, xs: seq<int>, p: nat, q: nat)
    requires |xs| >= 2 && p == k + |IntText(xs[0])| + 1 && q == k + |Join(xs)|
    requires q <= |s| && s[k..q] == Join(xs)
    ensures xs[1..] != [] && q == p + |Join(xs[1..])| && s[p..q] == Join(xs[1..])
  {
    JoinAt(s, k, xs);
  }

  /** The first integer read in front of the numbers the others read as. */
  lemma {:induction false} NumbersAfterCons(s: string, k: nat, xs: seq<int>, p: nat, q: nat)
    requires |xs| >= 2 && p == k + |IntText(xs[0])| + 1 && q == k + |Join(xs)|
    requires q <= |s| && s[k..q] == Join(xs)
    requires NumbersFrom(s, p) == Reals(xs[1..]) + NumbersFrom(s, q)
    ensures NumbersFrom(s, k) == Reals(xs) + NumbersFrom(s, q)
  {
    NumbersAfterFirst(s, k, xs, p);
    assert Reals(xs) == [xs[0] as real] + Reals(xs[1..]);
    ConsConcat(NumbersFrom(s, k), NumbersFrom(s, p), NumbersFrom(s, q), xs[0] as real, Reals(xs[1..]), Reals(xs));
  }

  /** The first integer of a joined list reads as one number, and reading
      carries on after the space that follows it. */
  lemma {:induction false} NumbersAfterFirst(s: string, k: nat, xs: seq<int>, p: nat)
    requires |xs| >= 2 && p == k + |IntText(xs[0])| + 1
    requires k + |Join(xs)| <= |s| && s[k..k + |Join(xs)|] == Join(xs)
    ensures NumbersFrom(s, k) == [xs[0] as real] + NumbersFrom(s, p)
  {
    var e := k + |IntText(xs[0])|;
    FirstTextAt(s, k, xs, e);
    NumbersAfterIntText(s, k, xs[0], e);
    NumbersAfterSpace(s, e, p);
  }

  /** The first integer of a joined list stands at `k`, followed by a space. */
  lemma {:induction false} FirstTextAt(s: string, k: nat, xs: seq<int>, e: nat)
    requires |xs| >= 2 && e == k + |IntText(xs[0])|
    requires k + |Join(xs)| <= |s| && s[k..k + |Join(xs)|] == Join(xs)
    ensures e < |s| && s[k..e] == IntText(xs[0]) && IsSpace(s[e])
  {
    JoinAt(s, k, xs);
  }

  lemma {:induction false} ConsConcat(a: seq<real>, b: seq<real>, c: seq<real>, x: real, r1: seq<real>, r: seq<real>)
    requires a == [x] + b && b == r1 + c && r == [x] + r1
    ensures a == r + c
  {
    assert [x] + (r1 + c) == ([x] + r1) + c;
  }

  /** A whitespace character before the next number is skipped. */
  lemma {:induction false} NumbersAfterSpace(s: string, k: nat, p: nat)
    requires k < |s| && IsSpace(s[k]) && p == k + 1
    ensures NumbersFrom(s, k) == NumbersFrom(s, p)
  {
    assert SpaceEnd(s, k) == SpaceEnd(s, p);
  }

  /** Where the pieces of a joined list of integers stand: the first
      integer's text, one space, then the join of the others. */
  lemma {:induction false} JoinAt(s: string, k: nat, xs: seq<int>)
    requires |xs| >= 2
    requires k + |Join(xs)| <= |s| && s[k..k + |Join(xs)|] == Join(xs)
    ensures k + |IntText(xs[0])| + 1 + |Join(xs[1..])| == k + |Join(xs)|
    ensures s[k..k + |IntText(xs[0])|] == IntText(xs[0]) && s[k + |IntText(xs[0])|] == ' '
    ensures s[k + |IntText(xs[0])| + 1..k + |Join(xs)|] == Join(xs[1..])
  {
    SplitAt(s, k, IntText(xs[0]), Join(xs[1..]), Join(xs));
  }

  /** The pieces of a text `t + " " + rest` standing at position `k`. */
  lemma {:induction false} SplitAt(s: string, k: nat, t: string, rest: string, j: string)
    requires j == t + " " + rest && k + |j| <= |s| && s[k..k + |j|] == j
    ensures k + |t| + 1 + |rest| == k + |j|
    ensures s[k..k + |t|] == t && s[k + |t|] == ' ' && s[k + |t| + 1..k + |j|] == rest
  {
    assert s[k..k + |t|] == j[..|t|];
    assert s[k + |t|] == j[|t|];
    assert s[k + |t| + 1..k + |j|] == j[|t| + 1..];
  }

  /** Round trip: the number list of integers written out with spaces between
      them is those integers. */
  lemma {:induction false} NumberListOfJoin(xs: seq<int>)
    ensures NumberList(Join(xs)) == Reals(xs)
  {
    var s := Join(xs);
    if xs != [] {
      assert s[0..|s|] == s;
      NumbersAfterJoin(s, 0, xs, |s|);
    }
  }

  /** Reading stops at the first text that is not a number: whatever follows
      it, numbers included, is not collected. */
  lemma {:induction false} NumberListStopsAtBadToken(s: string, xs: seq<int>)
    requires xs != [] && |Join(xs)| < |s| && s[0..|Join(xs)|] == Join(xs) && IsSpace(s[|Join(xs)|])
    requires ScanReal(s, SpaceEnd(s, |Join(xs)|)).None?
    ensures NumberList(s) == Reals(xs)
  {
    NumbersAfterJoin(s, 0, xs, |Join(xs)|);
  }

  /** A text that starts with a character no number can begin with (not
      whitespace, a sign, a digit or a decimal point) holds no numbers. */
  lemma {:induction false} NoNumbersAtLetter(s: string)
    requires |s| > 0 && !IsSpace(s[0]) && !IsSign(s[0]) && !IsDigit(s[0]) && s[0] != '.'
    ensures NumberList(s) == []
  {
    assert SpaceEnd(s, 0) == 0;
    assert MantissaFrom(s, 0, false, Mantissa(0, 0, 0, 0)) == Mantissa(0, 0, 0, 0);
    assert ScanReal(s, 0).None?;
  }

  /** The rectangle written as four integers (and possibly more after them)
      decodes to those four as x, y, width and height. */
  lemma {:induction false} AsRectOfJoin(x: int, y: int, w: int, h: int, more: seq<int>)
    ensures AsRect(Some(Scalar(Join([x, y, w, h] + more))))
         == Ok(MakeXYWH(x as real, y as real, w as real, h as real))
  {
    var xs := [x, y, w, h] + more;
    NumberListOfJoin(xs);
    AsRectOfNumbers(Join(xs), Reals(xs));
  }

  lemma {:induction false} AsRectOfNumbers(text: string, v: seq<real>)
    requires |v| >= 4 && NumberList(text) == v
    ensures AsRect(Some(Scalar(text))) == Ok(MakeXYWH(v[0], v[1], v[2], v[3]))
  {
  }
}
