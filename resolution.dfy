/** Choosing the output resolution: the size-choice text, the atlas
    resolution of the source textures, and the nearest size to the
    texel-density target. */
module Resolution {
  import opened Common
  import opened Text
  import opened Shading
  import opened Roles

  /** The fallback ladder, also the default of the size-choice text. */
  const DefaultSizes: seq<int> := [128, 256, 512, 1024, 2048, 4096]
  const DefaultSizeText: string := "128,256,512,1024,2048,4096"
  const DefaultMinSize: int := 128

  predicate StrictlyAscending(s: seq<int>) {
    forall i, j :: 0 <= i < j < |s| ==> s[i] < s[j]
  }

  /** `[int(x) for x in pieces]`, or None when `int` rejects some piece. */
  function ParseAll(pieces: seq<string>): (r: Option<seq<int>>)
    ensures r.Some? ==> (|r.value| == |pieces|
      && forall i :: 0 <= i < |pieces| ==> ParseInt(pieces[i]) == Some(r.value[i]))
    ensures r.None? ==> exists i :: 0 <= i < |pieces| && ParseInt(pieces[i]).None?
  {
    if pieces == [] then Some([])
    else
      var head := ParseInt(pieces[0]);
      var rest := ParseAll(pieces[1..]);
      if head.None? then None
      else if rest.None? then
        TailFails(ParseInt, pieces);
        None
      else
        ParsedCons(ParseInt, pieces, head.value, rest.value);
        Some([head.value] + rest.value)
  }

  /** A piece-wise parse of a non-empty list extends the parse of its tail. */
  lemma ParsedCons<A, B>(f: A -> Option<B>, xs: seq<A>, h: B, vs: seq<B>)
    requires xs != [] && f(xs[0]) == Some(h) && |vs| == |xs| - 1
    requires forall k :: 0 <= k < |vs| ==> f(xs[1..][k]) == Some(vs[k])
    ensures forall i :: 0 <= i < |xs| ==> f(xs[i]) == Some(([h] + vs)[i])
  {
    forall i | 1 <= i < |xs|
      ensures f(xs[i]) == Some(([h] + vs)[i])
    {
      assert xs[1..][i - 1] == xs[i];
    }
  }

  /** A failing piece in the tail is a failing piece of the whole list. */
  lemma TailFails<A, B>(f: A -> Option<B>, xs: seq<A>)
    requires xs != [] && exists k :: 0 <= k < |xs| - 1 && f(xs[1..][k]).None?
    ensures exists i :: 0 <= i < |xs| && f(xs[i]).None?
  {
    var k :| 0 <= k < |xs| - 1 && f(xs[1..][k]).None?;
    assert xs[1..][k] == xs[k + 1];
  }

  /** `max(min_size, v)` for every value. */
  function Floored(minSize: int, vs: seq<int>): (r: seq<int>)
    ensures |r| == |vs|
    ensures forall i :: 0 <= i < |vs| ==> r[i] == Max(minSize, vs[i])
  {
    seq(|vs|, i requires 0 <= i < |vs| => Max(minSize, vs[i]))
  }

  /** One element into a strictly ascending sequence, dropped if present. */
  function Insert(s: seq<int>, x: int): (r: seq<int>)
    requires StrictlyAscending(s)
    ensures StrictlyAscending(r)
    ensures forall y :: y in r <==> y in s || y == x
  {
    if s == [] then [x]
    else if x < s[0] then [x] + s
    else if x == s[0] then s
    else
      AscendingTail(s);
      var rest := Insert(s[1..], x);
      ConsAscending(s[0], rest);
      [s[0]] + rest
  }

  /** The head of a strictly ascending sequence is below everything after it. */
  lemma AscendingTail(s: seq<int>)
    requires StrictlyAscending(s) && s != []
    ensures StrictlyAscending(s[1..])
    ensures forall y :: y in s[1..] ==> s[0] < y
  {
    forall y | y in s[1..]
      ensures s[0] < y
    {
      var k :| 0 <= k < |s[1..]| && s[1..][k] == y;
      assert s[k + 1] == y;
    }
  }

  lemma ConsAscending(a: int, rest: seq<int>)
    requires StrictlyAscending(rest) && forall y :: y in rest ==> a < y
    ensures StrictlyAscending([a] + rest)
    ensures forall y :: y in [a] + rest <==> y == a || y in rest
  {
    var r := [a] + rest;
    forall i, j | 0 <= i < j < |r|
      ensures r[i] < r[j]
    {
      assert r[j] == rest[j - 1];
      if i > 0 {
        assert r[i] == rest[i - 1];
      } else {
        assert rest[j - 1] in rest;
      }
    }
  }

  /** `sorted(set(vs))`. */
  function SortedUnique(vs: seq<int>): (r: seq<int>)
    ensures StrictlyAscending(r)
    ensures forall y :: y in r <==> y in vs
  {
    if vs == [] then []
    else
      var n := |vs| - 1;
      assert vs == vs[..n] + [vs[n]];
      Insert(SortedUnique(vs[..n]), vs[n])
  }

  /** A strictly ascending sequence is fixed by its elements, so
      `sorted(set(...))` has exactly one possible result. */
  lemma {:induction false} AscendingUnique(a: seq<int>, b: seq<int>)
    requires StrictlyAscending(a) && StrictlyAscending(b)
    requires forall y :: y in a <==> y in b
    ensures a == b
    decreases |a|
  {
    assert b != [] ==> b[0] in b;
    if a != [] {
      assert a[0] in a;
      assert b != [];
      assert b[0] in b;
      assert a[0] == b[0];
      forall y
        ensures y in a[1..] <==> y in b[1..]
      {
        if y in a[1..] {
          assert y in b && y != b[0];
        }
        if y in b[1..] {
          assert y in a && y != a[0];
        }
      }
      AscendingUnique(a[1..], b[1..]);
      assert a == [a[0]] + a[1..] && b == [b[0]] + b[1..];
    }
  }

  /** The size choices of the rebake operator: the comma-separated integers
      of `text`, each raised to `minSize`, deduplicated and sorted; the
      default ladder when some piece is not an integer. */
  function ParseSizeChoices(text: string, minSize: int): (r: seq<int>)
    ensures |r| >= 1
    ensures ParseAll(Split(text, ',')).None? ==> r == DefaultSizes
    ensures ParseAll(Split(text, ',')).Some? ==>
      && StrictlyAscending(r)
      && (forall x :: x in r ==> x >= minSize)
      && forall x :: x in r <==> x in Floored(minSize, ParseAll(Split(text, ',')).value)
  {
    match ParseAll(Split(text, ','))
    case None => DefaultSizes
    case Some(vs) =>
      var fl := Floored(minSize, vs);
      assert fl[0] in fl;
      SortedUnique(fl)
  }

  /** The text of a list of sizes, as the size-choice field holds it. */
  function FormatSizes(sizes: seq<int>): string
    requires |sizes| >= 1
  {
    Join(seq(|sizes|, i requires 0 <= i < |sizes| => IntToString(sizes[i])), ',')
  }

  /** Writing a strictly ascending list of sizes, none below the minimum,
      and parsing it back gives the list unchanged. */
  lemma SizeChoicesRoundTrip(sizes: seq<int>, minSize: int)
    requires |sizes| >= 1 && StrictlyAscending(sizes)
    requires forall i :: 0 <= i < |sizes| ==> sizes[i] >= minSize
    ensures ParseSizeChoices(FormatSizes(sizes), minSize) == sizes
  {
    var pieces := seq(|sizes|, i requires 0 <= i < |sizes| => IntToString(sizes[i]));
    forall i | 0 <= i < |pieces|
      ensures ',' !in pieces[i] && ParseInt(pieces[i]) == Some(sizes[i])
    {
      NoCommaInNumber(sizes[i]);
      IntRoundTrip(sizes[i]);
    }
    SplitJoin(pieces, ',');
    var parsed := ParseAll(pieces);
    assert parsed.Some?;
    assert parsed.value == sizes;
    assert Floored(minSize, sizes) == sizes;
    AscendingUnique(SortedUnique(sizes), sizes);
  }

  lemma DefaultPieces()
    ensures seq(6, i requires 0 <= i < 6 => IntToString(DefaultSizes[i]))
      == ["128", "256", "512", "1024", "2048", "4096"]
  {
    assert IntToString(128) == "128" && IntToString(256) == "256" && IntToString(512) == "512";
    assert IntToString(1024) == "1024" && IntToString(2048) == "2048" && IntToString(4096) == "4096";
  }

  lemma JoinCons(a: string, rest: seq<string>, sep: char)
    requires |rest| >= 1
    ensures Join([a] + rest, sep) == a + [sep] + Join(rest, sep)
  {
    assert ([a] + rest)[1..] == rest;
  }

  lemma DefaultJoin4()
    ensures Join(["2048", "4096"], ',') == "2048,4096"
  {
    JoinCons("2048", ["4096"], ',');
    assert ["2048"] + ["4096"] == ["2048", "4096"];
  }

  lemma DefaultJoin3()
    ensures Join(["1024", "2048", "4096"], ',') == "1024,2048,4096"
  {
    DefaultJoin4();
    JoinCons("1024", ["2048", "4096"], ',');
    assert ["1024"] + ["2048", "4096"] == ["1024", "2048", "4096"];
  }

  lemma DefaultJoin2()
    ensures Join(["512", "1024", "2048", "4096"], ',') == "512,1024,2048,4096"
  {
    DefaultJoin3();
    JoinCons("512", ["1024", "2048", "4096"], ',');
    assert ["512"] + ["1024", "2048", "4096"] == ["512", "1024", "2048", "4096"];
  }

  lemma DefaultJoin1()
    ensures Join(["256", "512", "1024", "2048", "4096"], ',') == "256,512,1024,2048,4096"
  {
    DefaultJoin2();
    JoinCons("256", ["512", "1024", "2048", "4096"], ',');
    assert ["256"] + ["512", "1024", "2048", "4096"] == ["256", "512", "1024", "2048", "4096"];
  }

  lemma DefaultJoin0()
    ensures Join(["128", "256", "512", "1024", "2048", "4096"], ',') == "128,256,512,1024,2048,4096"
  {
    DefaultJoin1();
    JoinCons("128", ["256", "512", "1024", "2048", "4096"], ',');
    assert ["128"] + ["256", "512", "1024", "2048", "4096"] == ["128", "256", "512", "1024", "2048", "4096"];
  }

  lemma DefaultTextIsFormatted()
    ensures FormatSizes(DefaultSizes) == DefaultSizeText
  {
    DefaultPieces();
    DefaultJoin0();
  }

  /** The default text gives the default ladder whenever the minimum does
      not exceed its smallest entry. */
  lemma DefaultTextGivesLadder(minSize: int)
    requires minSize <= 128
    ensures ParseSizeChoices(DefaultSizeText, minSize) == DefaultSizes
  {
    DefaultTextIsFormatted();
    SizeChoicesRoundTrip(DefaultSizes, minSize);
  }

  /** An empty text is one empty piece, which `int` rejects. */
  lemma EmptyTextGivesLadder(minSize: int)
    ensures ParseSizeChoices("", minSize) == DefaultSizes
  {
    assert Split("", ',') == [""];
    assert Strip("") == "";
  }

  // ---------------------------------------------------------------------
  // nearest_size
  // ---------------------------------------------------------------------

  function Distance(c: int, target: real): real {
    AbsR(c as real - target)
  }

  /** `min(choices, key=lambda x: abs(x - target))`: the running minimum is
      replaced only by a strictly closer choice. */
  function NearestSize(target: real, choices: seq<int>): (r: int)
    requires |choices| >= 1
    ensures r in choices
    ensures forall c :: c in choices ==> Distance(r, target) <= Distance(c, target)
    ensures exists i :: (0 <= i < |choices| && choices[i] == r
      && forall j :: 0 <= j < i ==> Distance(choices[j], target) > Distance(r, target))
  {
    var n := |choices| - 1;
    if n == 0 then choices[0]
    else
      var p := NearestSize(target, choices[..n]);
      NearestExtends(target, choices, p);
      if Distance(choices[n], target) < Distance(p, target) then choices[n] else p
  }

  /** The nearest of all choices, from the nearest of all but the last. */
  lemma NearestExtends(target: real, choices: seq<int>, p: int)
    requires |choices| >= 2
    requires var pre := choices[..|choices| - 1];
      p in pre && (forall c :: c in pre ==> Distance(p, target) <= Distance(c, target))
      && exists i :: (0 <= i < |pre| && pre[i] == p
        && forall j :: 0 <= j < i ==> Distance(pre[j], target) > Distance(p, target))
    ensures var last := choices[|choices| - 1];
      var r := if Distance(last, target) < Distance(p, target) then last else p;
      r in choices
      && (forall c :: c in choices ==> Distance(r, target) <= Distance(c, target))
      && exists i :: (0 <= i < |choices| && choices[i] == r
        && forall j :: 0 <= j < i ==> Distance(choices[j], target) > Distance(r, target))
  {
    var n := |choices| - 1;
    var pre := choices[..n];
    assert choices == pre + [choices[n]];
    var i :| 0 <= i < |pre| && pre[i] == p
      && forall j :: 0 <= j < i ==> Distance(pre[j], target) > Distance(p, target);
    assert forall j :: 0 <= j < n ==> pre[j] == choices[j];
    if Distance(choices[n], target) < Distance(p, target) {
      assert forall j :: 0 <= j < n ==> Distance(choices[j], target) > Distance(choices[n], target) by {
        forall j | 0 <= j < n
          ensures Distance(choices[j], target) > Distance(choices[n], target)
        {
          assert choices[j] in pre;
        }
      }
    } else {
      assert choices[i] == p;
    }
  }

  // ---------------------------------------------------------------------
  // atlas_res and the target
  // ---------------------------------------------------------------------

  /** The largest side among `start` and every image's larger side. */
  function MaxSide(start: int, imgs: seq<Image>): (r: int)
    ensures r >= start
    ensures forall x :: x in imgs ==> r >= LargerSide(x)
    ensures r == start || exists x :: x in imgs && r == LargerSide(x)
  {
    if imgs == [] then start
    else
      var n := |imgs| - 1;
      var p := MaxSide(start, imgs[..n]);
      assert imgs == imgs[..n] + [imgs[n]];
      Max(p, LargerSide(imgs[n]))
  }

  /** The atlas resolution: the larger side of the base-color image when
      there is one; otherwise 1024 raised to every collected texture's
      larger side. */
  method AtlasRes(roles: RoleSet) returns (res: int)
    ensures roles.basecolor.Some? ==> res == LargerSide(roles.basecolor.value)
    ensures roles.basecolor.None? ==> res == MaxSide(1024, roles.allTex)
  {
    res := 1024;
    if roles.basecolor.Some? {
      res := LargerSide(roles.basecolor.value);
    } else {
      res := RaiseToSides(res, roles.allTex);
    }
  }

  /** The loop over the collected textures, raising `start` to each
      texture's larger side. */
  method RaiseToSides(start: int, imgs: seq<Image>) returns (res: int)
    ensures res == MaxSide(start, imgs)
  {
    res := start;
    var i := 0;
    while i < |imgs|
      invariant 0 <= i <= |imgs|
      invariant res == MaxSide(start, imgs[..i])
    {
      var prefix := imgs[..i + 1];
      assert prefix[..i] == imgs[..i] && prefix[i] == imgs[i];
      assert MaxSide(start, prefix) == Max(MaxSide(start, imgs[..i]), LargerSide(imgs[i]));
      res := Max(res, LargerSide(imgs[i]));
      i := i + 1;
    }
    assert imgs[..i] == imgs;
  }

  /** `math.sqrt(max(1e-6, area)) * atlas_res`, with the square root given. */
  function TargetLinear(area: real, atlasRes: int, sqrt: real -> real): real {
    sqrt(MaxR(0.000001, area)) * atlasRes as real
  }

  /** With a root that squares back to its argument, the target is the side
      of a square holding the used fraction of an atlas of that size. */
  lemma TargetSquares(area: real, atlasRes: int, sqrt: real -> real)
    requires atlasRes >= 0
    requires sqrt(MaxR(0.000001, area)) >= 0.0
    requires sqrt(MaxR(0.000001, area)) * sqrt(MaxR(0.000001, area)) == MaxR(0.000001, area)
    ensures var t := TargetLinear(area, atlasRes, sqrt);
      t >= 0.0 && t * t == MaxR(0.000001, area) * (atlasRes * atlasRes) as real
  {
    var s := sqrt(MaxR(0.000001, area));
    var a := atlasRes as real;
    assert (s * a) * (s * a) == (s * s) * (a * a);
  }

  /** Forty percent of the tile used on a 2048 atlas selects 1024 from the
      default ladder: the target, about 1295, is about 270 from 1024 and
      about 750 from 2048. */
  lemma FortyPercentScenario(sqrt: real -> real)
    requires 0.632 <= sqrt(0.4) <= 0.633
    ensures NearestSize(TargetLinear(0.4, 2048, sqrt), DefaultSizes) == 1024
  {
    var t := TargetLinear(0.4, 2048, sqrt);
    assert 1294.336 <= t <= 1296.384;
    var r := NearestSize(t, DefaultSizes);
    assert DefaultSizes[3] == 1024 && 1024 in DefaultSizes;
    assert Distance(r, t) <= Distance(1024, t) <= 272.384;
    assert forall i :: 0 <= i < |DefaultSizes| && i != 3 ==> Distance(DefaultSizes[i], t) > 272.384;
  }

  /** A farther target never selects a smaller choice: when `t1 <= t2` the
      nearest choice to `t1` is at most the nearest choice to `t2`. */
  lemma NearestMonotone(t1: real, t2: real, choices: seq<int>)
    requires |choices| >= 1
    requires t1 <= t2
    ensures NearestSize(t1, choices) <= NearestSize(t2, choices)
  {
  }

  /** With a square root that is monotone on positive arguments, a larger
      used area gives a target at least as large. */
  lemma TargetMonotone(a1: real, a2: real, atlasRes: int, sqrt: real -> real)
    requires atlasRes >= 0
    requires forall x, y :: 0.0 < x <= y ==> sqrt(x) <= sqrt(y)
    requires a1 <= a2
    ensures TargetLinear(a1, atlasRes, sqrt) <= TargetLinear(a2, atlasRes, sqrt)
  {
    var x, y := MaxR(0.000001, a1), MaxR(0.000001, a2);
    assert 0.0 < x <= y;
    assert sqrt(x) <= sqrt(y);
    MulMonotone(sqrt(x), sqrt(y), atlasRes as real);
  }

  lemma MulMonotone(p: real, q: real, k: real)
    requires p <= q && k >= 0.0
    ensures p * k <= q * k
  {
  }

  /** A larger used area never selects a smaller size. */
  lemma LargerAreaNeverSmaller(a1: real, a2: real, atlasRes: int, sqrt: real -> real, choices: seq<int>)
    requires |choices| >= 1 && atlasRes >= 0
    requires forall x, y :: 0.0 < x <= y ==> sqrt(x) <= sqrt(y)
    requires a1 <= a2
    ensures NearestSize(TargetLinear(a1, atlasRes, sqrt), choices)
      <= NearestSize(TargetLinear(a2, atlasRes, sqrt), choices)
  {
    TargetMonotone(a1, a2, atlasRes, sqrt);
    NearestMonotone(TargetLinear(a1, atlasRes, sqrt), TargetLinear(a2, atlasRes, sqrt), choices);
  }

  /** With the scene's minimum size of at least 1, every size choice is a
      positive image side. */
  lemma SizeChoicesPositive(text: string, minSize: int)
    requires minSize >= 1
    ensures forall c :: c in ParseSizeChoices(text, minSize) ==> c > 0
  {
    if ParseAll(Split(text, ',')).None? {
      LadderPositive();
    }
  }

  lemma LadderPositive()
    ensures forall c :: c in DefaultSizes ==> c > 0
  {
    assert forall i :: 0 <= i < |DefaultSizes| ==> DefaultSizes[i] >= 128;
  }
}
