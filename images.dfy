/**
 * The image helpers: the responsive `sizes` string, the `srcset` string
 * over a list of widths, and the optimised path, which leaves the source
 * alone when no width is asked for. The URL parsing behind the optimised
 * path is an input.
 */
module Images {
  import opened Wrappers
  import opened JsText

  const SizesPrefix := "(max-width: 640px) 100vw, (max-width: 1024px) 50vw, "

  /** `generateImageSizes`: the height is not used. */
  function GenerateImageSizes(width: int, height: int): string {
    SizesPrefix + IntToString(width) + "px"
  }

  lemma DigitCharInjective(a: nat, b: nat)
    requires a < 10 && b < 10 && DigitChar(a) == DigitChar(b)
    ensures a == b
  {
  }

  /** Distinct numbers have distinct decimal renderings. */
  lemma {:induction false} NatToStringInjective(m: nat, n: nat)
    requires NatToString(m) == NatToString(n)
    ensures m == n
  {
    var sm, sn := NatToString(m), NatToString(n);
    if m < 10 && n < 10 {
      DigitCharInjective(m, n);
    } else if m >= 10 && n >= 10 {
      assert sm[|sm| - 1] == DigitChar(m % 10) && sn[|sn| - 1] == DigitChar(n % 10);
      DigitCharInjective(m % 10, n % 10);
      assert sm[..|sm| - 1] == NatToString(m / 10);
      assert sn[..|sn| - 1] == NatToString(n / 10);
      NatToStringInjective(m / 10, n / 10);
    }
  }

  /** A rendering starts with '-' exactly when the number is negative. */
  lemma SignChar(n: int)
    ensures |IntToString(n)| >= 1
    ensures IntToString(n)[0] == '-' <==> n < 0
  {
    if n >= 0 {
      assert IsDigit(NatToString(n)[0]);
    }
  }

  /** Distinct integers have distinct renderings: a negative one starts with '-', which is no digit. */
  lemma IntToStringInjective(m: int, n: int)
    requires IntToString(m) == IntToString(n)
    ensures m == n
  {
    SignChar(m);
    SignChar(n);
    if m < 0 && n < 0 {
      DigitsAfterSign(m);
      DigitsAfterSign(n);
      NatToStringInjective(-m, -n);
    } else if m >= 0 && n >= 0 {
      NatToStringInjective(m, n);
    }
  }

  lemma DigitsAfterSign(n: int)
    requires n < 0
    ensures IntToString(n)[1..] == NatToString(-n)
  {
    assert IntToString(n) == ['-'] + NatToString(-n);
  }

  /**
   * The sizes string always ends with the width in pixels after the two
   * fixed breakpoints, ignores the height, and tells widths apart.
   */
  lemma ImageSizesShape(width: int, height: int, otherWidth: int, otherHeight: int)
    ensures StartsWith(GenerateImageSizes(width, height), SizesPrefix)
    ensures EndsWith(GenerateImageSizes(width, height), IntToString(width) + "px")
    ensures GenerateImageSizes(width, height) == GenerateImageSizes(otherWidth, otherHeight) <==> width == otherWidth
  {
    var r, o := GenerateImageSizes(width, height), GenerateImageSizes(otherWidth, otherHeight);
    assert r == SizesPrefix + (IntToString(width) + "px");
    if r == o {
      var p := |SizesPrefix|;
      assert r[p..|r| - 2] == IntToString(width);
      assert o[p..|o| - 2] == IntToString(otherWidth);
      IntToStringInjective(width, otherWidth);
    }
  }

  const DefaultSizes := [400, 800, 1200, 1600]

  /** One `srcset` candidate: the path asking for a width, then the width descriptor. */
  function Entry(basePath: string, size: int): string {
    basePath + "?w=" + IntToString(size) + " " + IntToString(size) + "w"
  }

  /** `sizes.map(...)`. */
  function Entries(basePath: string, sizes: seq<int>): (r: seq<string>)
    ensures |r| == |sizes|
    ensures forall k :: 0 <= k < |sizes| ==> r[k] == Entry(basePath, sizes[k])
  {
    if sizes == [] then [] else [Entry(basePath, sizes[0])] + Entries(basePath, sizes[1..])
  }

  /** `generateSrcSet`: the candidates joined by ", ". */
  function GenerateSrcSet(basePath: string, sizes: seq<int> := DefaultSizes): string {
    Join(Entries(basePath, sizes), ", ")
  }

  /** Each piece after the first with a leading space. */
  function Spaced(xs: seq<string>): (r: seq<string>)
    ensures |r| == |xs|
    ensures forall k :: 0 <= k < |xs| ==> r[k] == (if k == 0 then "" else " ") + xs[k]
  {
    if xs == [] then [] else [xs[0]] + Prefixed(xs[1..])
  }

  function Prefixed(xs: seq<string>): (r: seq<string>)
    ensures |r| == |xs|
    ensures forall k :: 0 <= k < |xs| ==> r[k] == " " + xs[k]
  {
    if xs == [] then [] else [" " + xs[0]] + Prefixed(xs[1..])
  }

  /** Joining with ", " is joining with "," after putting the space in front of every later piece. */
  lemma {:induction false} JoinCommaSpace(xs: seq<string>)
    ensures Join(xs, ", ") == Join(Spaced(xs), ",")
    decreases |xs|
  {
    if |xs| >= 2 {
      JoinCommaSpace(xs[1..]);
      var tail := Spaced(xs[1..]);
      assert Spaced(xs)[1..] == Prefixed(xs[1..]);
      assert Prefixed(xs[1..]) == [" " + tail[0]] + tail[1..];
      assert tail == [tail[0]] + tail[1..];
      if |tail| == 1 {
        assert Join(Prefixed(xs[1..]), ",") == " " + Join(tail, ",");
      } else {
        assert Join(Prefixed(xs[1..]), ",") == " " + tail[0] + "," + Join(tail[1..], ",");
        assert Join(tail, ",") == tail[0] + "," + Join(tail[1..], ",");
      }
      assert Join(Spaced(xs), ",") == xs[0] + "," + Join(Prefixed(xs[1..]), ",");
    }
  }

  predicate NoComma(s: string) {
    forall i :: 0 <= i < |s| ==> s[i] != ','
  }

  lemma IntToStringNoComma(n: int)
    ensures NoComma(IntToString(n))
  {
    var d := NatToString(if n < 0 then -n else n);
    assert NoComma(d);
    if n < 0 {
      assert IntToString(n) == ['-'] + d;
    }
  }

  lemma EntryNoComma(basePath: string, size: int)
    requires NoComma(basePath)
    ensures NoComma(Entry(basePath, size))
  {
    var digits := IntToString(size);
    IntToStringNoComma(size);
    assert Entry(basePath, size) == basePath + ("?w=" + digits + " " + digits + "w");
  }

  lemma SpacedEntriesNoComma(basePath: string, sizes: seq<int>)
    requires NoComma(basePath)
    ensures forall k, i :: 0 <= k < |sizes| && 0 <= i < |Spaced(Entries(basePath, sizes))[k]| ==>
      Spaced(Entries(basePath, sizes))[k][i] != ','
  {
    var xs := Entries(basePath, sizes);
    var pieces := Spaced(xs);
    forall k, i | 0 <= k < |sizes| && 0 <= i < |pieces[k]| ensures pieces[k][i] != ',' {
      EntryNoComma(basePath, sizes[k]);
      if k > 0 && i > 0 {
        assert pieces[k][i] == xs[k][i - 1];
      }
    }
  }

  /**
   * With a path free of commas, splitting the `srcset` at its commas gives
   * back one piece per width, in order: the first candidate as is, each
   * later one after its space. No widths give the empty string.
   */
  lemma SrcSetPieces(basePath: string, sizes: seq<int>)
    requires NoComma(basePath)
    ensures sizes == [] ==> GenerateSrcSet(basePath, sizes) == ""
    ensures sizes != [] ==>
      |Split(GenerateSrcSet(basePath, sizes), ',')| == |sizes| &&
      forall k :: 0 <= k < |sizes| ==>
        Split(GenerateSrcSet(basePath, sizes), ',')[k] == (if k == 0 then "" else " ") + Entry(basePath, sizes[k])
  {
    if sizes != [] {
      var xs := Entries(basePath, sizes);
      JoinCommaSpace(xs);
      SpacedEntriesNoComma(basePath, sizes);
      SplitJoin(Spaced(xs), ',');
    }
  }

  /**
   * `optimizeImagePath`: without a width (absent or 0) the source comes
   * back unchanged; otherwise the path and query that `resolve` builds for
   * the width and quality.
   */
  function OptimizeImagePath(resolve: (string, int, int) -> string, src: string, width: Option<int>, quality: int := 85): (r: string)
    ensures width.None? || width.value == 0 ==> r == src
  {
    if width.None? || width.value == 0 then src else resolve(src, width.value, quality)
  }
}
