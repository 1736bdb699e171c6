/**
 * The route-path parser of the route visualizer
 * (src/components/route-visualizer.tsx): split a route's path on arrows,
 * read each segment as a (chain, token) step, fall back on the intent, and
 * decide whether the route crosses chains. Rendering is not modelled.
 */
module RouteVisualizer {
  import opened Wrappers
  import opened Strings
  import opened Types

  // ---- getChainColor ----

  /** The Tailwind classes of a chain's dot. */
  datatype ChainColor = ChainColor(bg: string, border: string, text: string, glow: string)

  function Palette(name: string): ChainColor {
    ChainColor("bg-" + name + "-500", "border-" + name + "-400", "text-" + name + "-300", "shadow-" + name + "-500/30")
  }

  /** `getChainColor(chain)`: the first of base, arbitrum, optimism, ethereum/mainnet, polygon the name mentions. */
  function GetChainColor(chain: string): ChainColor {
    var lower := ToLower(chain);
    if Contains(lower, "base") then Palette("blue")
    else if Contains(lower, "arbitrum") then Palette("orange")
    else if Contains(lower, "optimism") then Palette("red")
    else if Contains(lower, "ethereum") || Contains(lower, "mainnet") then Palette("purple")
    else if Contains(lower, "polygon") then Palette("violet")
    else Palette("gray")
  }

  /** The chain name mentions `key`, ignoring case. */
  predicate Mentions(chain: string, key: string) {
    Contains(ToLower(chain), key)
  }

  /** The name mentions one of the chains that have a colour. */
  predicate MentionsKnownChain(chain: string) {
    Mentions(chain, "base") || Mentions(chain, "arbitrum") || Mentions(chain, "optimism")
    || Mentions(chain, "ethereum") || Mentions(chain, "mainnet") || Mentions(chain, "polygon")
  }

  /**
   * The first chain the name mentions decides the colour, in the order base,
   * arbitrum, optimism, ethereum or mainnet, polygon: whatever else the name
   * mentions later in that order does not matter.
   */
  lemma ChainColorOrder(chain: string)
    ensures Mentions(chain, "base") ==> GetChainColor(chain) == Palette("blue")
    ensures !Mentions(chain, "base") && Mentions(chain, "arbitrum") ==> GetChainColor(chain) == Palette("orange")
    ensures !Mentions(chain, "base") && !Mentions(chain, "arbitrum") && Mentions(chain, "optimism") ==>
              GetChainColor(chain) == Palette("red")
    ensures (!Mentions(chain, "base") && !Mentions(chain, "arbitrum") && !Mentions(chain, "optimism")
             && (Mentions(chain, "ethereum") || Mentions(chain, "mainnet"))) ==>
              GetChainColor(chain) == Palette("purple")
    ensures (!Mentions(chain, "base") && !Mentions(chain, "arbitrum") && !Mentions(chain, "optimism")
             && !Mentions(chain, "ethereum") && !Mentions(chain, "mainnet") && Mentions(chain, "polygon")) ==>
              GetChainColor(chain) == Palette("violet")
  {
  }

  /** Different palette names give different colours. */
  lemma PaletteInjective(a: string, b: string)
    requires Palette(a) == Palette(b)
    ensures a == b
  {
    var pa, pb := Palette(a).bg, Palette(b).bg;
    assert |a| == |b|;
    forall i | 0 <= i < |a| ensures a[i] == b[i] {
      assert pa[3 + i] == a[i] && pb[3 + i] == b[i];
    }
  }

  /** A chain is drawn gray exactly when its name mentions none of the known chains. */
  lemma GrayExactlyWhenUnknown(chain: string)
    ensures GetChainColor(chain) == Palette("gray") <==> !MentionsKnownChain(chain)
  {
    if MentionsKnownChain(chain) && GetChainColor(chain) == Palette("gray") {
      var named := if Mentions(chain, "base") then "blue" else if Mentions(chain, "arbitrum") then "orange"
                   else if Mentions(chain, "optimism") then "red"
                   else if Mentions(chain, "ethereum") || Mentions(chain, "mainnet") then "purple" else "violet";
      assert GetChainColor(chain) == Palette(named);
      PaletteInjective(named, "gray");
    }
  }

  /** The colour ignores letter case. */
  lemma ChainColorIgnoresCase(a: string, b: string)
    requires ToLower(a) == ToLower(b)
    ensures GetChainColor(a) == GetChainColor(b)
  {
  }

  // ---- splitting on /\s*(?:->|-->|=>|>>)\s*/ ----

  /** The first index at or after `i` that is not white space. */
  function SkipSpace(s: string, i: nat): (j: nat)
    requires i <= |s|
    ensures i <= j <= |s|
    ensures j == |s| || !IsSpace(s[j])
    ensures forall k :: i <= k < j ==> IsSpace(s[k])
    decreases |s| - i
  {
    if i < |s| && IsSpace(s[i]) then SkipSpace(s, i + 1) else i
  }

  /** The end of the arrow at `w`, the alternatives tried in the regex's order. */
  function ArrowAt(s: string, w: nat): (e: Option<nat>)
    ensures e.Some? ==> w + 2 <= e.value <= |s|
    ensures e.Some? ==> IsArrowChar(s[w]) && IsArrowChar(s[w + 1])
  {
    if w + 2 <= |s| && s[w] == '-' && s[w + 1] == '>' then Some(w + 2)
    else if w + 3 <= |s| && s[w] == '-' && s[w + 1] == '-' && s[w + 2] == '>' then Some(w + 3)
    else if w + 2 <= |s| && s[w] == '=' && s[w + 1] == '>' then Some(w + 2)
    else if w + 2 <= |s| && s[w] == '>' && s[w + 1] == '>' then Some(w + 2)
    else None
  }

  /** A two-character text occurs at `w` exactly when its two characters do. */
  lemma OccursPair(s: string, a: string, w: nat)
    requires |a| == 2
    ensures OccursAt(s, a, w) <==> w + 2 <= |s| && s[w] == a[0] && s[w + 1] == a[1]
  {
    if w + 2 <= |s| && s[w] == a[0] && s[w + 1] == a[1] {
      assert s[w..w + 2] == a;
    }
  }

  /** A three-character text occurs at `w` exactly when its three characters do. */
  lemma OccursTriple(s: string, a: string, w: nat)
    requires |a| == 3
    ensures OccursAt(s, a, w) <==> w + 3 <= |s| && s[w] == a[0] && s[w + 1] == a[1] && s[w + 2] == a[2]
  {
    if w + 3 <= |s| && s[w] == a[0] && s[w + 1] == a[1] && s[w + 2] == a[2] {
      assert s[w..w + 3] == a;
    }
  }

  /**
   * The arrow matched at `w` is the first of `->`, `-->`, `=>`, `>>` that
   * occurs there, and there is none when none of them occurs.
   */
  lemma ArrowAtOccurs(s: string, w: nat)
    ensures ArrowAt(s, w) ==
      if OccursAt(s, "->", w) then Some(w + 2)
      else if OccursAt(s, "-->", w) then Some(w + 3)
      else if OccursAt(s, "=>", w) then Some(w + 2)
      else if OccursAt(s, ">>", w) then Some(w + 2)
      else None
  {
    OccursPair(s, "->", w);
    OccursTriple(s, "-->", w);
    OccursPair(s, "=>", w);
    OccursPair(s, ">>", w);
  }

  /** Where a match of the separator starting at `q` ends, white space on both sides absorbed. */
  function SeparatorAt(s: string, q: nat): (e: Option<nat>)
    requires q <= |s|
    ensures e.Some? ==> q < e.value <= |s|
  {
    match ArrowAt(s, SkipSpace(s, q))
    case None => None
    case Some(end) => Some(SkipSpace(s, end))
  }

  /**
   * `String.prototype.split` with the separator regex, from a segment that
   * starts at `p` and a scan position `q`: the first position where the
   * separator matches ends the segment.
   */
  function SplitFrom(s: string, p: nat, q: nat): (segments: seq<string>)
    requires p <= q <= |s|
    ensures |segments| >= 1
    decreases |s| - q
  {
    if q >= |s| then [s[p..]]
    else match SeparatorAt(s, q)
      case Some(e) => [s[p..q]] + SplitFrom(s, e, e)
      case None => SplitFrom(s, p, q + 1)
  }

  /** `path.split(/\s*(?:->|-->|=>|>>)\s*\/)`. */
  function SplitPath(path: string): seq<string> {
    SplitFrom(path, 0, 0)
  }

  /** One of the arrows occurs somewhere in `s`. */
  predicate HasArrow(s: string) {
    Contains(s, "->") || Contains(s, "=>") || Contains(s, ">>")
  }

  lemma SeparatorStartsAtArrow(s: string, q: nat)
    requires q < |s|
    ensures SeparatorAt(s, q).Some? ==> exists i :: q <= i < |s| && ArrowAt(s, i).Some?
    ensures ArrowAt(s, q).Some? ==> SeparatorAt(s, q).Some?
  {
    if ArrowAt(s, q).Some? {
      assert !IsSpace(s[q]);
    }
  }

  lemma ArrowIsContained(s: string, i: nat)
    requires ArrowAt(s, i).Some?
    ensures HasArrow(s)
  {
    ArrowAtOccurs(s, i);
    if OccursAt(s, "-->", i) && !OccursAt(s, "->", i) {
      assert OccursAt(s, "->", i + 1) by {
        assert s[i + 1..i + 3] == s[i..i + 3][1..];
      }
    }
  }

  /** Two segments or more exactly when the scan from `q` meets an arrow. */
  lemma {:induction false} SplitFromCount(s: string, p: nat, q: nat)
    requires p <= q <= |s|
    ensures |SplitFrom(s, p, q)| >= 2 <==> exists i :: q <= i < |s| && ArrowAt(s, i).Some?
    decreases |s| - q
  {
    if q < |s| {
      SeparatorStartsAtArrow(s, q);
      match SeparatorAt(s, q)
      case Some(e) =>
      case None =>
        SplitFromCount(s, p, q + 1);
        if exists i :: q <= i < |s| && ArrowAt(s, i).Some? {
          var i :| q <= i < |s| && ArrowAt(s, i).Some?;
          assert i != q;
        }
    }
  }

  /** The path splits into two segments or more exactly when it contains '->', '=>' or '>>' ('-->' contains '->'). */
  lemma SplitCount(path: string)
    ensures |SplitPath(path)| >= 2 <==> HasArrow(path)
  {
    SplitFromCount(path, 0, 0);
    if HasArrow(path) {
      var sub := if Contains(path, "->") then "->" else if Contains(path, "=>") then "=>" else ">>";
      var i :| 0 <= i <= |path| - |sub| && OccursAt(path, sub, i);
      ArrowAtOccurs(path, i);
      assert ArrowAt(path, i).Some?;
    } else if exists i :: 0 <= i < |path| && ArrowAt(path, i).Some? {
      var i :| 0 <= i < |path| && ArrowAt(path, i).Some?;
      ArrowIsContained(path, i);
    }
  }

  /** No segment contains an arrow. */
  lemma {:induction false} SegmentsHaveNoArrow(s: string, p: nat, q: nat)
    requires p <= q <= |s|
    requires forall i :: p <= i < q ==> SeparatorAt(s, i).None?
    ensures forall seg :: seg in SplitFrom(s, p, q) ==> !HasArrow(seg)
    decreases |s| - q
  {
    if q >= |s| {
      NoArrowBetween(s, p, |s|);
      assert s[p..] == s[p..|s|];
    } else {
      match SeparatorAt(s, q)
      case Some(e) =>
        NoArrowBetween(s, p, q);
        SegmentsHaveNoArrow(s, e, e);
      case None =>
        SegmentsHaveNoArrow(s, p, q + 1);
    }
  }

  /** A stretch the scan crossed without a match holds no occurrence of an arrow. */
  lemma NoOccurrenceBetween(s: string, p: nat, q: nat, arrow: string)
    requires p <= q <= |s| && arrow in ["->", "=>", ">>"]
    requires forall i :: p <= i < q ==> SeparatorAt(s, i).None?
    ensures !Contains(s[p..q], arrow)
  {
    var t := s[p..q];
    if Contains(t, arrow) {
      var i :| 0 <= i <= |t| - |arrow| && OccursAt(t, arrow, i);
      assert |arrow| == 2;
      assert s[p + i..p + i + 2] == [t[i], t[i + 1]];
      assert OccursAt(s, arrow, p + i);
      ArrowAtOccurs(s, p + i);
      SeparatorStartsAtArrow(s, p + i);
    }
  }

  lemma NoArrowBetween(s: string, p: nat, q: nat)
    requires p <= q <= |s|
    requires forall i :: p <= i < q ==> SeparatorAt(s, i).None?
    ensures !HasArrow(s[p..q])
  {
    NoOccurrenceBetween(s, p, q, "->");
    NoOccurrenceBetween(s, p, q, "=>");
    NoOccurrenceBetween(s, p, q, ">>");
  }

  // ---- what the split yields ----

  /** The characters arrows are made of. */
  predicate IsArrowChar(c: char) {
    c == '-' || c == '=' || c == '>'
  }

  /** `a` is one of the arrows `->`, `-->`, `=>`, `>>`, spelled out character by character. */
  predicate IsArrow(a: string) {
    (|a| == 2 && a[1] == '>' && (a[0] == '-' || a[0] == '=' || a[0] == '>'))
    || (|a| == 3 && a[0] == '-' && a[1] == '-' && a[2] == '>')
  }

  predicate AllSpace(t: string) {
    forall i :: 0 <= i < |t| ==> IsSpace(t[i])
  }

  /** A separator as written in a path: white space, an arrow, white space. */
  datatype Separator = Separator(before: string, arrow: string, after: string)

  predicate ValidSeparator(sep: Separator) {
    AllSpace(sep.before) && IsArrow(sep.arrow) && AllSpace(sep.after)
  }

  function SeparatorText(sep: Separator): string {
    sep.before + sep.arrow + sep.after
  }

  /**
   * A segment the split returns intact: non-empty, no white space at either
   * end, no arrow inside, and not ending in an arrow character.
   */
  predicate PlainSegment(x: string) {
    |x| > 0 && !IsSpace(x[0]) && !IsSpace(x[|x| - 1]) && !IsArrowChar(x[|x| - 1]) && !HasArrow(x)
  }

  /** The segments written one after the other, with a separator between each two. */
  function Joined(segments: seq<string>, seps: seq<Separator>): string
    requires |segments| == |seps| + 1
  {
    if |seps| == 0 then segments[0]
    else segments[0] + SeparatorText(seps[0]) + Joined(segments[1..], seps[1..])
  }

  lemma {:induction false} JoinedStartsWith(segments: seq<string>, seps: seq<Separator>)
    requires |segments| == |seps| + 1
    ensures |Joined(segments, seps)| >= |segments[0]|
    ensures Joined(segments, seps)[..|segments[0]|] == segments[0]
  {
    if |seps| > 0 {
      var rest := SeparatorText(seps[0]) + Joined(segments[1..], seps[1..]);
      assert Joined(segments, seps) == segments[0] + rest;
    }
  }

  /** Every character of a matched arrow is an arrow character. */
  lemma ArrowChars(s: string, j: nat, k: nat)
    requires ArrowAt(s, j).Some? && j <= k < ArrowAt(s, j).value
    ensures IsArrowChar(s[k])
  {
  }

  /** A piece of a piece of `s` is a piece of `s`. */
  lemma SliceOfSlice(s: string, p: nat, a: nat, b: nat)
    requires p <= |s| && a <= b <= |s| - p
    ensures s[p..][a..b] == s[p + a..p + b]
  {
    forall k | 0 <= k < b - a ensures s[p..][a..b][k] == s[p + a..p + b][k] {
      assert s[p..][a..b][k] == s[p..][a + k] == s[p + a + k];
    }
  }

  /** The three parts of `s[a..]` when it is `u + v + w`, the second starting at `b` and the third at `c`. */
  lemma ThreeParts(s: string, a: nat, b: nat, c: nat, u: string, v: string, w: string)
    requires a <= |s| && s[a..] == u + v + w && b == a + |u| && c == b + |v|
    ensures c <= |s| && s[a..b] == u && s[b..c] == v && s[c..] == w
  {
    var n := |u| + |v|;
    SliceOfSlice(s, a, 0, |u|);
    assert (u + v + w)[..|u|] == u;
    SliceOfSlice(s, a, |u|, n);
    assert (u + v + w)[|u|..n] == v;
    assert s[c..] == s[a..][n..];
    assert (u + v + w)[n..] == w;
  }

  /** The stretch of `s` at `m` is the text `t`, character by character. */
  lemma CharsAt(s: string, m: nat, t: string)
    requires m + |t| <= |s| && s[m..m + |t|] == t
    ensures forall k :: 0 <= k < |t| ==> s[m + k] == t[k]
  {
    forall k | 0 <= k < |t| ensures s[m + k] == t[k] {
      assert s[m + k] == s[m..m + |t|][k];
    }
  }

  /** An arrow matched inside the stretch of `s` that holds `x` is an arrow of `x`. */
  lemma ArrowInside(s: string, p: nat, x: string, j: nat)
    requires p <= j && p + |x| <= |s| && s[p..p + |x|] == x
    requires ArrowAt(s, j).Some? && ArrowAt(s, j).value <= p + |x|
    ensures HasArrow(x)
  {
    var e := ArrowAt(s, j).value;
    var i := j - p;
    ArrowAtOccurs(s, j);
    CharsAt(s, p, x);
    forall k | 0 <= k < e - j ensures x[i..e - p][k] == s[j..e][k] {
      assert x[i + k] == s[p + i + k];
    }
    assert x[i..e - p] == s[j..e];
    if OccursAt(s, "->", j) {
      assert OccursAt(x, "->", i);
    } else if OccursAt(s, "-->", j) {
      assert OccursAt(x, "-->", i);
    } else if OccursAt(s, "=>", j) {
      assert OccursAt(x, "=>", i);
    } else {
      assert OccursAt(x, ">>", i);
    }
    ArrowIsContained(x, i);
  }

  /** No separator match starts inside a plain segment. */
  lemma NoSeparatorWithin(s: string, p: nat, x: string, q: nat)
    requires p <= q < p + |x| <= |s| && s[p..p + |x|] == x && PlainSegment(x)
    ensures SeparatorAt(s, q).None?
  {
    var last := p + |x| - 1;
    assert s[last] == x[|x| - 1] by { CharsAt(s, p, x); }
    var j := SkipSpace(s, q);
    if j <= last && ArrowAt(s, j).Some? {
      if ArrowAt(s, j).value <= p + |x| {
        ArrowInside(s, p, x, j);
      } else {
        ArrowChars(s, j, last);
      }
    }
  }

  /** A stretch without matches leaves the segment open. */
  lemma {:induction false} SplitSkips(s: string, p: nat, q: nat, r: nat)
    requires p <= q <= r <= |s|
    requires forall i :: q <= i < r ==> SeparatorAt(s, i).None?
    ensures SplitFrom(s, p, q) == SplitFrom(s, p, r)
    decreases r - q
  {
    if q < r {
      SplitSkips(s, p, q + 1, r);
    }
  }

  /** The scan crosses a plain segment without ending it. */
  lemma SplitPastSegment(s: string, p: nat, x: string, m: nat)
    requires m == p + |x| && m <= |s| && s[p..m] == x && PlainSegment(x)
    ensures SplitFrom(s, p, p) == SplitFrom(s, p, m)
  {
    forall q | p <= q < m ensures SeparatorAt(s, q).None? {
      NoSeparatorWithin(s, p, x, q);
    }
    SplitSkips(s, p, p, m);
  }

  /** The arrow at `w` is matched whole, whichever of the four it is. */
  lemma ArrowMatch(s: string, w: nat, a: string, e: nat)
    requires IsArrow(a) && e == w + |a| && e <= |s| && s[w..e] == a
    ensures ArrowAt(s, w) == Some(e)
  {
    CharsAt(s, w, a);
  }

  /** White space written from `i` to `j` is skipped up to `j`. */
  lemma SkipWritten(s: string, i: nat, t: string, j: nat)
    requires j == i + |t| && j <= |s| && s[i..j] == t && AllSpace(t)
    requires j == |s| || !IsSpace(s[j])
    ensures SkipSpace(s, i) == j
  {
    CharsAt(s, i, t);
    SkipSpaceAt(s, i, |t|);
  }

  /** The two parts of `s[a..]` when it is `u + w`, the second starting at `b`. */
  lemma TwoParts(s: string, a: nat, b: nat, u: string, w: string)
    requires a <= |s| && s[a..] == u + w && b == a + |u|
    ensures b <= |s| && s[a..b] == u && s[b..] == w
  {
    SliceOfSlice(s, a, 0, |u|);
    assert (u + w)[..|u|] == u;
    assert s[b..] == s[a..][|u|..];
    assert (u + w)[|u|..] == w;
  }

  /** A written separator from `m` to `f`, followed by the end or by a non-space, is matched exactly. */
  lemma SeparatorMatch(s: string, m: nat, f: nat, sep: Separator, rest: string)
    requires ValidSeparator(sep) && (rest == [] || !IsSpace(rest[0]))
    requires m <= |s| && s[m..] == SeparatorText(sep) + rest && f == m + |SeparatorText(sep)|
    ensures SeparatorAt(s, m) == Some(f)
  {
    var w := m + |sep.before|;
    var e := w + |sep.arrow|;
    assert s[m..w] == sep.before && s[w..e] == sep.arrow && s[e..] == sep.after + rest by {
      assert s[m..] == sep.before + sep.arrow + (sep.after + rest);
      ThreeParts(s, m, w, e, sep.before, sep.arrow, sep.after + rest);
    }
    assert f <= |s| && s[e..f] == sep.after && s[f..] == rest by { TwoParts(s, e, f, sep.after, rest); }
    assert f == |s| || !IsSpace(s[f]) by {
      if rest != [] {
        assert s[f] == s[f..][0];
      }
    }
    assert SkipSpace(s, m) == w by {
      assert s[w] == sep.arrow[0] by { CharsAt(s, w, sep.arrow); }
      SkipWritten(s, m, sep.before, w);
    }
    assert ArrowAt(s, w) == Some(e) by { ArrowMatch(s, w, sep.arrow, e); }
    assert SkipSpace(s, e) == f by { SkipWritten(s, e, sep.after, f); }
  }

  /** A separator written after `x`, from `m` to `f`, and followed by the end or a non-space, is matched at `m`. */
  lemma SeparatorAfter(s: string, p: nat, x: string, m: nat, f: nat, sep: Separator, rest: string)
    requires ValidSeparator(sep) && (rest == [] || !IsSpace(rest[0]))
    requires p <= |s| && s[p..] == x + SeparatorText(sep) + rest
    requires m == p + |x| && f == m + |SeparatorText(sep)|
    ensures f <= |s| && s[p..m] == x && s[f..] == rest
    ensures SeparatorAt(s, m) == Some(f)
  {
    ThreeParts(s, p, m, f, x, SeparatorText(sep), rest);
    assert s[m..] == SeparatorText(sep) + rest by {
      assert s[p..] == x + (SeparatorText(sep) + rest);
      TwoParts(s, p, m, x, SeparatorText(sep) + rest);
    }
    SeparatorMatch(s, m, f, sep, rest);
  }

  /** One turn of the split: the scan crosses the plain segment `x`, which ends at `m`, and the match there ends it. */
  lemma SplitStep(s: string, p: nat, x: string, m: nat, f: nat)
    requires PlainSegment(x) && m == p + |x| && m < |s| && s[p..m] == x
    requires SeparatorAt(s, m) == Some(f)
    ensures SplitFrom(s, p, p) == [x] + SplitFrom(s, f, f)
  {
    SplitPastSegment(s, p, x, m);
    SplitAtMatch(s, p, m, f);
  }

  /** One turn of the split over written text: the segment `x` comes back and the scan resumes at `rest`. */
  lemma SplitTurn(s: string, p: nat, x: string, sep: Separator, rest: string, m: nat, f: nat)
    requires PlainSegment(x) && ValidSeparator(sep) && (rest == [] || !IsSpace(rest[0]))
    requires p <= |s| && s[p..] == x + SeparatorText(sep) + rest
    requires m == p + |x| && f == m + |SeparatorText(sep)|
    ensures f <= |s| && s[f..] == rest
    ensures SplitFrom(s, p, p) == [x] + SplitFrom(s, f, f)
  {
    SeparatorAfter(s, p, x, m, f, sep, rest);
    SplitStep(s, p, x, m, f);
  }

  /** A match at `q` closes the segment that started at `p`. */
  lemma SplitAtMatch(s: string, p: nat, q: nat, e: nat)
    requires p <= q < |s| && SeparatorAt(s, q) == Some(e)
    ensures SplitFrom(s, p, q) == [s[p..q]] + SplitFrom(s, e, e)
  {
  }

  /**
   * Splitting the text that starts at `p` and is made of plain segments and
   * separators gives back exactly those segments.
   */
  lemma {:induction false} SplitFromJoined(s: string, p: nat, segments: seq<string>, seps: seq<Separator>)
    requires |segments| == |seps| + 1
    requires forall i :: 0 <= i < |segments| ==> PlainSegment(segments[i])
    requires forall i :: 0 <= i < |seps| ==> ValidSeparator(seps[i])
    requires p <= |s| && s[p..] == Joined(segments, seps)
    ensures SplitFrom(s, p, p) == segments
    decreases |seps|
  {
    var x := segments[0];
    assert PlainSegment(x);
    if |seps| == 0 {
      assert s[p..p + |x|] == x by { assert s[p..] == x; }
      SplitPastSegment(s, p, x, p + |x|);
    } else {
      assert segments == [x] + segments[1..];
      var rest := Joined(segments[1..], seps[1..]);
      assert rest == [] || !IsSpace(rest[0]) by {
        JoinedStartsWith(segments[1..], seps[1..]);
        assert PlainSegment(segments[1]);
        assert rest[0] == segments[1][0] by { assert rest[0] == rest[..|segments[1]|][0]; }
      }
      var m := p + |x|;
      var f := m + |SeparatorText(seps[0])|;
      SplitTurn(s, p, x, seps[0], rest, m, f);
      SplitFromJoined(s, f, segments[1..], seps[1..]);
    }
  }

  /**
   * The split is exact on a path written as plain segments with arrows
   * between them: the white space around each arrow is absorbed, and every
   * segment comes back as written, in order.
   */
  lemma SplitJoined(segments: seq<string>, seps: seq<Separator>)
    requires |segments| == |seps| + 1
    requires forall i :: 0 <= i < |segments| ==> PlainSegment(segments[i])
    requires forall i :: 0 <= i < |seps| ==> ValidSeparator(seps[i])
    ensures SplitPath(Joined(segments, seps)) == segments
  {
    var s := Joined(segments, seps);
    assert s[0..] == s;
    SplitFromJoined(s, 0, segments, seps);
  }

  // ---- reading a segment ----

  /** JavaScript's `\w`. */
  predicate IsWordChar(c: char) {
    'a' <= c <= 'z' || 'A' <= c <= 'Z' || '0' <= c <= '9' || c == '_'
  }

  predicate IsWord(s: string) {
    |s| > 0 && forall i :: 0 <= i < |s| ==> IsWordChar(s[i])
  }

  /** The end of the run of word characters starting at `i`. */
  function WordEnd(s: string, i: nat): (j: nat)
    requires i <= |s|
    ensures i <= j <= |s|
    ensures j == |s| || !IsWordChar(s[j])
    ensures forall k :: i <= k < j ==> IsWordChar(s[k])
    decreases |s| - i
  {
    if i < |s| && IsWordChar(s[i]) then WordEnd(s, i + 1) else i
  }

  /** A step of the drawn route. */
  datatype Step = Step(chain: string, token: string)

  /** `/^(\w+)\s+(\w+)$/`: "Chain Token". */
  function ChainFirst(t: string): Option<Step> {
    var i := WordEnd(t, 0);
    var j := SkipSpace(t, i);
    if 0 < i < j && IsWord(t[j..]) then Some(Step(t[..i], t[j..])) else None
  }

  /** `/^(\w+)\s*\((\w+)\)$/`: "Token (Chain)". */
  function TokenParen(t: string): Option<Step> {
    var i := WordEnd(t, 0);
    var j := SkipSpace(t, i);
    if 0 < i && j < |t| && t[j] == '(' then
      var k := WordEnd(t, j + 1);
      if j + 1 < k && k == |t| - 1 && t[k] == ')' then Some(Step(t[j + 1..k], t[..i])) else None
    else None
  }

  /** One segment as a step: "Chain Token", else "Token (Chain)", else the trimmed text as a label. */
  function ParseSegment(seg: string): Step {
    var trimmed := Trim(seg);
    match ChainFirst(trimmed)
    case Some(step) => step
    case None =>
      match TokenParen(trimmed)
      case Some(step) => step
      case None => Step("", trimmed)
  }

  /** A run of `n` word characters at `i`, ended by the text or a non-word character. */
  lemma WordEndAt(s: string, i: nat, n: nat)
    requires i + n <= |s| && (i + n == |s| || !IsWordChar(s[i + n]))
    requires forall k :: i <= k < i + n ==> IsWordChar(s[k])
    ensures WordEnd(s, i) == i + n
  {
  }

  /** A run of `n` white-space characters at `i`, ended by the text or a character that is not white space. */
  lemma SkipSpaceAt(s: string, i: nat, n: nat)
    requires i + n <= |s| && (i + n == |s| || !IsSpace(s[i + n]))
    requires forall k :: i <= k < i + n ==> IsSpace(s[k])
    ensures SkipSpace(s, i) == i + n
  {
  }

  /** Text that neither starts nor ends with white space is its own trim. */
  lemma TrimmedAlready(t: string)
    requires |t| > 0 && !IsSpace(t[0]) && !IsSpace(t[|t| - 1])
    ensures Trim(t) == t
  {
  }

  /** "Chain Token" reads back as that step. */
  lemma ReadChainFirst(chain: string, token: string)
    requires IsWord(chain) && IsWord(token)
    ensures ParseSegment(chain + " " + token) == Step(chain, token)
  {
    var t := chain + " " + token;
    TrimmedAlready(t);
    WordEndAt(t, 0, |chain|);
    SkipSpaceAt(t, |chain|, 1);
    assert t[..|chain|] == chain && t[|chain| + 1..] == token;
  }

  /** The "Token (Chain)" pattern matches its own layout. */
  lemma TokenParenOf(token: string, chain: string)
    requires IsWord(chain) && IsWord(token)
    ensures TokenParen(token + " (" + chain + ")") == Some(Step(chain, token))
  {
    var t := token + " (" + chain + ")";
    var j := |token| + 1;
    WordEndAt(t, 0, |token|);
    SkipSpaceAt(t, |token|, 1);
    assert t[j] == '(';
    WordEndAt(t, j + 1, |chain|);
    assert t[j + 1..|t| - 1] == chain && t[..|token|] == token;
  }

  /** The "Chain Token" pattern does not match "Token (Chain)". */
  lemma ChainFirstMisses(token: string, chain: string)
    requires IsWord(chain) && IsWord(token)
    ensures ChainFirst(token + " (" + chain + ")").None?
  {
    var t := token + " (" + chain + ")";
    WordEndAt(t, 0, |token|);
    SkipSpaceAt(t, |token|, 1);
    assert t[|token| + 1..][0] == '(';
  }

  /** "Token (Chain)" reads back as that step. */
  lemma ReadTokenParen(token: string, chain: string)
    requires IsWord(chain) && IsWord(token)
    ensures ParseSegment(token + " (" + chain + ")") == Step(chain, token)
  {
    var t := token + " (" + chain + ")";
    TrimmedAlready(t);
    ChainFirstMisses(token, chain);
    TokenParenOf(token, chain);
  }

  /** Text with no `>` holds none of the arrows: each of them has one. */
  lemma NoArrowWithoutGt(s: string)
    requires forall i :: 0 <= i < |s| ==> s[i] != '>'
    ensures !HasArrow(s)
  {
    forall i | 0 <= i <= |s| - 2 ensures !OccursAt(s, "->", i) && !OccursAt(s, "=>", i) && !OccursAt(s, ">>", i) {
      assert s[i..i + 2][1] == s[i + 1];
    }
  }

  /** "Chain Token" is a plain segment: the split hands it back intact. */
  lemma WordPairIsPlain(chain: string, token: string)
    requires IsWord(chain) && IsWord(token)
    ensures PlainSegment(chain + " " + token)
  {
    var x := chain + " " + token;
    forall i | 0 <= i < |x| ensures x[i] != '>' {
      if i < |chain| {
        assert x[i] == chain[i];
      } else if i > |chain| {
        assert x[i] == token[i - |chain| - 1];
      }
    }
    NoArrowWithoutGt(x);
    assert x[0] == chain[0] && x[|x| - 1] == token[|token| - 1];
  }

  // ---- parseRoutePath ----

  /** `x || '?'` for a required intent field. */
  function OrUnknown(s: string): string {
    if s == "" then "?" else s
  }

  /**
   * `parseRoutePath(path, intent)`: a step per segment when the path has an
   * arrow; otherwise the intent's two ends, or the whole path as one label.
   */
  function ParseRoutePath(path: string, intent: Option<ParsedIntent>): (steps: seq<Step>)
    ensures var segments := SplitPath(path);
      |segments| >= 2 ==> |steps| == |segments| && forall i :: 0 <= i < |steps| ==> steps[i] == ParseSegment(segments[i])
    ensures |SplitPath(path)| < 2 && intent.Some? ==>
              var it := intent.value;
              steps == [Step(Or(it.fromChain, ""), OrUnknown(it.fromToken)),
                        Step(Or(OrElse(it.toChain, it.fromChain), ""), OrUnknown(it.toToken))]
    ensures |SplitPath(path)| < 2 && intent.None? ==> steps == [Step("", path)]
  {
    var segments := SplitPath(path);
    if |segments| >= 2 then seq(|segments|, i requires 0 <= i < |segments| => ParseSegment(segments[i]))
    else if intent.Some? then
      var it := intent.value;
      [Step(Or(it.fromChain, ""), OrUnknown(it.fromToken)),
       Step(Or(OrElse(it.toChain, it.fromChain), ""), OrUnknown(it.toToken))]
    else [Step("", path)]
  }

  /** A path without arrows is drawn from the intent (two steps) or as one label. */
  lemma ArrowlessPath(path: string, intent: Option<ParsedIntent>)
    requires !HasArrow(path)
    ensures |ParseRoutePath(path, intent)| == (if intent.Some? then 2 else 1)
  {
    SplitCount(path);
  }

  /** `isCrossChain`: both ends name a chain, and the names differ ignoring case. */
  predicate IsCrossChain(steps: seq<Step>) {
    |steps| >= 2 && steps[0].chain != "" && steps[|steps| - 1].chain != ""
    && ToLower(steps[0].chain) != ToLower(steps[|steps| - 1].chain)
  }

  /** "Base USDC -> Arbitrum USDC" crosses chains; a route between two spellings of one chain does not. */
  lemma CrossChainOfTwoSteps(c1: string, t1: string, c2: string, t2: string)
    requires IsWord(c1) && IsWord(t1) && IsWord(c2) && IsWord(t2)
    ensures IsCrossChain([Step(c1, t1), Step(c2, t2)]) <==> ToLower(c1) != ToLower(c2)
  {
  }

  /**
   * A path written as plain segments with arrows between them is drawn as
   * one step per segment, in order, each read by `ParseSegment`.
   */
  lemma ParseJoinedPath(segments: seq<string>, seps: seq<Separator>, intent: Option<ParsedIntent>)
    requires |segments| >= 2 && |segments| == |seps| + 1
    requires forall i :: 0 <= i < |segments| ==> PlainSegment(segments[i])
    requires forall i :: 0 <= i < |seps| ==> ValidSeparator(seps[i])
    ensures var steps := ParseRoutePath(Joined(segments, seps), intent);
      |steps| == |segments| && forall i :: 0 <= i < |steps| ==> steps[i] == ParseSegment(segments[i])
  {
    SplitJoined(segments, seps);
  }

  /**
   * "Chain Token", an arrow with any white space around it, "Chain Token":
   * two steps holding exactly the written names, and a cross-chain route
   * exactly when the chain names differ ignoring case.
   */
  lemma TwoStepPath(c1: string, t1: string, sep: Separator, c2: string, t2: string, intent: Option<ParsedIntent>)
    requires IsWord(c1) && IsWord(t1) && IsWord(c2) && IsWord(t2) && ValidSeparator(sep)
    ensures ParseRoutePath(c1 + " " + t1 + SeparatorText(sep) + c2 + " " + t2, intent) == [Step(c1, t1), Step(c2, t2)]
    ensures IsCrossChain(ParseRoutePath(c1 + " " + t1 + SeparatorText(sep) + c2 + " " + t2, intent)) <==> ToLower(c1) != ToLower(c2)
  {
    var x1 := c1 + " " + t1;
    var x2 := c2 + " " + t2;
    WordPairIsPlain(c1, t1);
    WordPairIsPlain(c2, t2);
    assert Joined([x1, x2], [sep]) == c1 + " " + t1 + SeparatorText(sep) + c2 + " " + t2 by {
      assert Joined([x1, x2], [sep]) == x1 + SeparatorText(sep) + Joined([x2], []);
    }
    ParseJoinedPath([x1, x2], [sep], intent);
    ReadChainFirst(c1, t1);
    ReadChainFirst(c2, t2);
    CrossChainOfTwoSteps(c1, t1, c2, t2);
  }

  /** The path from the component's own doc comment. */
  lemma BaseToArbitrum(intent: Option<ParsedIntent>)
    ensures ParseRoutePath("Base USDC -> Arbitrum USDC", intent) == [Step("Base", "USDC"), Step("Arbitrum", "USDC")]
    ensures IsCrossChain(ParseRoutePath("Base USDC -> Arbitrum USDC", intent))
  {
    var sep := Separator(" ", "->", " ");
    assert ValidSeparator(sep);
    assert "Base" + " " + "USDC" + SeparatorText(sep) + "Arbitrum" + " " + "USDC" == "Base USDC -> Arbitrum USDC";
    TwoStepPath("Base", "USDC", sep, "Arbitrum", "USDC", intent);
    assert |ToLower("Base")| != |ToLower("Arbitrum")|;
  }
}
