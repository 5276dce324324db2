/** replaceBetween (tools/build.mjs:122-129): the build patches the home page
    and the articles index by replacing the text between two HTML comment
    markers. */
module Markers {
  import opened Strings

  const GridStart: string := "<!-- AUTO:ARTICLES_GRID_START -->"
  const GridEnd: string := "<!-- AUTO:ARTICLES_GRID_END -->"
  const ListStart: string := "<!-- AUTO:ARTICLES_LIST_START -->"
  const ListEnd: string := "<!-- AUTO:ARTICLES_LIST_END -->"

  /** Keeps `src` up to the end of the first start marker and from the first
      end marker on, with `replacement` in between; leaves `src` as it is when
      a marker is missing or the first end marker comes before the first
      start marker. */
  function ReplaceBetween(src: string, startMark: string, endMark: string, replacement: string): string {
    match (IndexOf(src, startMark), IndexOf(src, endMark))
    case (Some(a), Some(b)) =>
      if b < a then src else src[..a + |startMark|] + replacement + src[b..]
    case _ => src
  }

  /** `k` is the first index at which `p` occurs in `s`. */
  predicate FirstAt(s: string, p: string, k: nat) {
    MatchAt(s, p, k) && forall j :: 0 <= j < k ==> !MatchAt(s, p, j)
  }

  lemma IndexOfIsFirst(s: string, p: string, k: nat)
    requires FirstAt(s, p, k)
    ensures IndexOf(s, p) == Some(k)
  {
    assert k <= |s|;
  }

  /** A missing marker leaves the text unchanged. */
  lemma MissingMarker(src: string, startMark: string, endMark: string, replacement: string)
    requires !Contains(src, startMark) || !Contains(src, endMark)
    ensures ReplaceBetween(src, startMark, endMark, replacement) == src
  {
    ContainsIffIndexOf(src, startMark);
    ContainsIffIndexOf(src, endMark);
  }

  /** An end marker first found before the start marker leaves the text
      unchanged. */
  lemma MarkersOutOfOrder(src: string, startMark: string, endMark: string, replacement: string, a: nat, b: nat)
    requires FirstAt(src, startMark, a) && FirstAt(src, endMark, b) && b < a
    ensures ReplaceBetween(src, startMark, endMark, replacement) == src
  {
    IndexOfIsFirst(src, startMark, a);
    IndexOfIsFirst(src, endMark, b);
  }

  /** Otherwise everything up to the end of the start marker and from the end
      marker on is kept, and the replacement sits between them. */
  lemma MarkersInOrder(src: string, startMark: string, endMark: string, replacement: string, a: nat, b: nat)
    requires FirstAt(src, startMark, a) && FirstAt(src, endMark, b) && a <= b
    ensures a + |startMark| <= |src| && b <= |src|
    ensures ReplaceBetween(src, startMark, endMark, replacement)
      == src[..a + |startMark|] + replacement + src[b..]
  {
    IndexOfIsFirst(src, startMark, a);
    IndexOfIsFirst(src, endMark, b);
  }

  /** The replacement appears in the patched text. */
  lemma PatchedContainsReplacement(src: string, startMark: string, endMark: string, replacement: string, a: nat, b: nat)
    requires FirstAt(src, startMark, a) && FirstAt(src, endMark, b) && a <= b
    ensures Contains(ReplaceBetween(src, startMark, endMark, replacement), replacement)
  {
    MarkersInOrder(src, startMark, endMark, replacement, a, b);
    ContainsMiddle(src[..a + |startMark|], replacement, src[b..]);
  }

  /** In the patched text the start marker is still first found at `a`. */
  lemma StartStaysFirst(src: string, startMark: string, replacement: string, rest: string, a: nat)
    requires FirstAt(src, startMark, a)
    ensures a + |startMark| <= |src|
    ensures FirstAt(src[..a + |startMark|] + replacement + rest, startMark, a)
  {
    var h := src[..a + |startMark|];
    var r := h + replacement + rest;
    assert r[a..a + |startMark|] == src[a..a + |startMark|];
    forall j | 0 <= j < a ensures !MatchAt(r, startMark, j) {
      assert r[j..j + |startMark|] == h[j..j + |startMark|] == src[j..j + |startMark|];
      assert !MatchAt(src, startMark, j);
    }
  }

  /** The end marker is first found where the splice put it, provided no end
      marker begins earlier in the text before it. */
  lemma EndStaysFirst(t: string, endMark: string, tail: string)
    requires endMark != [] && StartsWith(tail, endMark)
    requires !Contains(t + endMark[..|endMark| - 1], endMark)
    ensures FirstAt(t + tail, endMark, |t|)
  {
    var r := t + tail;
    var w := t + endMark[..|endMark| - 1];
    assert r[|t|..|t| + |endMark|] == tail[..|endMark|];
    forall j | 0 <= j < |t| ensures !MatchAt(r, endMark, j) {
      if MatchAt(r, endMark, j) {
        assert r[..|w|] == w;
        assert w[j..j + |endMark|] == r[j..j + |endMark|];
        ContainsAt(w, endMark, j);
      }
    }
  }

  /** Patching again with the same replacement changes nothing, provided the
      start marker comes first and no end marker begins before the one that
      follows the replacement (in particular, the replacement holds none). */
  lemma ReplaceBetweenIdempotent(src: string, startMark: string, endMark: string, replacement: string, a: nat, b: nat)
    requires FirstAt(src, startMark, a) && FirstAt(src, endMark, b) && a <= b
    requires endMark != []
    requires !Contains(src[..a + |startMark|] + replacement + endMark[..|endMark| - 1], endMark)
    ensures var once := ReplaceBetween(src, startMark, endMark, replacement);
      ReplaceBetween(once, startMark, endMark, replacement) == once
  {
    MarkersInOrder(src, startMark, endMark, replacement, a, b);
    var h := src[..a + |startMark|];
    var tail := src[b..];
    var once := h + replacement + tail;
    StartStaysFirst(src, startMark, replacement, tail, a);
    assert tail[..|endMark|] == src[b..b + |endMark|];
    EndStaysFirst(h + replacement, endMark, tail);
    MarkersInOrder(once, startMark, endMark, replacement, a, |h + replacement|);
    assert once[..a + |startMark|] == h;
    assert once[|h + replacement|..] == tail;
  }
}
