/** The references section of a post (tools/build.mjs:142-191). A post may
    end its Markdown with a "## 参考链接" or "## 参考文献" section of bullet
    links. stripReferencesSection removes that section from the Markdown
    that becomes the article body, and buildReferencesFromMarkdown renders
    its bullets as a references card. Both find the same heading and stop at
    the same line. */
module References {
  import opened Strings
  import opened Html

  // ------------------------------------------------------- the section

  /** /^##\s+(参考链接|参考文献)\s*$/ tested on the trimmed line: "##", at
      least one blank, one of the two titles, and nothing else. */
  predicate IsReferencesHeading(line: string) {
    var t := Trim(line);
    && |t| > 2 && t[..2] == "##" && IsSpace(t[2])
    && (Trim(t[2..]) == "参考链接" || Trim(t[2..]) == "参考文献")
  }

  /** A line whose trimmed text starts with "## ", where the section ends. */
  predicate IsSectionBreak(line: string) {
    StartsWith(Trim(line), "## ")
  }

  /** lines.findIndex(...) from `k` on. */
  function FindHeadingFrom(lines: seq<string>, k: nat): (r: Option<nat>)
    requires k <= |lines|
    ensures r.Some? ==> k <= r.value < |lines| && IsReferencesHeading(lines[r.value])
    ensures forall j :: k <= j < |lines| && (r.None? || j < r.value) ==> !IsReferencesHeading(lines[j])
    decreases |lines| - k
  {
    if k == |lines| then None
    else if IsReferencesHeading(lines[k]) then Some(k)
    else FindHeadingFrom(lines, k + 1)
  }

  /** The index of the first references heading. */
  function FindHeading(lines: seq<string>): (r: Option<nat>)
    ensures r.Some? ==> r.value < |lines| && IsReferencesHeading(lines[r.value])
    ensures forall j :: 0 <= j < |lines| && (r.None? || j < r.value) ==> !IsReferencesHeading(lines[j])
  {
    FindHeadingFrom(lines, 0)
  }

  /** The index of the first section break at or after `k`, or the number of
      lines when there is none. */
  function SectionEnd(lines: seq<string>, k: nat): (r: nat)
    requires k <= |lines|
    ensures k <= r <= |lines|
    ensures r < |lines| ==> IsSectionBreak(lines[r])
    decreases |lines| - k
  {
    if k == |lines| || IsSectionBreak(lines[k]) then k else SectionEnd(lines, k + 1)
  }

  /** No line before the section end is a section break. */
  lemma {:induction false} SectionEndIsFirst(lines: seq<string>, k: nat, j: nat)
    requires k <= j < |lines| && j < SectionEnd(lines, k)
    ensures !IsSectionBreak(lines[j])
    decreases j - k
  {
    if j > k {
      SectionEndIsFirst(lines, k + 1, j);
    }
  }

  /** On the way from `k`, the section ends at the first line whose trimmed
      text starts with "## ". */
  lemma SectionStep(lines: seq<string>, k: nat, i: nat)
    requires k <= i < |lines| && i <= SectionEnd(lines, k)
    ensures IsSectionBreak(lines[i]) <==> i == SectionEnd(lines, k)
  {
    if i < SectionEnd(lines, k) {
      SectionEndIsFirst(lines, k, i);
    }
  }

  // ----------------------------------------------- stripReferencesSection

  /** What stripReferencesSection returns: the text itself when it has no
      references heading; otherwise its lines without the first heading and
      the lines after it up to the next section break, joined by line feeds,
      trimmed, with one line feed appended. */
  function StripSpec(md: string): string {
    var lines := SplitLines(md);
    match FindHeading(lines)
    case None => md
    case Some(h) => Trim(Join(lines[..h] + lines[SectionEnd(lines, h + 1)..], "\n")) + "\n"
  }

  /** The inner loop of stripReferencesSection: from `i` to the next
      section break, or to the end. */
  method SkipSection(lines: seq<string>, i: nat) returns (j: nat)
    requires i <= |lines|
    ensures j == SectionEnd(lines, i)
  {
    j := i;
    while j < |lines| && !IsSectionBreak(lines[j])
      invariant i <= j <= SectionEnd(lines, i)
    {
      j := j + 1;
    }
    if j < SectionEnd(lines, i) {
      SectionEndIsFirst(lines, i, j);
    }
  }

  /** The loop of stripReferencesSection: copies each line except the
      heading at `h` and the lines it skips over after it. */
  method KeepOutsideSection(lines: seq<string>, h: nat) returns (out: seq<string>)
    requires h < |lines|
    ensures out == lines[..h] + lines[SectionEnd(lines, h + 1)..]
  {
    ghost var e := SectionEnd(lines, h + 1);
    out := [];
    var i := 0;
    while i < |lines|
      invariant 0 <= i <= |lines|
      invariant i <= h || e <= i
      invariant i <= h ==> out == lines[..i]
      invariant i > h ==> out == lines[..h] + lines[e..i]
    {
      if i == h {
        i := SkipSection(lines, i + 1);
        // The source steps back one line here so that its loop increment
        // lands on the section break again.
        assert lines[e..i] == [];
        continue;
      }
      SliceSnoc(lines, if i < h then 0 else e, i);
      out := out + [lines[i]];
      i := i + 1;
    }
    assert lines[..|lines|] == lines;
  }

  /** stripReferencesSection */
  method StripReferencesSection(md: string) returns (r: string)
    ensures r == StripSpec(md)
  {
    var lines := SplitLines(md);
    var found := FindHeading(lines);
    if found.None? {
      return md;
    }
    var out := KeepOutsideSection(lines, found.value);
    r := Trim(Join(out, "\n")) + "\n";
  }

  /** Without a references heading the text is returned as it is. */
  lemma StripWithoutHeading(md: string)
    requires forall j :: 0 <= j < |SplitLines(md)| ==> !IsReferencesHeading(SplitLines(md)[j])
    ensures StripSpec(md) == md
  {
  }

  /** With a heading the result ends in exactly one line feed: the character
      before it, if any, is not blank. */
  lemma StripEndsInOneLineFeed(md: string)
    requires FindHeading(SplitLines(md)).Some?
    ensures var r := StripSpec(md);
      r != [] && r[|r| - 1] == '\n' && (|r| == 1 || !IsSpace(r[|r| - 2]))
  {
    var lines := SplitLines(md);
    var h := FindHeading(lines).value;
    TrimmedLine(Join(lines[..h] + lines[SectionEnd(lines, h + 1)..], "\n"));
  }

  /** A trimmed text with one line feed appended ends in exactly that line feed. */
  lemma TrimmedLine(x: string)
    ensures var r := Trim(x) + "\n";
      r != [] && r[|r| - 1] == '\n' && (|r| == 1 || !IsSpace(r[|r| - 2]))
  {
    var t := Trim(x);
    if t != [] {
      assert (t + "\n")[|t| - 1] == t[|t| - 1];
    }
  }


  // ------------------------------------------ buildReferencesFromMarkdown

  predicate NoLineTerminator(s: string) {
    forall i :: 0 <= i < |s| ==> !IsLineTerminator(s[i])
  }

  /** line.match(/^-\s+(.+)$/)?.[1]: a hyphen, at least one blank, and the
      rest of the line after the blanks, which `.` must match throughout. */
  function BulletText(line: string): (r: Option<string>)
    ensures r.Some? ==> r.value != [] && !IsSpace(r.value[0]) && NoLineTerminator(r.value)
  {
    if |line| >= 2 && line[0] == '-' && IsSpace(line[1]) then
      var rest := TrimStart(line[1..]);
      if rest != [] && NoLineTerminator(rest) then Some(rest) else None
    else None
  }

  /** The bullet text of a line, which the source trims first. */
  function Bullet(line: string): Option<string> {
    BulletText(Trim(line))
  }

  /** The bullet texts of the lines of `ls`, in order. */
  function Bullets(ls: seq<string>): seq<string> {
    FilterMap(Bullet, ls)
  }

  /** `k` opens the first `<…>` of `s` that closes at `q`: a '<', at least one
      character that is not '>', and the first '>' after it. */
  predicate UrlAt(s: string, k: nat, q: nat) {
    && k + 2 <= q < |s| && s[k] == '<' && s[q] == '>'
    && forall j :: k < j < q ==> s[j] != '>'
  }

  /** it.match(/<([^>]+)>/) from `k` on: the leftmost `<…>`. */
  function UrlFrom(s: string, k: nat): (r: Option<(nat, nat)>)
    requires k <= |s|
    ensures r.Some? ==> k <= r.value.0 && UrlAt(s, r.value.0, r.value.1)
    ensures forall p, q :: k <= p && (r.None? || p < r.value.0) ==> !UrlAt(s, p, q)
    decreases |s| - k
  {
    if k == |s| then None
    else if s[k] == '<' then
      var close := IndexFrom(s, ">", k + 1);
      CloseAfter(s, k, close);
      if close.Some? && close.value >= k + 2 then Some((k, close.value))
      else UrlFrom(s, k + 1)
    else UrlFrom(s, k + 1)
  }

  /** What the first '>' after a '<' at `k` says about a `<…>` opening
      there. */
  lemma CloseAfter(s: string, k: nat, close: Option<nat>)
    requires k < |s| && s[k] == '<' && close == IndexFrom(s, ">", k + 1)
    ensures close.Some? && close.value >= k + 2 ==> UrlAt(s, k, close.value)
    ensures !(close.Some? && close.value >= k + 2) ==> forall q :: !UrlAt(s, k, q)
  {
    forall j: nat | k + 1 <= j ensures MatchAt(s, ">", j) <==> j < |s| && s[j] == '>' {
      MatchChar(s, '>', j);
    }
  }

  predicate IsColon(c: char) {
    c == ':' || c == '：'
  }

  /** replace(/[:：]?\s*$/, ''): trailing blanks and then one colon, ASCII or
      full-width, go. */
  function DropColon(s: string): string {
    var u := TrimEnd(s);
    if u != [] && IsColon(u[|u| - 1]) then u[..|u| - 1] else u
  }

  const LiOpen: string := "<li>"
  const LiClose: string := "</li>"
  const LabelEnd: string := "： <a href=\""
  const HrefEnd: string := "\" target=\"_blank\" rel=\"noreferrer\">"
  const LinkClose: string := "</a></li>"

  /** The label of a linked bullet: the bullet without its first `<…>`,
      trimmed, without a trailing colon, or the url when nothing remains. */
  function LinkLabel(it: string, p: nat, q: nat): string
    requires p < q < |it|
  {
    var url := it[p + 1..q];
    OrElse(Some(DropColon(Trim(ReplaceFirst(it, it[p..q + 1], "")))), url)
  }

  /** One list item of the references card. */
  function ItemHtml(it: string): string {
    match UrlFrom(it, 0)
    case Some((p, q)) =>
      var url := it[p + 1..q];
      LiOpen + Escape(LinkLabel(it, p, q)) + LabelEnd + Escape(url) + HrefEnd + Escape(url) + LinkClose
    case None => LiOpen + Escape(it) + LiClose
  }

  /** The references card around the list items. */
  function ReferencesCard(lis: string): string {
    "\n    <h2 id=\"references\">参考链接</h2>\n    <div class=\"references\">\n      <ul>" + lis + "</ul>\n    </div>\n  "
  }

  /** The bullets of the references section, or None without a heading. */
  function ReferenceItems(md: string): Option<seq<string>> {
    var lines := SplitLines(md);
    match FindHeading(lines)
    case None => None
    case Some(h) => Some(Bullets(lines[h + 1..SectionEnd(lines, h + 1)]))
  }

  /** What buildReferencesFromMarkdown returns: "" without a heading or
      without bullets, otherwise the card of one list item per bullet. */
  function ReferencesSpec(md: string): string {
    match ReferenceItems(md)
    case None => ""
    case Some(items) => if items == [] then "" else ReferencesCard(Join(Map(ItemHtml, items), ""))
  }

  /** The loop of buildReferencesFromMarkdown: scans the lines after the
      heading at `h` up to the next section break and collects the bullet
      texts. */
  method CollectBullets(lines: seq<string>, h: nat) returns (items: seq<string>)
    requires h < |lines|
    ensures items == Bullets(lines[h + 1..SectionEnd(lines, h + 1)])
  {
    ghost var e := SectionEnd(lines, h + 1);
    items := [];
    var i := h + 1;
    while i < |lines|
      invariant h + 1 <= i <= e
      invariant items == Bullets(lines[h + 1..i])
    {
      SectionStep(lines, h + 1, i);
      if IsSectionBreak(lines[i]) {
        break;
      }
      var m := Bullet(lines[i]);
      BulletStep(lines, h + 1, i, items, m);
      if m.Some? {
        items := items + [m.value];
      }
      i := i + 1;
    }
    assert i == e;
  }

  lemma BulletStep(lines: seq<string>, k: nat, i: nat, items: seq<string>, m: Option<string>)
    requires k <= i < |lines| && items == Bullets(lines[k..i]) && m == Bullet(lines[i])
    ensures m.Some? ==> Bullets(lines[k..i + 1]) == items + [m.value]
    ensures m.None? ==> Bullets(lines[k..i + 1]) == items
  {
    FilterMapSnoc(Bullet, lines[k..i], lines[i]);
    SliceSnoc(lines, k, i);
  }

  /** buildReferencesFromMarkdown */
  method BuildReferencesFromMarkdown(md: string) returns (r: string)
    ensures r == ReferencesSpec(md)
  {
    var lines := SplitLines(md);
    var found := FindHeading(lines);
    if found.None? {
      return "";
    }
    var items := CollectBullets(lines, found.value);
    if |items| == 0 {
      return "";
    }
    r := ReferencesCard(Join(Map(ItemHtml, items), ""));
  }

  // ---------------------------------------------------------- properties

  /** Without a references heading there is no card. */
  lemma NoHeadingNoCard(md: string)
    requires forall j :: 0 <= j < |SplitLines(md)| ==> !IsReferencesHeading(SplitLines(md)[j])
    ensures ReferencesSpec(md) == ""
  {
  }

  /** The card shows only bullets of lines that stripping removes: lines
      strictly between the heading and the section break. */
  lemma CardBulletsAreStripped(md: string, h: nat, x: string)
    requires FindHeading(SplitLines(md)) == Some(h)
    requires ReferenceItems(md).Some? && x in ReferenceItems(md).value
    ensures exists j :: h < j < SectionEnd(SplitLines(md), h + 1) && Bullet(SplitLines(md)[j]) == Some(x)
  {
    var lines := SplitLines(md);
    var span := lines[h + 1..SectionEnd(lines, h + 1)];
    FilterMapSource(Bullet, span, x);
    var j :| 0 <= j < |span| && Bullet(span[j]) == Some(x);
    assert lines[h + 1 + j] == span[j];
  }

  /** A heading with bullets gives a card of one list item per bullet, in
      order. */
  lemma OneItemPerBullet(md: string)
    requires ReferenceItems(md).Some? && ReferenceItems(md).value != []
    ensures var items := ReferenceItems(md).value;
      var lis := Map(ItemHtml, items);
      && |lis| == |items|
      && (forall i :: 0 <= i < |items| ==> lis[i] == ItemHtml(items[i]))
      && ReferencesSpec(md) == ReferencesCard(Join(lis, ""))
  {
  }

  /** The url's `<…>` is the first occurrence of that text, so the replace
      call removes it where the match found it. */
  lemma UrlRemovedInPlace(it: string, p: nat, q: nat)
    requires UrlFrom(it, 0) == Some((p, q))
    ensures ReplaceFirst(it, it[p..q + 1], "") == it[..p] + it[q + 1..]
  {
    var pat := it[p..q + 1];
    assert MatchAt(it, pat, p);
    forall f | 0 <= f < p ensures !MatchAt(it, pat, f) {
      if MatchAt(it, pat, f) {
        var q2 := f + (q - p);
        assert it[f] == pat[0] == '<' && it[q2] == pat[q - p] == '>';
        forall j | f < j < q2 ensures it[j] != '>' {
          assert it[j] == pat[j - f] == it[p + (j - f)];
        }
        assert UrlAt(it, f, q2);
      }
    }
    assert IndexOf(it, pat) == Some(p);
  }

  /** The url of a `<…>` is non-empty and holds no '>'. */
  lemma UrlShape(it: string, p: nat, q: nat)
    requires UrlAt(it, p, q)
    ensures it[p + 1..q] != [] && !Contains(it[p + 1..q], ">")
  {
    var url := it[p + 1..q];
    forall k: nat | k <= |url| ensures !MatchAt(url, ">", k) {
      MatchChar(url, '>', k);
      if k < |url| {
        assert url[k] == it[p + 1 + k];
      }
    }
  }

  /** A linked bullet: its label is the text around the url, trimmed and
      without one trailing colon, or the url itself when that is empty; the
      url is escaped in the link target and in the link text. */
  lemma LinkedBullet(it: string, p: nat, q: nat)
    requires UrlFrom(it, 0) == Some((p, q))
    ensures var url := it[p + 1..q];
      var rest := DropColon(Trim(it[..p] + it[q + 1..]));
      ItemHtml(it) == LiOpen + Escape(if rest != [] then rest else url)
        + LabelEnd + Escape(url) + HrefEnd + Escape(url) + LinkClose
  {
    UrlRemovedInPlace(it, p, q);
  }

  /** A bullet without a `<…>` becomes its escaped text. */
  lemma PlainBullet(it: string)
    requires forall p, q :: !UrlAt(it, p, q)
    ensures ItemHtml(it) == LiOpen + Escape(it) + LiClose
  {
  }

  /** Values without markup between fixed texts add none. */
  lemma MarkupFrame(a: string, x: string, b: string, y: string, c: string, z: string, d: string)
    requires Markup(x) == "" && Markup(y) == "" && Markup(z) == ""
    ensures Markup(a + x + b + y + c + z + d) == Markup(a) + Markup(b) + Markup(c) + Markup(d)
  {
    MarkupConcat(a, x);
    MarkupConcat(a + x, b);
    MarkupConcat(a + x + b, y);
    MarkupConcat(a + x + b + y, c);
    MarkupConcat(a + x + b + y + c, z);
    MarkupConcat(a + x + b + y + c + z, d);
  }

  lemma MarkupAround(a: string, x: string, b: string)
    requires Markup(x) == ""
    ensures Markup(a + x + b) == Markup(a) + Markup(b)
  {
    MarkupConcat(a, x);
    MarkupConcat(a + x, b);
  }

  /** Bullet text cannot add markup: the markup characters of a plain list
      item are those of its fixed template text. */
  lemma PlainItemMarkup(it: string)
    requires UrlFrom(it, 0).None?
    ensures Markup(ItemHtml(it)) == Markup(LiOpen) + Markup(LiClose)
  {
    assert ItemHtml(it) == LiOpen + Escape(it) + LiClose;
    MarkupOfEscape(it);
    MarkupAround(LiOpen, Escape(it), LiClose);
  }

  /** The same for a linked list item. */
  lemma LinkedItemMarkup(it: string, p: nat, q: nat)
    requires UrlFrom(it, 0) == Some((p, q))
    ensures Markup(ItemHtml(it)) == Markup(LiOpen) + Markup(LabelEnd) + Markup(HrefEnd) + Markup(LinkClose)
  {
    var l, url := LinkLabel(it, p, q), it[p + 1..q];
    assert ItemHtml(it) == LiOpen + Escape(l) + LabelEnd + Escape(url) + HrefEnd + Escape(url) + LinkClose;
    MarkupOfEscape(l);
    MarkupOfEscape(url);
    MarkupFrame(LiOpen, Escape(l), LabelEnd, Escape(url), HrefEnd, Escape(url), LinkClose);
  }
}
