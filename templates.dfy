/** The page templates of tools/templates.mjs.

    Each template is a concatenation of fixed template text, values passed
    through escapeHtml and values inserted verbatim. The templates are
    written as a few nested parts (the page shell around its content, the
    article header, the navigation block) so that each property can be
    stated about the part it concerns. The long fixed texts (inline CSS,
    scripts, the navigation bar) come in through a Chrome record. */
module Templates {
  import opened Strings
  import opened Html

  /** A link of the article navigation, as toNav builds it. */
  datatype NavLink = NavLink(href: string, title: Option<string>)

  /** The front matter fields articleHtml reads. */
  datatype ArticleMeta = ArticleMeta(
    title: Option<string>, category: Option<string>, date: Option<string>,
    readTime: Option<string>, description: Option<string>,
    heroStyle: Option<string>, referencesHtml: Option<string>)

  /** One entry of the articles index. */
  datatype IndexItem = IndexItem(
    href: Option<string>, title: Option<string>, description: Option<string>,
    date: Option<string>, category: Option<string>)

  /** One card of the home page grid. */
  datatype CardItem = CardItem(
    href: Option<string>, title: Option<string>, description: Option<string>,
    date: Option<string>, readTime: Option<string>, category: Option<string>,
    heroClass: Option<string>)

  /** The large fixed blocks of the pages: the document head, the font and
      icon links, the inline CSS, the analytics snippet, the navigation bar,
      the menu script, the table-of-contents aside, the back link, the hero
      CSS and the table-of-contents script. The templates take them as a
      parameter; SiteChrome below holds the texts tools/templates.mjs uses. */
  datatype Chrome = Chrome(
    head: string, fontLinks: string, baseCss: string, analytics: string,
    navBar: string, menuScript: string, tocAside: string, backLink: string,
    heroCss: string, tocScript: string)

  const LayoutHead: string :=
    "<!DOCTYPE html>\n<html lang=\"zh-CN\">\n<head>\n  <meta charset=\"UTF-8\" />\n  <meta name=\"viewport\" content=\"width=device-width, initial-scale=1.0\" />\n  "

  const LayoutLinks: string :=
    "\n  <link rel=\"stylesheet\" href=\"../styles.css\" />\n  <link href=\"https://fonts.googleapis.com/css2?family=Inter:wght@300;400;500;600;700&display=swap\" rel=\"stylesheet\" />\n  <link rel=\"stylesheet\" href=\"https://cdnjs.cloudflare.com/ajax/libs/font-awesome/6.0.0/css/all.min.css\" />\n  <link rel=\"stylesheet\" href=\"article-common.css\" />\n  "

  const AnalyticsScript: string :=
    "  <script>\n    var _hmt = _hmt || [];\n    (function () {\n      var hm = document.createElement(\"script\");\n      hm.src = \"https://hm.baidu.com/hm.js?013df7fb2265b625683fcd8b2d7ac17b\";\n      var s = document.getElementsByTagName(\"script\")[0];\n      s.parentNode.insertBefore(hm, s);\n    })();\n  </script>"

  const NavChrome: string :=
    "</head>\n<body>\n  <div class=\"container\">\n    <nav class=\"navbar\">\n      <div class=\"container\">\n        <div class=\"nav-brand\"><i class=\"fas fa-bug\"></i><span>壹零壹玖</span></div>\n        <ul class=\"nav-menu\">\n          <li><a href=\"../index.html#home\" class=\"nav-link\">首页</a></li>\n          <li><a href=\"../index.html#articles\" class=\"nav-link\">文章</a></li>\n          <li><a href=\"../index.html#about\" class=\"nav-link\">关于</a></li>\n          <li><a href=\"../index.html#contact\" class=\"nav-link\">联系</a></li>\n        </ul>\n        <div class=\"hamburger\"><span class=\"bar\"></span><span class=\"bar\"></span><span class=\"bar\"></span></div>\n      </div>\n    </nav>"

  const MenuScript: string :=
    "  <script>\n    const hamburger = document.querySelector('.hamburger');\n    const navMenu = document.querySelector('.nav-menu');\n    if (hamburger && navMenu) {\n      hamburger.addEventListener('click', () => {\n        hamburger.classList.toggle('active');\n        navMenu.classList.toggle('active');\n      });\n      document.querySelectorAll('.nav-link').forEach(n => n.addEventListener('click', () => {\n        hamburger.classList.remove('active');\n        navMenu.classList.remove('active');\n      }));\n    }"

  const LayoutTail: string :=
    "\n  </script>\n</body>\n</html>"

  const ContentHead: string :=
    "\n  <section class=\"article-page\">\n    <div class=\"container\">\n      <div class=\"article-layout\">\n        <aside class=\"article-toc\">\n          <div class=\"toc-header\"><h3>目录</h3></div>\n          <nav class=\"toc-nav\"><ul id=\"toc-list\"></ul></nav>\n        </aside>\n\n        <main class=\"article-main\">\n          <header class=\"article-header\">\n            "

  const MetaOpen: string :=
    "\n            <div class=\"article-meta\">\n              "

  const MetaClose: string :=
    "\n            </div>\n            "

  const HeaderClose: string :=
    "\n          </header>\n\n          <article class=\"article-content\">\n            "

  const ArticleClose: string :=
    "\n          </article>\n\n          "

  const ContentTail: string :=
    "\n        </main>\n      </div>\n    </div>\n  </section>\n\n  <a href=\"index.html\" class=\"back-to-articles\"><i class=\"fas fa-arrow-left\"></i> 返回目录</a>\n  "

  const HeroDiv: string :=
    "<div class=\"image-placeholder clawdbot-hero-bg\" style=\"min-height: 280px; margin: 0 auto 2.2rem;\"></div>"

  const TocScript: string :=
    "\n    const tocList = document.getElementById('toc-list');\n    const headings = document.querySelectorAll('.article-content h2, .article-content h3');\n    headings.forEach((h, i) => {\n      if (!h.id) h.id = 'section-' + i;\n      const li = document.createElement('li');\n      const a = document.createElement('a');\n      a.href = '#' + h.id;\n      a.textContent = h.textContent;\n      a.className = (h.tagName.toLowerCase() === 'h3') ? 'toc-h3' : '';\n      li.appendChild(a);\n      tocList.appendChild(li);\n    });\n  "

  const BaseInlineCss: string :=
    "/* keep minimal here */"

  const HeroCss: string :=
    "\n    .clawdbot-hero-bg {\n      background: linear-gradient(135deg, #4facfe 0%, #00f2fe 100%);\n      border-radius: 12px;\n      position: relative;\n      overflow: hidden;\n      box-shadow: 0 10px 30px rgba(0, 0, 0, 0.3);\n    }\n    .clawdbot-hero-bg::before {\n      content: '';\n      position: absolute;\n      inset: 0;\n      background: url('data:image/svg+xml,<svg xmlns=\"http://www.w3.org/2000/svg\" viewBox=\"0 0 120 120\"><defs><pattern id=\"grid\" width=\"16\" height=\"16\" patternUnits=\"userSpaceOnUse\"><path d=\"M 16 0 L 0 0 0 16\" fill=\"none\" stroke=\"rgba(255,255,255,0.12)\" stroke-width=\"1\"/></pattern></defs><rect width=\"120\" height=\"120\" fill=\"url(%23grid)\"/><path d=\"M20 78 C40 40, 70 110, 100 60\" fill=\"none\" stroke=\"rgba(255,255,255,0.22)\" stroke-width=\"3\"/></svg>');\n      opacity: 0.9;\n    }\n  "

  const SiteChrome: Chrome :=
    Chrome(LayoutHead, LayoutLinks, BaseInlineCss, AnalyticsScript, NavChrome, MenuScript,
           ContentHead, ContentTail, HeroCss, TocScript)

  // ---------------------------------------------------------------- layout

  /** `<title>${escapeHtml(title)} - 壹零壹玖</title>` */
  function TitleTag(title: Option<string>): string {
    "<title>" + Escape(Text(title)) + " - 壹零壹玖</title>"
  }

  /** The head up to and including extraHead. */
  function HeadOpen(ch: Chrome, title: Option<string>, extraHead: string): string {
    ch.head + TitleTag(title) + ch.fontLinks + extraHead
  }

  /** The inline style element. */
  function StyleBlock(ch: Chrome, extraCss: string): string {
    "\n  <style>\n  " + ch.baseCss + "\n  " + extraCss + "\n  </style>\n"
  }

  /** The analytics snippet, the end of the head and the navigation bar. */
  function BodyOpen(ch: Chrome): string {
    ch.analytics + "\n" + ch.navBar + "\n\n    "
  }

  /** The part of layoutHtml in front of `content`. */
  function LayoutTop(ch: Chrome, title: Option<string>, extraHead: string, extraCss: string): string {
    HeadOpen(ch, title, extraHead) + StyleBlock(ch, extraCss) + BodyOpen(ch)
  }

  /** The part of layoutHtml after `content`. */
  function LayoutBottom(ch: Chrome, extraScript: string): string {
    "\n  </div>\n\n" + ch.menuScript + "\n    " + extraScript + LayoutTail
  }

  /** layoutHtml: the page shell around `content`. */
  function LayoutHtml(ch: Chrome, title: Option<string>, content: string, extraHead: string,
                      extraCss: string, extraScript: string): string {
    LayoutTop(ch, title, extraHead, extraCss) + content + LayoutBottom(ch, extraScript)
  }

  // --------------------------------------------------------------- article

  /** `fm.heroStyle === 'clawdbot-hero' ? <div …> : ''` */
  function HeroHtml(heroStyle: Option<string>): string {
    if heroStyle == Some("clawdbot-hero") then HeroDiv else ""
  }

  /** The previous-article link, or an empty span. */
  function PrevLink(prev: Option<NavLink>): string {
    match prev
    case Some(l) => "<a class=\"nav-link\" href=\"" + l.href + "\">← 上一篇：" + Escape(Text(l.title)) + "</a>"
    case None => "<span></span>"
  }

  /** The next-article link, or an empty span. */
  function NextLink(next: Option<NavLink>): string {
    match next
    case Some(l) => "<a class=\"nav-link\" href=\"" + l.href + "\">下一篇：" + Escape(Text(l.title)) + " →</a>"
    case None => "<span></span>"
  }

  /** The `nav` block of articleHtml. */
  function NavHtml(prev: Option<NavLink>, next: Option<NavLink>): string {
    "\n  <div class=\"article-navigation\">\n    " + PrevLink(prev) + "\n    " + NextLink(next) + "\n  </div>"
  }

  /** `${v ? `open${escapeHtml(v)}close` : ''}` */
  function OptionalSlot(o: Option<string>, open: string, close: string): string {
    if Truthy(o) then open + Escape(o.value) + close else ""
  }

  function ReadTimeSpan(readTime: Option<string>): string {
    OptionalSlot(readTime, "<span class=\"article-date\">", "</span>")
  }

  function DescriptionPara(description: Option<string>): string {
    OptionalSlot(description, "<p class=\"article-excerpt\">", "</p>")
  }

  function CategorySpan(category: Option<string>): string {
    "<span class=\"article-category\">" + Escape(OrElse(category, "文章")) + "</span>"
  }

  function DateSpan(date: Option<string>): string {
    "<span class=\"article-date\">" + Escape(OrElse(date, "")) + "</span>"
  }

  function H1Title(title: Option<string>): string {
    "<h1 class=\"article-title\">" + Escape(Text(title)) + "</h1>"
  }

  /** The article's meta line: category, date and the optional read time. */
  function MetaHtml(category: Option<string>, date: Option<string>, readTime: Option<string>): string {
    MetaOpen + CategorySpan(category) + "\n              " + DateSpan(date) + "\n              "
    + ReadTimeSpan(readTime) + MetaClose
  }

  /** Everything of the content block in front of the hero. */
  function ArticleHeader(ch: Chrome, fm: ArticleMeta): string {
    HeaderOf(ch, fm.title, fm.category, fm.date, fm.readTime, fm.description)
  }

  function HeaderOf(ch: Chrome, title: Option<string>, category: Option<string>, date: Option<string>,
                    readTime: Option<string>, description: Option<string>): string {
    ch.tocAside + H1Title(title) + MetaHtml(category, date, readTime) + DescriptionPara(description) + HeaderClose
  }

  /** The body of the article element after the hero. */
  function ArticleBody(html: string, referencesHtml: Option<string>): string {
    "\n            " + html + "\n\n            " + OrElse(referencesHtml, "") + ArticleClose
  }

  /** The content block after the hero: body, navigation and back link. */
  function ArticleRest(ch: Chrome, html: string, referencesHtml: Option<string>,
                       prev: Option<NavLink>, next: Option<NavLink>): string {
    ArticleBody(html, referencesHtml) + NavHtml(prev, next) + ch.backLink
  }

  /** The `content` block of articleHtml. */
  function ArticleContent(ch: Chrome, fm: ArticleMeta, html: string,
                          prev: Option<NavLink>, next: Option<NavLink>): string {
    ArticleHeader(ch, fm) + HeroHtml(fm.heroStyle) + ArticleRest(ch, html, fm.referencesHtml, prev, next)
  }

  /** articleHtml: the content inside the layout, with the hero CSS and the
      table-of-contents script. */
  function ArticleHtml(ch: Chrome, fm: ArticleMeta, html: string,
                       prev: Option<NavLink>, next: Option<NavLink>): string {
    LayoutHtml(ch, fm.title, ArticleContent(ch, fm, html, prev, next), "", ch.heroCss, ch.tocScript)
  }

  // ------------------------------------------------------ articles index

  /** `open${escapeHtml(v)}close` */
  function Field(open: string, v: string, close: string): string {
    open + Escape(v) + close
  }

  /** The opening of an index entry: its category attribute and meta block. */
  function IndexItemHead(p: IndexItem): string {
    "\n    <article class=\"article-item\" "
    + Field("data-category=\"", OrElse(p.category, "文章"), "\">")
    + "\n      <div class=\"article-meta\">\n        "
    + Field("<div class=\"article-category\">", OrElse(p.category, "文章"), "</div>")
    + "\n        "
    + Field("<div class=\"article-date\">", OrElse(p.date, ""), "</div>")
    + "\n      </div>"
  }

  /** The title, excerpt and read-more link of an index entry. */
  function IndexItemText(p: IndexItem): string {
    "\n      <div class=\"article-content\">\n        "
    + Field("<h3 class=\"article-title\">", Text(p.title), "</h3>")
    + "\n        "
    + Field("<p class=\"article-excerpt\">", OrElse(p.description, ""), "</p>")
    + "\n        "
    + Field("<a href=\"", Text(p.href), "\" class=\"article-read-more\">阅读全文 →</a>")
    + "\n      </div>\n    </article>"
  }

  /** One entry of articlesIndexHtml. */
  function IndexItemHtml(p: IndexItem): string {
    IndexItemHead(p) + IndexItemText(p)
  }

  /** items.map(...): one entry per item, in input order. */
  function IndexItemsHtml(items: seq<IndexItem>): seq<string> {
    Map(IndexItemHtml, items)
  }

  /** articlesIndexHtml: the entries joined by line feeds. */
  function ArticlesIndexHtml(items: seq<IndexItem>): string {
    Join(IndexItemsHtml(items), "\n")
  }

  // ------------------------------------------------------- home page cards

  /** The link, image and category of a card. */
  function CardHead(p: CardItem): string {
    "\n    <article class=\"article-card\">\n      "
    + Field("<a href=\"", Text(p.href), "\" class=\"article-link\">")
    + "\n        <div class=\"article-image\">\n          "
    + Field("<div class=\"image-placeholder ", OrElse(p.heroClass, "ai-bg"), "\"></div>")
    + "\n          "
    + Field("<div class=\"article-category\">", OrElse(p.category, "文章"), "</div>")
    + "\n        </div>\n        <div class=\"article-content\">\n          "
  }

  /** The title, excerpt, date and read time of a card. */
  function CardText(p: CardItem): string {
    Field("<h3>", Text(p.title), "</h3>")
    + "\n          "
    + Field("<p>", OrElse(p.description, ""), "</p>")
    + "\n          <div class=\"article-meta\">\n            "
    + Field("<span class=\"date\">", OrElse(p.date, ""), "</span>")
    + "\n            "
    + Field("<span class=\"read-time\">", OrElse(p.readTime, ""), "</span>")
    + "\n          </div>\n        </div>\n      </a>\n    </article>"
  }

  /** One card of homepageCardsHtml. */
  function CardHtml(p: CardItem): string {
    CardHead(p) + CardText(p)
  }

  /** items.map(...): one card per item, in input order. */
  function CardsHtml(items: seq<CardItem>): seq<string> {
    Map(CardHtml, items)
  }

  /** homepageCardsHtml: the cards joined by line feeds. */
  function HomepageCardsHtml(items: seq<CardItem>): string {
    Join(CardsHtml(items), "\n")
  }

  // ---------------------------------------------------------- splice facts

  /** `a`, then `y`, then `b`. */
  ghost function Splice(a: string, y: string, b: string): string {
    a + y + b
  }

  /** `t` is `s` with one occurrence of `y` replaced by `x`. */
  ghost predicate Spliced(t: string, s: string, y: string, x: string) {
    exists a: string, b: string {:trigger Splice(a, y, b)} :: s == Splice(a, y, b) && t == Splice(a, x, b)
  }

  lemma SplicedMiddle(a: string, y: string, x: string, b: string)
    ensures Spliced(a + x + b, a + y + b, y, x)
  {
    assert a + y + b == Splice(a, y, b) && a + x + b == Splice(a, x, b);
  }

  lemma SplicedAppend(t: string, s: string, y: string, x: string, tail: string)
    requires Spliced(t, s, y, x)
    ensures Spliced(t + tail, s + tail, y, x)
  {
    var a, b :| s == Splice(a, y, b) && t == Splice(a, x, b);
    assert s + tail == Splice(a, y, b + tail);
    assert t + tail == Splice(a, x, b + tail);
  }

  lemma SplicedPrepend(c: string, t: string, s: string, y: string, x: string)
    requires Spliced(t, s, y, x)
    ensures Spliced(c + t, c + s, y, x)
  {
    var a, b :| s == Splice(a, y, b) && t == Splice(a, x, b);
    assert c + s == Splice(c + a, y, b);
    assert c + t == Splice(c + a, x, b);
  }

  /** Inserting `x` between `a` and `b` replaces an empty string. */
  lemma SplicedInsert(a: string, x: string, b: string)
    ensures Spliced(a + x + b, a + b, "", x)
  {
    assert a + b == Splice(a, "", b) && a + x + b == Splice(a, x, b);
  }

  lemma AppendEmpty(a: string, e: string, b: string)
    requires e == ""
    ensures a + e + b == a + b
  {
  }

  /** A replacement inside a part is a replacement in the whole. */
  lemma SplicedWrap(c: string, d: string, t: string, s: string, y: string, x: string)
    requires Spliced(t, s, y, x)
    ensures Spliced(c + t + d, c + s + d, y, x)
  {
    SplicedPrepend(c, t, s, y, x);
    SplicedAppend(c + t, c + s, y, x, d);
  }

  // ------------------------------------------------------ layout properties

  /** A change inside the content is the same change inside the page. */
  lemma LayoutLift(ch: Chrome, title: Option<string>, c: string, c': string, extraHead: string,
                   extraCss: string, extraScript: string, y: string, x: string)
    requires Spliced(c', c, y, x)
    ensures Spliced(LayoutHtml(ch, title, c', extraHead, extraCss, extraScript),
                    LayoutHtml(ch, title, c, extraHead, extraCss, extraScript), y, x)
  {
    SplicedWrap(LayoutTop(ch, title, extraHead, extraCss), LayoutBottom(ch, extraScript), c', c, y, x);
  }

  lemma TopInLayout(ch: Chrome, title: Option<string>, content: string, extraHead: string,
                    extraCss: string, extraScript: string, q: string)
    requires Contains(HeadOpen(ch, title, extraHead), q) || Contains(StyleBlock(ch, extraCss), q)
    ensures Contains(LayoutHtml(ch, title, content, extraHead, extraCss, extraScript), q)
  {
    var h, st := HeadOpen(ch, title, extraHead), StyleBlock(ch, extraCss);
    if Contains(h, q) {
      ContainsPrefix(h, st, q);
    } else {
      ContainsAfter(h, st, q);
    }
    ContainsPrefix(h + st, BodyOpen(ch), q);
    ContainsPrefix(LayoutTop(ch, title, extraHead, extraCss), content, q);
    ContainsPrefix(LayoutTop(ch, title, extraHead, extraCss) + content, LayoutBottom(ch, extraScript), q);
  }

  /** The title is escaped; content, extraHead, extraCss and extraScript are
      inserted verbatim. */
  lemma LayoutParts(ch: Chrome, title: Option<string>, content: string, extraHead: string,
                    extraCss: string, extraScript: string)
    ensures Contains(LayoutHtml(ch, title, content, extraHead, extraCss, extraScript),
                     "<title>" + Escape(Text(title)) + " - 壹零壹玖</title>")
    ensures Contains(LayoutHtml(ch, title, content, extraHead, extraCss, extraScript), content)
    ensures Contains(LayoutHtml(ch, title, content, extraHead, extraCss, extraScript), extraHead)
    ensures Contains(LayoutHtml(ch, title, content, extraHead, extraCss, extraScript), extraCss)
    ensures Contains(LayoutHtml(ch, title, content, extraHead, extraCss, extraScript), extraScript)
  {
    var top := LayoutTop(ch, title, extraHead, extraCss);
    ContainsMiddle(top, content, LayoutBottom(ch, extraScript));
    ContainsSuffix(ch.head, TitleTag(title));
    ContainsPrefix(ch.head + TitleTag(title), ch.fontLinks, TitleTag(title));
    ContainsPrefix(ch.head + TitleTag(title) + ch.fontLinks, extraHead, TitleTag(title));
    TopInLayout(ch, title, content, extraHead, extraCss, extraScript, TitleTag(title));
    ContainsSuffix(ch.head + TitleTag(title) + ch.fontLinks, extraHead);
    TopInLayout(ch, title, content, extraHead, extraCss, extraScript, extraHead);
    ContainsMiddle("\n  <style>\n  " + ch.baseCss + "\n  ", extraCss, "\n  </style>\n");
    TopInLayout(ch, title, content, extraHead, extraCss, extraScript, extraCss);
    ContainsMiddle("\n  </div>\n\n" + ch.menuScript + "\n    ", extraScript, LayoutTail);
    ContainsAfter(top + content, LayoutBottom(ch, extraScript), extraScript);
  }

  lemma ContentInLayout(ch: Chrome, title: Option<string>, content: string, extraHead: string,
                        extraCss: string, extraScript: string, q: string)
    requires Contains(content, q)
    ensures Contains(LayoutHtml(ch, title, content, extraHead, extraCss, extraScript), q)
  {
    ContainsAfter(LayoutTop(ch, title, extraHead, extraCss), content, q);
    ContainsPrefix(LayoutTop(ch, title, extraHead, extraCss) + content, LayoutBottom(ch, extraScript), q);
  }

  // ----------------------------------------------------- article properties

  /** articleHtml's page title is the escaped front matter title. */
  lemma ArticleTitleTag(ch: Chrome, fm: ArticleMeta, html: string, prev: Option<NavLink>, next: Option<NavLink>)
    ensures Contains(ArticleHtml(ch, fm, html, prev, next), "<title>" + Escape(Text(fm.title)) + " - 壹零壹玖</title>")
  {
    LayoutParts(ch, fm.title, ArticleContent(ch, fm, html, prev, next), "", ch.heroCss, ch.tocScript);
  }

  /** Two front matters that agree on everything but the fields after the
      hero. */
  predicate SameHeader(fm: ArticleMeta, fm2: ArticleMeta) {
    && fm.title == fm2.title && fm.category == fm2.category && fm.date == fm2.date
    && fm.readTime == fm2.readTime && fm.description == fm2.description && fm.heroStyle == fm2.heroStyle
  }

  /** A change in the header is the same change in the content block. */
  lemma HeaderToContent(ch: Chrome, fm: ArticleMeta, fm2: ArticleMeta, html: string,
                        prev: Option<NavLink>, next: Option<NavLink>, y: string, x: string)
    requires fm2.heroStyle == fm.heroStyle && fm2.referencesHtml == fm.referencesHtml
    requires Spliced(ArticleHeader(ch, fm2), ArticleHeader(ch, fm), y, x)
    ensures Spliced(ArticleContent(ch, fm2, html, prev, next), ArticleContent(ch, fm, html, prev, next), y, x)
  {
    SplicedAppend(ArticleHeader(ch, fm2), ArticleHeader(ch, fm), y, x, HeroHtml(fm.heroStyle));
    SplicedAppend(ArticleHeader(ch, fm2) + HeroHtml(fm.heroStyle), ArticleHeader(ch, fm) + HeroHtml(fm.heroStyle),
                  y, x, ArticleRest(ch, html, fm.referencesHtml, prev, next));
  }

  /** A change after the hero is the same change in the content block. */
  lemma RestToContent(ch: Chrome, fm: ArticleMeta, html: string, fm2: ArticleMeta, html2: string,
                      prev: Option<NavLink>, next: Option<NavLink>, prev2: Option<NavLink>, next2: Option<NavLink>,
                      y: string, x: string)
    requires SameHeader(fm2, fm)
    requires Spliced(ArticleRest(ch, html2, fm2.referencesHtml, prev2, next2),
                     ArticleRest(ch, html, fm.referencesHtml, prev, next), y, x)
    ensures Spliced(ArticleContent(ch, fm2, html2, prev2, next2), ArticleContent(ch, fm, html, prev, next), y, x)
  {
    SplicedPrepend(ArticleHeader(ch, fm) + HeroHtml(fm.heroStyle), ArticleRest(ch, html2, fm2.referencesHtml, prev2, next2),
                   ArticleRest(ch, html, fm.referencesHtml, prev, next), y, x);
  }

  lemma HeroInContent(ch: Chrome, fm: ArticleMeta, html: string, prev: Option<NavLink>, next: Option<NavLink>)
    requires fm.heroStyle == Some("clawdbot-hero")
    ensures Spliced(ArticleContent(ch, fm, html, prev, next), ArticleContent(ch, fm.(heroStyle := None), html, prev, next),
                    "", HeroDiv)
  {
    var h, r := ArticleHeader(ch, fm), ArticleRest(ch, html, fm.referencesHtml, prev, next);
    assert ArticleHeader(ch, fm.(heroStyle := None)) == h;
    AppendEmpty(h, HeroHtml(None), r);
    SplicedInsert(h, HeroDiv, r);
  }

  lemma HeroPresent(ch: Chrome, fm: ArticleMeta, html: string, prev: Option<NavLink>, next: Option<NavLink>)
    requires fm.heroStyle == Some("clawdbot-hero")
    ensures Spliced(ArticleHtml(ch, fm, html, prev, next), ArticleHtml(ch, fm.(heroStyle := None), html, prev, next),
                    "", HeroDiv)
  {
    HeroInContent(ch, fm, html, prev, next);
    LayoutLift(ch, fm.title, ArticleContent(ch, fm.(heroStyle := None), html, prev, next),
               ArticleContent(ch, fm, html, prev, next), "", ch.heroCss, ch.tocScript, "", HeroDiv);
  }

  lemma HeroAbsent(ch: Chrome, fm: ArticleMeta, html: string, prev: Option<NavLink>, next: Option<NavLink>)
    requires fm.heroStyle != Some("clawdbot-hero")
    ensures ArticleContent(ch, fm, html, prev, next) == ArticleContent(ch, fm.(heroStyle := None), html, prev, next)
  {
    assert HeroHtml(fm.heroStyle) == HeroHtml(None);
    assert ArticleHeader(ch, fm.(heroStyle := None)) == ArticleHeader(ch, fm);
  }

  /** The hero block appears exactly when heroStyle is "clawdbot-hero": the
      page is the hero-less page with the hero inserted at one place, and is
      the hero-less page itself otherwise. */
  lemma HeroExactlyForClawdbot(ch: Chrome, fm: ArticleMeta, html: string, prev: Option<NavLink>, next: Option<NavLink>)
    ensures fm.heroStyle == Some("clawdbot-hero") ==>
      Spliced(ArticleHtml(ch, fm, html, prev, next), ArticleHtml(ch, fm.(heroStyle := None), html, prev, next), "", HeroDiv)
    ensures fm.heroStyle != Some("clawdbot-hero") ==>
      ArticleHtml(ch, fm, html, prev, next) == ArticleHtml(ch, fm.(heroStyle := None), html, prev, next)
  {
    if fm.heroStyle == Some("clawdbot-hero") {
      HeroPresent(ch, fm, html, prev, next);
    } else {
      HeroAbsent(ch, fm, html, prev, next);
    }
  }

  lemma ReadTimeInHeader(ch: Chrome, fm: ArticleMeta, x: string)
    requires Truthy(fm.readTime) && x == "<span class=\"article-date\">" + Escape(fm.readTime.value) + "</span>"
    ensures Spliced(ArticleHeader(ch, fm), ArticleHeader(ch, fm.(readTime := None)), "", x)
  {
    var m := MetaOpen + CategorySpan(fm.category) + "\n              " + DateSpan(fm.date) + "\n              ";
    AppendEmpty(m, ReadTimeSpan(None), MetaClose);
    SplicedInsert(m, x, MetaClose);
    SplicedWrap(ch.tocAside + H1Title(fm.title), DescriptionPara(fm.description),
                MetaHtml(fm.category, fm.date, fm.readTime), MetaHtml(fm.category, fm.date, None), "", x);
    SplicedAppend(ch.tocAside + H1Title(fm.title) + MetaHtml(fm.category, fm.date, fm.readTime) + DescriptionPara(fm.description),
                  ch.tocAside + H1Title(fm.title) + MetaHtml(fm.category, fm.date, None) + DescriptionPara(fm.description),
                  "", x, HeaderClose);
  }

  lemma ReadTimePresent(ch: Chrome, fm: ArticleMeta, html: string, prev: Option<NavLink>, next: Option<NavLink>, x: string)
    requires Truthy(fm.readTime) && x == "<span class=\"article-date\">" + Escape(fm.readTime.value) + "</span>"
    ensures Spliced(ArticleHtml(ch, fm, html, prev, next), ArticleHtml(ch, fm.(readTime := None), html, prev, next), "", x)
  {
    ReadTimeInHeader(ch, fm, x);
    HeaderToContent(ch, fm.(readTime := None), fm, html, prev, next, "", x);
    LayoutLift(ch, fm.title, ArticleContent(ch, fm.(readTime := None), html, prev, next),
               ArticleContent(ch, fm, html, prev, next), "", ch.heroCss, ch.tocScript, "", x);
  }

  lemma ReadTimeAbsent(ch: Chrome, fm: ArticleMeta)
    requires !Truthy(fm.readTime)
    ensures ArticleHeader(ch, fm) == ArticleHeader(ch, fm.(readTime := None))
  {
  }

  /** The read-time span appears exactly when readTime is truthy, holding the
      escaped read time. */
  lemma ReadTimeOnlyWhenTruthy(ch: Chrome, fm: ArticleMeta, html: string, prev: Option<NavLink>, next: Option<NavLink>)
    ensures Truthy(fm.readTime) ==>
      Spliced(ArticleHtml(ch, fm, html, prev, next), ArticleHtml(ch, fm.(readTime := None), html, prev, next),
              "", "<span class=\"article-date\">" + Escape(fm.readTime.value) + "</span>")
    ensures !Truthy(fm.readTime) ==>
      ArticleHtml(ch, fm, html, prev, next) == ArticleHtml(ch, fm.(readTime := None), html, prev, next)
  {
    if Truthy(fm.readTime) {
      ReadTimePresent(ch, fm, html, prev, next, "<span class=\"article-date\">" + Escape(fm.readTime.value) + "</span>");
    } else {
      ReadTimeAbsent(ch, fm);
    }
  }

  lemma DescriptionPresent(ch: Chrome, fm: ArticleMeta, html: string, prev: Option<NavLink>, next: Option<NavLink>, x: string)
    requires Truthy(fm.description) && x == "<p class=\"article-excerpt\">" + Escape(fm.description.value) + "</p>"
    ensures Spliced(ArticleHtml(ch, fm, html, prev, next), ArticleHtml(ch, fm.(description := None), html, prev, next), "", x)
  {
    var a := ch.tocAside + H1Title(fm.title) + MetaHtml(fm.category, fm.date, fm.readTime);
    AppendEmpty(a, DescriptionPara(None), HeaderClose);
    SplicedInsert(a, x, HeaderClose);
    HeaderToContent(ch, fm.(description := None), fm, html, prev, next, "", x);
    LayoutLift(ch, fm.title, ArticleContent(ch, fm.(description := None), html, prev, next),
               ArticleContent(ch, fm, html, prev, next), "", ch.heroCss, ch.tocScript, "", x);
  }

  lemma DescriptionAbsent(ch: Chrome, fm: ArticleMeta)
    requires !Truthy(fm.description)
    ensures ArticleHeader(ch, fm) == ArticleHeader(ch, fm.(description := None))
  {
  }

  /** The description paragraph appears exactly when description is truthy,
      holding the escaped description. */
  lemma DescriptionOnlyWhenTruthy(ch: Chrome, fm: ArticleMeta, html: string, prev: Option<NavLink>, next: Option<NavLink>)
    ensures Truthy(fm.description) ==>
      Spliced(ArticleHtml(ch, fm, html, prev, next), ArticleHtml(ch, fm.(description := None), html, prev, next),
              "", "<p class=\"article-excerpt\">" + Escape(fm.description.value) + "</p>")
    ensures !Truthy(fm.description) ==>
      ArticleHtml(ch, fm, html, prev, next) == ArticleHtml(ch, fm.(description := None), html, prev, next)
  {
    if Truthy(fm.description) {
      DescriptionPresent(ch, fm, html, prev, next, "<p class=\"article-excerpt\">" + Escape(fm.description.value) + "</p>");
    } else {
      DescriptionAbsent(ch, fm);
    }
  }

  lemma ReferencesInRest(ch: Chrome, html: string, refs: Option<string>, prev: Option<NavLink>, next: Option<NavLink>)
    requires Truthy(refs)
    ensures Spliced(ArticleRest(ch, html, refs, prev, next), ArticleRest(ch, html, None, prev, next), "", refs.value)
  {
    var x := refs.value;
    var a := "\n            " + html + "\n\n            ";
    AppendEmpty(a, OrElse(None, ""), ArticleClose);
    SplicedInsert(a, x, ArticleClose);
    SplicedAppend(ArticleBody(html, refs), ArticleBody(html, None), "", x, NavHtml(prev, next));
    SplicedAppend(ArticleBody(html, refs) + NavHtml(prev, next), ArticleBody(html, None) + NavHtml(prev, next),
                  "", x, ch.backLink);
  }

  lemma ReferencesPresent(ch: Chrome, fm: ArticleMeta, html: string, prev: Option<NavLink>, next: Option<NavLink>)
    requires Truthy(fm.referencesHtml)
    ensures Spliced(ArticleHtml(ch, fm, html, prev, next), ArticleHtml(ch, fm.(referencesHtml := None), html, prev, next),
                    "", fm.referencesHtml.value)
  {
    ReferencesInRest(ch, html, fm.referencesHtml, prev, next);
    RestToContent(ch, fm.(referencesHtml := None), html, fm, html, prev, next, prev, next, "", fm.referencesHtml.value);
    LayoutLift(ch, fm.title, ArticleContent(ch, fm.(referencesHtml := None), html, prev, next),
               ArticleContent(ch, fm, html, prev, next), "", ch.heroCss, ch.tocScript, "", fm.referencesHtml.value);
  }

  lemma ReferencesAbsent(ch: Chrome, fm: ArticleMeta, html: string, prev: Option<NavLink>, next: Option<NavLink>)
    requires !Truthy(fm.referencesHtml)
    ensures ArticleRest(ch, html, fm.referencesHtml, prev, next) == ArticleRest(ch, html, None, prev, next)
  {
  }

  /** referencesHtml is inserted verbatim, and only when it is truthy. */
  lemma ReferencesOnlyWhenTruthy(ch: Chrome, fm: ArticleMeta, html: string, prev: Option<NavLink>, next: Option<NavLink>)
    ensures Truthy(fm.referencesHtml) ==>
      Spliced(ArticleHtml(ch, fm, html, prev, next), ArticleHtml(ch, fm.(referencesHtml := None), html, prev, next),
              "", fm.referencesHtml.value)
    ensures !Truthy(fm.referencesHtml) ==>
      ArticleHtml(ch, fm, html, prev, next) == ArticleHtml(ch, fm.(referencesHtml := None), html, prev, next)
  {
    if Truthy(fm.referencesHtml) {
      ReferencesPresent(ch, fm, html, prev, next);
    } else {
      ReferencesAbsent(ch, fm, html, prev, next);
    }
  }

  /** A change in the navigation block is the same change in the page. */
  lemma NavToPage(ch: Chrome, fm: ArticleMeta, html: string, prev: Option<NavLink>, next: Option<NavLink>,
                  prev2: Option<NavLink>, next2: Option<NavLink>, y: string, x: string)
    requires Spliced(NavHtml(prev2, next2), NavHtml(prev, next), y, x)
    ensures Spliced(ArticleHtml(ch, fm, html, prev2, next2), ArticleHtml(ch, fm, html, prev, next), y, x)
  {
    SplicedWrap(ArticleBody(html, fm.referencesHtml), ch.backLink, NavHtml(prev2, next2), NavHtml(prev, next), y, x);
    RestToContent(ch, fm, html, fm, html, prev, next, prev2, next2, y, x);
    LayoutLift(ch, fm.title, ArticleContent(ch, fm, html, prev, next),
               ArticleContent(ch, fm, html, prev2, next2), "", ch.heroCss, ch.tocScript, y, x);
  }

  /** The previous-article link holds the href verbatim and the escaped
      title; without a previous article its place holds an empty span. */
  lemma PrevSlot(ch: Chrome, fm: ArticleMeta, html: string, l: NavLink, next: Option<NavLink>)
    ensures Spliced(ArticleHtml(ch, fm, html, Some(l), next), ArticleHtml(ch, fm, html, None, next),
                    "<span></span>", "<a class=\"nav-link\" href=\"" + l.href + "\">← 上一篇：" + Escape(Text(l.title)) + "</a>")
  {
    var n0 := "\n  <div class=\"article-navigation\">\n    ";
    var y, x := "<span></span>", PrevLink(Some(l));
    SplicedMiddle(n0, y, x, "\n    ");
    SplicedAppend(n0 + x + "\n    ", n0 + y + "\n    ", y, x, NextLink(next));
    SplicedAppend(n0 + x + "\n    " + NextLink(next), n0 + y + "\n    " + NextLink(next), y, x, "\n  </div>");
    NavToPage(ch, fm, html, None, next, Some(l), next, y, x);
  }

  /** The next-article link holds the href verbatim and the escaped title;
      without a next article its place holds an empty span. */
  lemma NextSlot(ch: Chrome, fm: ArticleMeta, html: string, prev: Option<NavLink>, l: NavLink)
    ensures Spliced(ArticleHtml(ch, fm, html, prev, Some(l)), ArticleHtml(ch, fm, html, prev, None),
                    "<span></span>", "<a class=\"nav-link\" href=\"" + l.href + "\">下一篇：" + Escape(Text(l.title)) + " →</a>")
  {
    var y, x := "<span></span>", NextLink(Some(l));
    SplicedMiddle("\n  <div class=\"article-navigation\">\n    " + PrevLink(prev) + "\n    ", y, x, "\n  </div>");
    NavToPage(ch, fm, html, prev, None, prev, Some(l), y, x);
  }

  lemma HeaderInPage(ch: Chrome, fm: ArticleMeta, html: string, prev: Option<NavLink>, next: Option<NavLink>, q: string)
    requires Contains(ArticleHeader(ch, fm), q)
    ensures Contains(ArticleHtml(ch, fm, html, prev, next), q)
  {
    ContainsPrefix(ArticleHeader(ch, fm), HeroHtml(fm.heroStyle), q);
    ContainsPrefix(ArticleHeader(ch, fm) + HeroHtml(fm.heroStyle), ArticleRest(ch, html, fm.referencesHtml, prev, next), q);
    ContentInLayout(ch, fm.title, ArticleContent(ch, fm, html, prev, next), "", ch.heroCss, ch.tocScript, q);
  }

  lemma MetaInHeader(ch: Chrome, fm: ArticleMeta, q: string)
    requires Contains(MetaHtml(fm.category, fm.date, fm.readTime), q)
    ensures Contains(ArticleHeader(ch, fm), q)
  {
    var a, m := ch.tocAside + H1Title(fm.title), MetaHtml(fm.category, fm.date, fm.readTime);
    ContainsAfter(a, m, q);
    ContainsPrefix(a + m, DescriptionPara(fm.description), q);
    ContainsPrefix(a + m + DescriptionPara(fm.description), HeaderClose, q);
  }

  /** The header shows the escaped title in the h1 element. */
  lemma ArticleH1Escaped(ch: Chrome, fm: ArticleMeta, html: string, prev: Option<NavLink>, next: Option<NavLink>)
    ensures Contains(ArticleHtml(ch, fm, html, prev, next),
                     "<h1 class=\"article-title\">" + Escape(Text(fm.title)) + "</h1>")
  {
    var h, m := H1Title(fm.title), MetaHtml(fm.category, fm.date, fm.readTime);
    ContainsSuffix(ch.tocAside, h);
    ContainsPrefix(ch.tocAside + h, m, h);
    ContainsPrefix(ch.tocAside + h + m, DescriptionPara(fm.description), h);
    ContainsPrefix(ch.tocAside + h + m + DescriptionPara(fm.description), HeaderClose, h);
    HeaderInPage(ch, fm, html, prev, next, h);
  }

  /** The header shows the escaped category, or 文章 when it is not truthy. */
  lemma ArticleCategoryEscaped(ch: Chrome, fm: ArticleMeta, html: string, prev: Option<NavLink>, next: Option<NavLink>)
    ensures Contains(ArticleHtml(ch, fm, html, prev, next),
                     "<span class=\"article-category\">" + Escape(OrElse(fm.category, "文章")) + "</span>")
  {
    var c, sp, d := CategorySpan(fm.category), "\n              ", DateSpan(fm.date);
    ContainsSuffix(MetaOpen, c);
    ContainsPrefix(MetaOpen + c, sp, c);
    ContainsPrefix(MetaOpen + c + sp, d, c);
    ContainsPrefix(MetaOpen + c + sp + d, sp, c);
    ContainsPrefix(MetaOpen + c + sp + d + sp, ReadTimeSpan(fm.readTime), c);
    ContainsPrefix(MetaOpen + c + sp + d + sp + ReadTimeSpan(fm.readTime), MetaClose, c);
    MetaInHeader(ch, fm, c);
    HeaderInPage(ch, fm, html, prev, next, c);
  }

  /** The header shows the escaped date, or nothing when it is not truthy. */
  lemma ArticleDateEscaped(ch: Chrome, fm: ArticleMeta, html: string, prev: Option<NavLink>, next: Option<NavLink>)
    ensures Contains(ArticleHtml(ch, fm, html, prev, next),
                     "<span class=\"article-date\">" + Escape(OrElse(fm.date, "")) + "</span>")
  {
    var a, d, sp := MetaOpen + CategorySpan(fm.category) + "\n              ", DateSpan(fm.date), "\n              ";
    ContainsSuffix(a, d);
    ContainsPrefix(a + d, sp, d);
    ContainsPrefix(a + d + sp, ReadTimeSpan(fm.readTime), d);
    ContainsPrefix(a + d + sp + ReadTimeSpan(fm.readTime), MetaClose, d);
    MetaInHeader(ch, fm, d);
    HeaderInPage(ch, fm, html, prev, next, d);
  }

  /** Without a truthy category the header shows 文章. */
  lemma ArticleCategoryDefault(ch: Chrome, fm: ArticleMeta, html: string, prev: Option<NavLink>, next: Option<NavLink>,
                               dflt: string)
    requires dflt == "文章"
    requires !Truthy(fm.category)
    ensures Contains(ArticleHtml(ch, fm, html, prev, next), "<span class=\"article-category\">" + dflt + "</span>")
  {
    assert forall i :: 0 <= i < |dflt| ==> !IsSpecial(dflt[i]);
    EscapePlain(dflt);
    ArticleCategoryEscaped(ch, fm, html, prev, next);
  }

  /** The rendered body is inserted verbatim. */
  lemma BodyVerbatim(ch: Chrome, fm: ArticleMeta, html: string, prev: Option<NavLink>, next: Option<NavLink>)
    ensures Contains(ArticleHtml(ch, fm, html, prev, next), html)
  {
    var a, b := "\n            ", "\n\n            " + OrElse(fm.referencesHtml, "");
    ContainsSuffix(a, html);
    ContainsPrefix(a + html, "\n\n            ", html);
    ContainsPrefix(a + html + "\n\n            ", OrElse(fm.referencesHtml, ""), html);
    ContainsPrefix(a + html + "\n\n            " + OrElse(fm.referencesHtml, ""), ArticleClose, html);
    var body := ArticleBody(html, fm.referencesHtml);
    ContainsPrefix(body, NavHtml(prev, next), html);
    ContainsPrefix(body + NavHtml(prev, next), ch.backLink, html);
    ContainsAfter(ArticleHeader(ch, fm) + HeroHtml(fm.heroStyle), ArticleRest(ch, html, fm.referencesHtml, prev, next), html);
    ContentInLayout(ch, fm.title, ArticleContent(ch, fm, html, prev, next), "", ch.heroCss, ch.tocScript, html);
  }
  // ------------------------------------------- index and cards properties

  /** The entry carries the escaped category (or 文章) twice and the escaped date. */
  lemma IndexItemHeadFields(p: IndexItem)
    ensures Contains(IndexItemHead(p), "data-category=\"" + Escape(OrElse(p.category, "文章")) + "\">")
    ensures Contains(IndexItemHead(p), "<div class=\"article-category\">" + Escape(OrElse(p.category, "文章")) + "</div>")
    ensures Contains(IndexItemHead(p), "<div class=\"article-date\">" + Escape(OrElse(p.date, "")) + "</div>")
  {
    ContainsSuffix("\n    <article class=\"article-item\" ", Field("data-category=\"", OrElse(p.category, "文章"), "\">"));
    ContainsPrefix("\n    <article class=\"article-item\" " + Field("data-category=\"", OrElse(p.category, "文章"), "\">"), "\n      <div class=\"article-meta\">\n        ", Field("data-category=\"", OrElse(p.category, "文章"), "\">"));
    ContainsPrefix("\n    <article class=\"article-item\" " + Field("data-category=\"", OrElse(p.category, "文章"), "\">") + "\n      <div class=\"article-meta\">\n        ", Field("<div class=\"article-category\">", OrElse(p.category, "文章"), "</div>"), Field("data-category=\"", OrElse(p.category, "文章"), "\">"));
    ContainsPrefix("\n    <article class=\"article-item\" " + Field("data-category=\"", OrElse(p.category, "文章"), "\">") + "\n      <div class=\"article-meta\">\n        " + Field("<div class=\"article-category\">", OrElse(p.category, "文章"), "</div>"), "\n        ", Field("data-category=\"", OrElse(p.category, "文章"), "\">"));
    ContainsPrefix("\n    <article class=\"article-item\" " + Field("data-category=\"", OrElse(p.category, "文章"), "\">") + "\n      <div class=\"article-meta\">\n        " + Field("<div class=\"article-category\">", OrElse(p.category, "文章"), "</div>") + "\n        ", Field("<div class=\"article-date\">", OrElse(p.date, ""), "</div>"), Field("data-category=\"", OrElse(p.category, "文章"), "\">"));
    ContainsPrefix("\n    <article class=\"article-item\" " + Field("data-category=\"", OrElse(p.category, "文章"), "\">") + "\n      <div class=\"article-meta\">\n        " + Field("<div class=\"article-category\">", OrElse(p.category, "文章"), "</div>") + "\n        " + Field("<div class=\"article-date\">", OrElse(p.date, ""), "</div>"), "\n      </div>", Field("data-category=\"", OrElse(p.category, "文章"), "\">"));
    ContainsSuffix("\n    <article class=\"article-item\" " + Field("data-category=\"", OrElse(p.category, "文章"), "\">") + "\n      <div class=\"article-meta\">\n        ", Field("<div class=\"article-category\">", OrElse(p.category, "文章"), "</div>"));
    ContainsPrefix("\n    <article class=\"article-item\" " + Field("data-category=\"", OrElse(p.category, "文章"), "\">") + "\n      <div class=\"article-meta\">\n        " + Field("<div class=\"article-category\">", OrElse(p.category, "文章"), "</div>"), "\n        ", Field("<div class=\"article-category\">", OrElse(p.category, "文章"), "</div>"));
    ContainsPrefix("\n    <article class=\"article-item\" " + Field("data-category=\"", OrElse(p.category, "文章"), "\">") + "\n      <div class=\"article-meta\">\n        " + Field("<div class=\"article-category\">", OrElse(p.category, "文章"), "</div>") + "\n        ", Field("<div class=\"article-date\">", OrElse(p.date, ""), "</div>"), Field("<div class=\"article-category\">", OrElse(p.category, "文章"), "</div>"));
    ContainsPrefix("\n    <article class=\"article-item\" " + Field("data-category=\"", OrElse(p.category, "文章"), "\">") + "\n      <div class=\"article-meta\">\n        " + Field("<div class=\"article-category\">", OrElse(p.category, "文章"), "</div>") + "\n        " + Field("<div class=\"article-date\">", OrElse(p.date, ""), "</div>"), "\n      </div>", Field("<div class=\"article-category\">", OrElse(p.category, "文章"), "</div>"));
    ContainsSuffix("\n    <article class=\"article-item\" " + Field("data-category=\"", OrElse(p.category, "文章"), "\">") + "\n      <div class=\"article-meta\">\n        " + Field("<div class=\"article-category\">", OrElse(p.category, "文章"), "</div>") + "\n        ", Field("<div class=\"article-date\">", OrElse(p.date, ""), "</div>"));
    ContainsPrefix("\n    <article class=\"article-item\" " + Field("data-category=\"", OrElse(p.category, "文章"), "\">") + "\n      <div class=\"article-meta\">\n        " + Field("<div class=\"article-category\">", OrElse(p.category, "文章"), "</div>") + "\n        " + Field("<div class=\"article-date\">", OrElse(p.date, ""), "</div>"), "\n      </div>", Field("<div class=\"article-date\">", OrElse(p.date, ""), "</div>"));
  }

  /** The entry carries the escaped title, description and href. */
  lemma IndexItemTextFields(p: IndexItem)
    ensures Contains(IndexItemText(p), "<h3 class=\"article-title\">" + Escape(Text(p.title)) + "</h3>")
    ensures Contains(IndexItemText(p), "<p class=\"article-excerpt\">" + Escape(OrElse(p.description, "")) + "</p>")
    ensures Contains(IndexItemText(p), "<a href=\"" + Escape(Text(p.href)) + "\" class=\"article-read-more\">阅读全文 →</a>")
  {
    ContainsSuffix("\n      <div class=\"article-content\">\n        ", Field("<h3 class=\"article-title\">", Text(p.title), "</h3>"));
    ContainsPrefix("\n      <div class=\"article-content\">\n        " + Field("<h3 class=\"article-title\">", Text(p.title), "</h3>"), "\n        ", Field("<h3 class=\"article-title\">", Text(p.title), "</h3>"));
    ContainsPrefix("\n      <div class=\"article-content\">\n        " + Field("<h3 class=\"article-title\">", Text(p.title), "</h3>") + "\n        ", Field("<p class=\"article-excerpt\">", OrElse(p.description, ""), "</p>"), Field("<h3 class=\"article-title\">", Text(p.title), "</h3>"));
    ContainsPrefix("\n      <div class=\"article-content\">\n        " + Field("<h3 class=\"article-title\">", Text(p.title), "</h3>") + "\n        " + Field("<p class=\"article-excerpt\">", OrElse(p.description, ""), "</p>"), "\n        ", Field("<h3 class=\"article-title\">", Text(p.title), "</h3>"));
    ContainsPrefix("\n      <div class=\"article-content\">\n        " + Field("<h3 class=\"article-title\">", Text(p.title), "</h3>") + "\n        " + Field("<p class=\"article-excerpt\">", OrElse(p.description, ""), "</p>") + "\n        ", Field("<a href=\"", Text(p.href), "\" class=\"article-read-more\">阅读全文 →</a>"), Field("<h3 class=\"article-title\">", Text(p.title), "</h3>"));
    ContainsPrefix("\n      <div class=\"article-content\">\n        " + Field("<h3 class=\"article-title\">", Text(p.title), "</h3>") + "\n        " + Field("<p class=\"article-excerpt\">", OrElse(p.description, ""), "</p>") + "\n        " + Field("<a href=\"", Text(p.href), "\" class=\"article-read-more\">阅读全文 →</a>"), "\n      </div>\n    </article>", Field("<h3 class=\"article-title\">", Text(p.title), "</h3>"));
    ContainsSuffix("\n      <div class=\"article-content\">\n        " + Field("<h3 class=\"article-title\">", Text(p.title), "</h3>") + "\n        ", Field("<p class=\"article-excerpt\">", OrElse(p.description, ""), "</p>"));
    ContainsPrefix("\n      <div class=\"article-content\">\n        " + Field("<h3 class=\"article-title\">", Text(p.title), "</h3>") + "\n        " + Field("<p class=\"article-excerpt\">", OrElse(p.description, ""), "</p>"), "\n        ", Field("<p class=\"article-excerpt\">", OrElse(p.description, ""), "</p>"));
    ContainsPrefix("\n      <div class=\"article-content\">\n        " + Field("<h3 class=\"article-title\">", Text(p.title), "</h3>") + "\n        " + Field("<p class=\"article-excerpt\">", OrElse(p.description, ""), "</p>") + "\n        ", Field("<a href=\"", Text(p.href), "\" class=\"article-read-more\">阅读全文 →</a>"), Field("<p class=\"article-excerpt\">", OrElse(p.description, ""), "</p>"));
    ContainsPrefix("\n      <div class=\"article-content\">\n        " + Field("<h3 class=\"article-title\">", Text(p.title), "</h3>") + "\n        " + Field("<p class=\"article-excerpt\">", OrElse(p.description, ""), "</p>") + "\n        " + Field("<a href=\"", Text(p.href), "\" class=\"article-read-more\">阅读全文 →</a>"), "\n      </div>\n    </article>", Field("<p class=\"article-excerpt\">", OrElse(p.description, ""), "</p>"));
    ContainsSuffix("\n      <div class=\"article-content\">\n        " + Field("<h3 class=\"article-title\">", Text(p.title), "</h3>") + "\n        " + Field("<p class=\"article-excerpt\">", OrElse(p.description, ""), "</p>") + "\n        ", Field("<a href=\"", Text(p.href), "\" class=\"article-read-more\">阅读全文 →</a>"));
    ContainsPrefix("\n      <div class=\"article-content\">\n        " + Field("<h3 class=\"article-title\">", Text(p.title), "</h3>") + "\n        " + Field("<p class=\"article-excerpt\">", OrElse(p.description, ""), "</p>") + "\n        " + Field("<a href=\"", Text(p.href), "\" class=\"article-read-more\">阅读全文 →</a>"), "\n      </div>\n    </article>", Field("<a href=\"", Text(p.href), "\" class=\"article-read-more\">阅读全文 →</a>"));
  }

  /** The card carries the escaped href, hero class (or ai-bg) and category (or 文章). */
  lemma CardHeadFields(p: CardItem)
    ensures Contains(CardHead(p), "<a href=\"" + Escape(Text(p.href)) + "\" class=\"article-link\">")
    ensures Contains(CardHead(p), "<div class=\"image-placeholder " + Escape(OrElse(p.heroClass, "ai-bg")) + "\"></div>")
    ensures Contains(CardHead(p), "<div class=\"article-category\">" + Escape(OrElse(p.category, "文章")) + "</div>")
  {
    ContainsSuffix("\n    <article class=\"article-card\">\n      ", Field("<a href=\"", Text(p.href), "\" class=\"article-link\">"));
    ContainsPrefix("\n    <article class=\"article-card\">\n      " + Field("<a href=\"", Text(p.href), "\" class=\"article-link\">"), "\n        <div class=\"article-image\">\n          ", Field("<a href=\"", Text(p.href), "\" class=\"article-link\">"));
    ContainsPrefix("\n    <article class=\"article-card\">\n      " + Field("<a href=\"", Text(p.href), "\" class=\"article-link\">") + "\n        <div class=\"article-image\">\n          ", Field("<div class=\"image-placeholder ", OrElse(p.heroClass, "ai-bg"), "\"></div>"), Field("<a href=\"", Text(p.href), "\" class=\"article-link\">"));
    ContainsPrefix("\n    <article class=\"article-card\">\n      " + Field("<a href=\"", Text(p.href), "\" class=\"article-link\">") + "\n        <div class=\"article-image\">\n          " + Field("<div class=\"image-placeholder ", OrElse(p.heroClass, "ai-bg"), "\"></div>"), "\n          ", Field("<a href=\"", Text(p.href), "\" class=\"article-link\">"));
    ContainsPrefix("\n    <article class=\"article-card\">\n      " + Field("<a href=\"", Text(p.href), "\" class=\"article-link\">") + "\n        <div class=\"article-image\">\n          " + Field("<div class=\"image-placeholder ", OrElse(p.heroClass, "ai-bg"), "\"></div>") + "\n          ", Field("<div class=\"article-category\">", OrElse(p.category, "文章"), "</div>"), Field("<a href=\"", Text(p.href), "\" class=\"article-link\">"));
    ContainsPrefix("\n    <article class=\"article-card\">\n      " + Field("<a href=\"", Text(p.href), "\" class=\"article-link\">") + "\n        <div class=\"article-image\">\n          " + Field("<div class=\"image-placeholder ", OrElse(p.heroClass, "ai-bg"), "\"></div>") + "\n          " + Field("<div class=\"article-category\">", OrElse(p.category, "文章"), "</div>"), "\n        </div>\n        <div class=\"article-content\">\n          ", Field("<a href=\"", Text(p.href), "\" class=\"article-link\">"));
    ContainsSuffix("\n    <article class=\"article-card\">\n      " + Field("<a href=\"", Text(p.href), "\" class=\"article-link\">") + "\n        <div class=\"article-image\">\n          ", Field("<div class=\"image-placeholder ", OrElse(p.heroClass, "ai-bg"), "\"></div>"));
    ContainsPrefix("\n    <article class=\"article-card\">\n      " + Field("<a href=\"", Text(p.href), "\" class=\"article-link\">") + "\n        <div class=\"article-image\">\n          " + Field("<div class=\"image-placeholder ", OrElse(p.heroClass, "ai-bg"), "\"></div>"), "\n          ", Field("<div class=\"image-placeholder ", OrElse(p.heroClass, "ai-bg"), "\"></div>"));
    ContainsPrefix("\n    <article class=\"article-card\">\n      " + Field("<a href=\"", Text(p.href), "\" class=\"article-link\">") + "\n        <div class=\"article-image\">\n          " + Field("<div class=\"image-placeholder ", OrElse(p.heroClass, "ai-bg"), "\"></div>") + "\n          ", Field("<div class=\"article-category\">", OrElse(p.category, "文章"), "</div>"), Field("<div class=\"image-placeholder ", OrElse(p.heroClass, "ai-bg"), "\"></div>"));
    ContainsPrefix("\n    <article class=\"article-card\">\n      " + Field("<a href=\"", Text(p.href), "\" class=\"article-link\">") + "\n        <div class=\"article-image\">\n          " + Field("<div class=\"image-placeholder ", OrElse(p.heroClass, "ai-bg"), "\"></div>") + "\n          " + Field("<div class=\"article-category\">", OrElse(p.category, "文章"), "</div>"), "\n        </div>\n        <div class=\"article-content\">\n          ", Field("<div class=\"image-placeholder ", OrElse(p.heroClass, "ai-bg"), "\"></div>"));
    ContainsSuffix("\n    <article class=\"article-card\">\n      " + Field("<a href=\"", Text(p.href), "\" class=\"article-link\">") + "\n        <div class=\"article-image\">\n          " + Field("<div class=\"image-placeholder ", OrElse(p.heroClass, "ai-bg"), "\"></div>") + "\n          ", Field("<div class=\"article-category\">", OrElse(p.category, "文章"), "</div>"));
    ContainsPrefix("\n    <article class=\"article-card\">\n      " + Field("<a href=\"", Text(p.href), "\" class=\"article-link\">") + "\n        <div class=\"article-image\">\n          " + Field("<div class=\"image-placeholder ", OrElse(p.heroClass, "ai-bg"), "\"></div>") + "\n          " + Field("<div class=\"article-category\">", OrElse(p.category, "文章"), "</div>"), "\n        </div>\n        <div class=\"article-content\">\n          ", Field("<div class=\"article-category\">", OrElse(p.category, "文章"), "</div>"));
  }

  /** The card carries the escaped title, description, date and read time. */
  lemma CardTextFields(p: CardItem)
    ensures Contains(CardText(p), "<h3>" + Escape(Text(p.title)) + "</h3>")
    ensures Contains(CardText(p), "<p>" + Escape(OrElse(p.description, "")) + "</p>")
    ensures Contains(CardText(p), "<span class=\"date\">" + Escape(OrElse(p.date, "")) + "</span>")
    ensures Contains(CardText(p), "<span class=\"read-time\">" + Escape(OrElse(p.readTime, "")) + "</span>")
  {
    ContainsSelf(Field("<h3>", Text(p.title), "</h3>"));
    ContainsPrefix(Field("<h3>", Text(p.title), "</h3>"), "\n          ", Field("<h3>", Text(p.title), "</h3>"));
    ContainsPrefix(Field("<h3>", Text(p.title), "</h3>") + "\n          ", Field("<p>", OrElse(p.description, ""), "</p>"), Field("<h3>", Text(p.title), "</h3>"));
    ContainsPrefix(Field("<h3>", Text(p.title), "</h3>") + "\n          " + Field("<p>", OrElse(p.description, ""), "</p>"), "\n          <div class=\"article-meta\">\n            ", Field("<h3>", Text(p.title), "</h3>"));
    ContainsPrefix(Field("<h3>", Text(p.title), "</h3>") + "\n          " + Field("<p>", OrElse(p.description, ""), "</p>") + "\n          <div class=\"article-meta\">\n            ", Field("<span class=\"date\">", OrElse(p.date, ""), "</span>"), Field("<h3>", Text(p.title), "</h3>"));
    ContainsPrefix(Field("<h3>", Text(p.title), "</h3>") + "\n          " + Field("<p>", OrElse(p.description, ""), "</p>") + "\n          <div class=\"article-meta\">\n            " + Field("<span class=\"date\">", OrElse(p.date, ""), "</span>"), "\n            ", Field("<h3>", Text(p.title), "</h3>"));
    ContainsPrefix(Field("<h3>", Text(p.title), "</h3>") + "\n          " + Field("<p>", OrElse(p.description, ""), "</p>") + "\n          <div class=\"article-meta\">\n            " + Field("<span class=\"date\">", OrElse(p.date, ""), "</span>") + "\n            ", Field("<span class=\"read-time\">", OrElse(p.readTime, ""), "</span>"), Field("<h3>", Text(p.title), "</h3>"));
    ContainsPrefix(Field("<h3>", Text(p.title), "</h3>") + "\n          " + Field("<p>", OrElse(p.description, ""), "</p>") + "\n          <div class=\"article-meta\">\n            " + Field("<span class=\"date\">", OrElse(p.date, ""), "</span>") + "\n            " + Field("<span class=\"read-time\">", OrElse(p.readTime, ""), "</span>"), "\n          </div>\n        </div>\n      </a>\n    </article>", Field("<h3>", Text(p.title), "</h3>"));
    ContainsSuffix(Field("<h3>", Text(p.title), "</h3>") + "\n          ", Field("<p>", OrElse(p.description, ""), "</p>"));
    ContainsPrefix(Field("<h3>", Text(p.title), "</h3>") + "\n          " + Field("<p>", OrElse(p.description, ""), "</p>"), "\n          <div class=\"article-meta\">\n            ", Field("<p>", OrElse(p.description, ""), "</p>"));
    ContainsPrefix(Field("<h3>", Text(p.title), "</h3>") + "\n          " + Field("<p>", OrElse(p.description, ""), "</p>") + "\n          <div class=\"article-meta\">\n            ", Field("<span class=\"date\">", OrElse(p.date, ""), "</span>"), Field("<p>", OrElse(p.description, ""), "</p>"));
    ContainsPrefix(Field("<h3>", Text(p.title), "</h3>") + "\n          " + Field("<p>", OrElse(p.description, ""), "</p>") + "\n          <div class=\"article-meta\">\n            " + Field("<span class=\"date\">", OrElse(p.date, ""), "</span>"), "\n            ", Field("<p>", OrElse(p.description, ""), "</p>"));
    ContainsPrefix(Field("<h3>", Text(p.title), "</h3>") + "\n          " + Field("<p>", OrElse(p.description, ""), "</p>") + "\n          <div class=\"article-meta\">\n            " + Field("<span class=\"date\">", OrElse(p.date, ""), "</span>") + "\n            ", Field("<span class=\"read-time\">", OrElse(p.readTime, ""), "</span>"), Field("<p>", OrElse(p.description, ""), "</p>"));
    ContainsPrefix(Field("<h3>", Text(p.title), "</h3>") + "\n          " + Field("<p>", OrElse(p.description, ""), "</p>") + "\n          <div class=\"article-meta\">\n            " + Field("<span class=\"date\">", OrElse(p.date, ""), "</span>") + "\n            " + Field("<span class=\"read-time\">", OrElse(p.readTime, ""), "</span>"), "\n          </div>\n        </div>\n      </a>\n    </article>", Field("<p>", OrElse(p.description, ""), "</p>"));
    ContainsSuffix(Field("<h3>", Text(p.title), "</h3>") + "\n          " + Field("<p>", OrElse(p.description, ""), "</p>") + "\n          <div class=\"article-meta\">\n            ", Field("<span class=\"date\">", OrElse(p.date, ""), "</span>"));
    ContainsPrefix(Field("<h3>", Text(p.title), "</h3>") + "\n          " + Field("<p>", OrElse(p.description, ""), "</p>") + "\n          <div class=\"article-meta\">\n            " + Field("<span class=\"date\">", OrElse(p.date, ""), "</span>"), "\n            ", Field("<span class=\"date\">", OrElse(p.date, ""), "</span>"));
    ContainsPrefix(Field("<h3>", Text(p.title), "</h3>") + "\n          " + Field("<p>", OrElse(p.description, ""), "</p>") + "\n          <div class=\"article-meta\">\n            " + Field("<span class=\"date\">", OrElse(p.date, ""), "</span>") + "\n            ", Field("<span class=\"read-time\">", OrElse(p.readTime, ""), "</span>"), Field("<span class=\"date\">", OrElse(p.date, ""), "</span>"));
    ContainsPrefix(Field("<h3>", Text(p.title), "</h3>") + "\n          " + Field("<p>", OrElse(p.description, ""), "</p>") + "\n          <div class=\"article-meta\">\n            " + Field("<span class=\"date\">", OrElse(p.date, ""), "</span>") + "\n            " + Field("<span class=\"read-time\">", OrElse(p.readTime, ""), "</span>"), "\n          </div>\n        </div>\n      </a>\n    </article>", Field("<span class=\"date\">", OrElse(p.date, ""), "</span>"));
    ContainsSuffix(Field("<h3>", Text(p.title), "</h3>") + "\n          " + Field("<p>", OrElse(p.description, ""), "</p>") + "\n          <div class=\"article-meta\">\n            " + Field("<span class=\"date\">", OrElse(p.date, ""), "</span>") + "\n            ", Field("<span class=\"read-time\">", OrElse(p.readTime, ""), "</span>"));
    ContainsPrefix(Field("<h3>", Text(p.title), "</h3>") + "\n          " + Field("<p>", OrElse(p.description, ""), "</p>") + "\n          <div class=\"article-meta\">\n            " + Field("<span class=\"date\">", OrElse(p.date, ""), "</span>") + "\n            " + Field("<span class=\"read-time\">", OrElse(p.readTime, ""), "</span>"), "\n          </div>\n        </div>\n      </a>\n    </article>", Field("<span class=\"read-time\">", OrElse(p.readTime, ""), "</span>"));
  }

  /** Every field of an index entry is escaped; the category defaults to 文章. */
  lemma IndexItemFields(p: IndexItem)
    ensures Contains(IndexItemHtml(p), "data-category=\"" + Escape(OrElse(p.category, "文章")) + "\">")
    ensures Contains(IndexItemHtml(p), "<div class=\"article-category\">" + Escape(OrElse(p.category, "文章")) + "</div>")
    ensures Contains(IndexItemHtml(p), "<div class=\"article-date\">" + Escape(OrElse(p.date, "")) + "</div>")
    ensures Contains(IndexItemHtml(p), "<h3 class=\"article-title\">" + Escape(Text(p.title)) + "</h3>")
    ensures Contains(IndexItemHtml(p), "<p class=\"article-excerpt\">" + Escape(OrElse(p.description, "")) + "</p>")
    ensures Contains(IndexItemHtml(p), "<a href=\"" + Escape(Text(p.href)) + "\" class=\"article-read-more\">阅读全文 →</a>")
  {
    IndexItemHeadFields(p);
    IndexItemTextFields(p);
    ContainsPrefix(IndexItemHead(p), IndexItemText(p), "data-category=\"" + Escape(OrElse(p.category, "文章")) + "\">");
    ContainsPrefix(IndexItemHead(p), IndexItemText(p), "<div class=\"article-category\">" + Escape(OrElse(p.category, "文章")) + "</div>");
    ContainsPrefix(IndexItemHead(p), IndexItemText(p), "<div class=\"article-date\">" + Escape(OrElse(p.date, "")) + "</div>");
    ContainsAfter(IndexItemHead(p), IndexItemText(p), "<h3 class=\"article-title\">" + Escape(Text(p.title)) + "</h3>");
    ContainsAfter(IndexItemHead(p), IndexItemText(p), "<p class=\"article-excerpt\">" + Escape(OrElse(p.description, "")) + "</p>");
    ContainsAfter(IndexItemHead(p), IndexItemText(p), "<a href=\"" + Escape(Text(p.href)) + "\" class=\"article-read-more\">阅读全文 →</a>");
  }

  /** Every field of a card is escaped; the hero class defaults to ai-bg, the category to 文章. */
  lemma CardFields(p: CardItem)
    ensures Contains(CardHtml(p), "<a href=\"" + Escape(Text(p.href)) + "\" class=\"article-link\">")
    ensures Contains(CardHtml(p), "<div class=\"image-placeholder " + Escape(OrElse(p.heroClass, "ai-bg")) + "\"></div>")
    ensures Contains(CardHtml(p), "<div class=\"article-category\">" + Escape(OrElse(p.category, "文章")) + "</div>")
    ensures Contains(CardHtml(p), "<h3>" + Escape(Text(p.title)) + "</h3>")
    ensures Contains(CardHtml(p), "<p>" + Escape(OrElse(p.description, "")) + "</p>")
    ensures Contains(CardHtml(p), "<span class=\"date\">" + Escape(OrElse(p.date, "")) + "</span>")
    ensures Contains(CardHtml(p), "<span class=\"read-time\">" + Escape(OrElse(p.readTime, "")) + "</span>")
  {
    CardHeadFields(p);
    CardTextFields(p);
    ContainsPrefix(CardHead(p), CardText(p), "<a href=\"" + Escape(Text(p.href)) + "\" class=\"article-link\">");
    ContainsPrefix(CardHead(p), CardText(p), "<div class=\"image-placeholder " + Escape(OrElse(p.heroClass, "ai-bg")) + "\"></div>");
    ContainsPrefix(CardHead(p), CardText(p), "<div class=\"article-category\">" + Escape(OrElse(p.category, "文章")) + "</div>");
    ContainsAfter(CardHead(p), CardText(p), "<h3>" + Escape(Text(p.title)) + "</h3>");
    ContainsAfter(CardHead(p), CardText(p), "<p>" + Escape(OrElse(p.description, "")) + "</p>");
    ContainsAfter(CardHead(p), CardText(p), "<span class=\"date\">" + Escape(OrElse(p.date, "")) + "</span>");
    ContainsAfter(CardHead(p), CardText(p), "<span class=\"read-time\">" + Escape(OrElse(p.readTime, "")) + "</span>");
  }

  /** One more item appends a line feed and its entry. */
  lemma ArticlesIndexSnoc(items: seq<IndexItem>, x: IndexItem)
    ensures ArticlesIndexHtml(items + [x]) ==
      if items == [] then IndexItemHtml(x) else ArticlesIndexHtml(items) + "\n" + IndexItemHtml(x)
  {
    MapSnoc(IndexItemHtml, items, x);
    JoinSnoc(IndexItemsHtml(items), IndexItemHtml(x), "\n");
  }

  lemma HomepageCardsSnoc(items: seq<CardItem>, x: CardItem)
    ensures HomepageCardsHtml(items + [x]) ==
      if items == [] then CardHtml(x) else HomepageCardsHtml(items) + "\n" + CardHtml(x)
  {
    MapSnoc(CardHtml, items, x);
    JoinSnoc(CardsHtml(items), CardHtml(x), "\n");
  }

  lemma StartsWithExtend(s: string, t: string, p: string)
    requires StartsWith(s, p)
    ensures StartsWith(s + t, p)
  {
    assert (s + t)[..|p|] == s[..|p|];
  }

  /** Without a truthy category an entry is filed under 文章. */
  lemma IndexCategoryDefault(p: IndexItem, dflt: string)
    requires dflt == "文章" && !Truthy(p.category)
    ensures Contains(IndexItemHtml(p), "data-category=\"" + dflt + "\">")
    ensures Contains(IndexItemHtml(p), "<div class=\"article-category\">" + dflt + "</div>")
  {
    assert forall i :: 0 <= i < |dflt| ==> !IsSpecial(dflt[i]);
    EscapePlain(dflt);
    IndexItemFields(p);
  }

  /** Without a truthy hero class a card uses ai-bg. */
  lemma CardHeroClassDefault(p: CardItem, dflt: string)
    requires dflt == "ai-bg" && !Truthy(p.heroClass)
    ensures Contains(CardHtml(p), "<div class=\"image-placeholder " + dflt + "\"></div>")
  {
    assert forall i :: 0 <= i < |dflt| ==> !IsSpecial(dflt[i]);
    EscapePlain(dflt);
    CardHeadFields(p);
    ContainsPrefix(CardHead(p), CardText(p), "<div class=\"image-placeholder " + Escape(OrElse(p.heroClass, "ai-bg")) + "\"></div>");
  }

  /** Without a truthy read time a card's read-time span is empty. */
  lemma CardReadTimeDefault(p: CardItem, open: string, close: string)
    requires open == "<span class=\"read-time\">" && close == "</span>" && !Truthy(p.readTime)
    ensures Contains(CardHtml(p), open + close)
  {
    CardTextFields(p);
    ContainsAfter(CardHead(p), CardText(p), "<span class=\"read-time\">" + Escape(OrElse(p.readTime, "")) + "</span>");
    AppendEmpty(open, Escape(""), close);
  }

  lemma StartsWithSelf(s: string)
    ensures StartsWith(s, s)
  {
  }

  /** Each entry opens one article-item element. */
  lemma IndexItemIsArticle(p: IndexItem, tag: string)
    requires tag == "\n    <article class=\"article-item\" "
    ensures StartsWith(IndexItemHtml(p), tag)
  {
    StartsWithSelf("\n    <article class=\"article-item\" ");
    StartsWithExtend("\n    <article class=\"article-item\" ", Field("data-category=\"", OrElse(p.category, "文章"), "\">"), "\n    <article class=\"article-item\" ");
    StartsWithExtend("\n    <article class=\"article-item\" " + Field("data-category=\"", OrElse(p.category, "文章"), "\">"), "\n      <div class=\"article-meta\">\n        ", "\n    <article class=\"article-item\" ");
    StartsWithExtend("\n    <article class=\"article-item\" " + Field("data-category=\"", OrElse(p.category, "文章"), "\">") + "\n      <div class=\"article-meta\">\n        ", Field("<div class=\"article-category\">", OrElse(p.category, "文章"), "</div>"), "\n    <article class=\"article-item\" ");
    StartsWithExtend("\n    <article class=\"article-item\" " + Field("data-category=\"", OrElse(p.category, "文章"), "\">") + "\n      <div class=\"article-meta\">\n        " + Field("<div class=\"article-category\">", OrElse(p.category, "文章"), "</div>"), "\n        ", "\n    <article class=\"article-item\" ");
    StartsWithExtend("\n    <article class=\"article-item\" " + Field("data-category=\"", OrElse(p.category, "文章"), "\">") + "\n      <div class=\"article-meta\">\n        " + Field("<div class=\"article-category\">", OrElse(p.category, "文章"), "</div>") + "\n        ", Field("<div class=\"article-date\">", OrElse(p.date, ""), "</div>"), "\n    <article class=\"article-item\" ");
    StartsWithExtend("\n    <article class=\"article-item\" " + Field("data-category=\"", OrElse(p.category, "文章"), "\">") + "\n      <div class=\"article-meta\">\n        " + Field("<div class=\"article-category\">", OrElse(p.category, "文章"), "</div>") + "\n        " + Field("<div class=\"article-date\">", OrElse(p.date, ""), "</div>"), "\n      </div>", "\n    <article class=\"article-item\" ");
    StartsWithExtend(IndexItemHead(p), IndexItemText(p), tag);
  }

  /** Each card opens one article-card element. */
  lemma CardIsArticle(p: CardItem, tag: string)
    requires tag == "\n    <article class=\"article-card\">\n      "
    ensures StartsWith(CardHtml(p), tag)
  {
    StartsWithSelf("\n    <article class=\"article-card\">\n      ");
    StartsWithExtend("\n    <article class=\"article-card\">\n      ", Field("<a href=\"", Text(p.href), "\" class=\"article-link\">"), "\n    <article class=\"article-card\">\n      ");
    StartsWithExtend("\n    <article class=\"article-card\">\n      " + Field("<a href=\"", Text(p.href), "\" class=\"article-link\">"), "\n        <div class=\"article-image\">\n          ", "\n    <article class=\"article-card\">\n      ");
    StartsWithExtend("\n    <article class=\"article-card\">\n      " + Field("<a href=\"", Text(p.href), "\" class=\"article-link\">") + "\n        <div class=\"article-image\">\n          ", Field("<div class=\"image-placeholder ", OrElse(p.heroClass, "ai-bg"), "\"></div>"), "\n    <article class=\"article-card\">\n      ");
    StartsWithExtend("\n    <article class=\"article-card\">\n      " + Field("<a href=\"", Text(p.href), "\" class=\"article-link\">") + "\n        <div class=\"article-image\">\n          " + Field("<div class=\"image-placeholder ", OrElse(p.heroClass, "ai-bg"), "\"></div>"), "\n          ", "\n    <article class=\"article-card\">\n      ");
    StartsWithExtend("\n    <article class=\"article-card\">\n      " + Field("<a href=\"", Text(p.href), "\" class=\"article-link\">") + "\n        <div class=\"article-image\">\n          " + Field("<div class=\"image-placeholder ", OrElse(p.heroClass, "ai-bg"), "\"></div>") + "\n          ", Field("<div class=\"article-category\">", OrElse(p.category, "文章"), "</div>"), "\n    <article class=\"article-card\">\n      ");
    StartsWithExtend("\n    <article class=\"article-card\">\n      " + Field("<a href=\"", Text(p.href), "\" class=\"article-link\">") + "\n        <div class=\"article-image\">\n          " + Field("<div class=\"image-placeholder ", OrElse(p.heroClass, "ai-bg"), "\"></div>") + "\n          " + Field("<div class=\"article-category\">", OrElse(p.category, "文章"), "</div>"), "\n        </div>\n        <div class=\"article-content\">\n          ", "\n    <article class=\"article-card\">\n      ");
    StartsWithExtend(CardHead(p), CardText(p), tag);
  }
}
