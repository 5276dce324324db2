/** buildOnce (tools/build.mjs:54-116): one pass of the static site build.
    The file system is modelled by its contents: the pages under articles/
    as a map from file name to text, and the home page as an optional text
    (None when it does not exist). The Markdown renderer and the fixed page blocks of the templates
    (Templates.SiteChrome in the site) are parameters. */
module Build {
  import opened Strings
  import opened Templates
  import opened Posts
  import opened References
  import opened Markers

  /** The file a post's page is written to, under articles/. */
  function FileName(p: Post): string {
    p.slug + ".html"
  }

  /** The front matter articleHtml is given for a post: the post's own
      fields, its defaulted date and the references card. */
  function Meta(p: Post, refs: string): ArticleMeta {
    ArticleMeta(p.data.title, p.data.category, Some(p.date), p.data.readTime,
                p.data.description, p.data.heroStyle, Some(refs))
  }

  /** The page of post i: its Markdown without the references section,
      rendered; its references as a card; its neighbours as links. */
  function Page(ch: Chrome, render: string -> string, posts: seq<Post>, i: nat): string
    requires i < |posts|
  {
    var md := posts[i].md;
    ArticleHtml(ch, Meta(posts[i], ReferencesSpec(md)), render(StripSpec(md)),
                Prev(posts, i), Next(posts, i))
  }

  /** The pages of all posts, newest first. */
  function Pages(ch: Chrome, render: string -> string, posts: seq<Post>): (r: seq<string>)
    ensures |r| == |posts|
  {
    seq(|posts|, i requires 0 <= i < |posts| => Page(ch, render, posts, i))
  }

  lemma PageAt(ch: Chrome, render: string -> string, posts: seq<Post>, i: nat)
    requires i < |posts|
    ensures Pages(ch, render, posts)[i] == Page(ch, render, posts, i)
  {
  }

  /** The file name and text of each page, in the order buildOnce writes
      them: post i's text is pages[i]. */
  function Writes(posts: seq<Post>, pages: seq<string>): (ws: seq<(string, string)>)
    requires |pages| == |posts|
    ensures |ws| == |posts|
    ensures forall i :: 0 <= i < |posts| ==> ws[i] == (FileName(posts[i]), pages[i])
  {
    seq(|posts|, i requires 0 <= i < |posts| => (FileName(posts[i]), pages[i]))
  }

  /** `files` after writing each (name, text) of `ws` in turn. */
  function Apply<K, V>(files: map<K, V>, ws: seq<(K, V)>): map<K, V> {
    if ws == [] then files
    else Apply(files, ws[..|ws| - 1])[ws[|ws| - 1].0 := ws[|ws| - 1].1]
  }

  // ------------------------------------------------------------ writes

  /** Writing adds exactly the names written to. */
  lemma {:induction false} ApplyKeys<K, V>(files: map<K, V>, ws: seq<(K, V)>, f: K)
    ensures f in Apply(files, ws) <==> f in files || exists i :: 0 <= i < |ws| && ws[i].0 == f
  {
    if ws != [] {
      var ws' := ws[..|ws| - 1];
      ApplyKeys(files, ws', f);
      if exists i :: 0 <= i < |ws| && ws[i].0 == f {
        var i :| 0 <= i < |ws| && ws[i].0 == f;
        if i < |ws'| { assert ws'[i].0 == f; }
      }
      if exists i :: 0 <= i < |ws'| && ws'[i].0 == f {
        var i :| 0 <= i < |ws'| && ws'[i].0 == f;
        assert ws[i].0 == f;
      }
    }
  }

  /** A file nothing is written to keeps its old text. */
  lemma {:induction false} ApplyUntouched<K, V>(files: map<K, V>, ws: seq<(K, V)>, f: K)
    requires f in files
    requires forall i :: 0 <= i < |ws| ==> ws[i].0 != f
    ensures f in Apply(files, ws) && Apply(files, ws)[f] == files[f]
  {
    if ws != [] {
      var ws' := ws[..|ws| - 1];
      forall i | 0 <= i < |ws'| ensures ws'[i].0 != f {
        assert ws'[i] == ws[i];
      }
      ApplyUntouched(files, ws', f);
    }
  }

  /** A file holds the text of the last write to it. */
  lemma {:induction false} ApplyLastWins<K, V>(files: map<K, V>, ws: seq<(K, V)>, i: nat)
    requires i < |ws|
    requires forall j :: i < j < |ws| ==> ws[j].0 != ws[i].0
    ensures ws[i].0 in Apply(files, ws) && Apply(files, ws)[ws[i].0] == ws[i].1
  {
    if i != |ws| - 1 {
      var ws' := ws[..|ws| - 1];
      forall j | i < j < |ws'| ensures ws'[j].0 != ws'[i].0 {
        assert ws'[j] == ws[j] && ws'[i] == ws[i];
      }
      ApplyLastWins(files, ws', i);
      assert ws'[i] == ws[i];
    }
  }

  lemma ApplySnoc<K, V>(files: map<K, V>, ws: seq<(K, V)>, k: nat)
    requires k < |ws|
    ensures Apply(files, ws[..k + 1]) == Apply(files, ws[..k])[ws[k].0 := ws[k].1]
  {
    assert ws[..k + 1][..k] == ws[..k];
  }

  lemma ApplyWhole<K, V>(files: map<K, V>, ws: seq<(K, V)>)
    ensures Apply(files, ws[..|ws|]) == Apply(files, ws)
  {
    assert ws[..|ws|] == ws;
  }

  // ------------------------------------------------------------ pages

  /** The article files once every page is written over `files`. */
  function Written(posts: seq<Post>, pages: seq<string>, files: map<string, string>): map<string, string>
    requires |pages| == |posts|
  {
    Apply(files, Writes(posts, pages))
  }

  /** Writing the pages adds exactly the posts' file names. */
  lemma WrittenKeys(posts: seq<Post>, pages: seq<string>, files: map<string, string>, f: string)
    requires |pages| == |posts|
    ensures f in Written(posts, pages, files) <==>
      f in files || exists i :: 0 <= i < |posts| && FileName(posts[i]) == f
  {
    var ws := Writes(posts, pages);
    ApplyKeys(files, ws, f);
    if exists i :: 0 <= i < |posts| && FileName(posts[i]) == f {
      var i :| 0 <= i < |posts| && FileName(posts[i]) == f;
      assert ws[i].0 == f;
    }
  }

  /** When several posts share a slug, their file holds the page of the last
      of them in the order of writing, which is the oldest. */
  lemma LastWriteWins(posts: seq<Post>, pages: seq<string>, files: map<string, string>, i: nat)
    requires |pages| == |posts|
    requires i < |posts|
    requires forall j :: i < j < |posts| ==> FileName(posts[j]) != FileName(posts[i])
    ensures FileName(posts[i]) in Written(posts, pages, files)
    ensures Written(posts, pages, files)[FileName(posts[i])] == pages[i]
  {
    ApplyLastWins(files, Writes(posts, pages), i);
  }

  /** A file no post is written to keeps its old text. */
  lemma UntouchedFile(posts: seq<Post>, pages: seq<string>, files: map<string, string>, f: string)
    requires |pages| == |posts|
    requires f in files
    requires forall i :: 0 <= i < |posts| ==> FileName(posts[i]) != f
    ensures f in Written(posts, pages, files) && Written(posts, pages, files)[f] == files[f]
  {
    ApplyUntouched(files, Writes(posts, pages), f);
  }

  /** With distinct slugs every post's page is in its own file. */
  lemma EveryPageWritten(posts: seq<Post>, pages: seq<string>, files: map<string, string>, i: nat)
    requires |pages| == |posts|
    requires i < |posts|
    requires forall j, l :: 0 <= j < l < |posts| ==> posts[j].slug != posts[l].slug
    ensures FileName(posts[i]) in Written(posts, pages, files)
    ensures Written(posts, pages, files)[FileName(posts[i])] == pages[i]
  {
    forall j | i < j < |posts| ensures FileName(posts[j]) != FileName(posts[i]) {
      assert posts[i].slug != posts[j].slug;
      assert FileName(posts[j])[..|posts[j].slug|] == posts[j].slug;
      assert FileName(posts[i])[..|posts[i].slug|] == posts[i].slug;
    }
    LastWriteWins(posts, pages, files, i);
  }

  /** The navigation links of a page point at files the build writes, and at
      the neighbouring posts' pages. */
  lemma NavLinksResolve(posts: seq<Post>, pages: seq<string>, files: map<string, string>, i: nat)
    requires |pages| == |posts|
    requires i < |posts|
    ensures Prev(posts, i).Some? <==> i + 1 < |posts|
    ensures Next(posts, i).Some? <==> i > 0
    ensures Prev(posts, i).Some? ==>
      Prev(posts, i).value.href == FileName(posts[i + 1]) && FileName(posts[i + 1]) in Written(posts, pages, files)
    ensures Next(posts, i).Some? ==>
      Next(posts, i).value.href == FileName(posts[i - 1]) && FileName(posts[i - 1]) in Written(posts, pages, files)
  {
    if i + 1 < |posts| { WrittenKeys(posts, pages, files, FileName(posts[i + 1])); }
    if i > 0 { WrittenKeys(posts, pages, files, FileName(posts[i - 1])); }
  }

  // ------------------------------------------------------------ home page

  /** The card of a post on the home page. */
  function Card(p: Post): CardItem {
    CardItem(Some("articles/" + FileName(p)), p.data.title, Some(OrElse(p.data.description, "")),
             Some(p.date), Some(OrElse(p.data.readTime, "")), Some(OrElse(p.data.category, "文章")),
             Some(HeroClassFromCategory(p.data.category)))
  }

  /** The cards of the (at most) three newest posts. */
  function Latest(posts: seq<Post>): seq<CardItem> {
    Map(Card, posts[..if |posts| < 3 then |posts| else 3])
  }

  /** The home page with its article grid replaced by the latest cards. */
  function PatchHome(home: string, posts: seq<Post>): string {
    ReplaceBetween(home, GridStart, GridEnd, "\n" + HomepageCardsHtml(Latest(posts)) + "\n")
  }

  /** The home page shows the three newest posts (all of them when there are
      fewer), in order, each linking to its page under articles/. */
  lemma LatestCards(posts: seq<Post>)
    ensures |Latest(posts)| == if |posts| < 3 then |posts| else 3
    ensures forall i :: 0 <= i < |Latest(posts)| ==>
      Latest(posts)[i].href == Some("articles/" + FileName(posts[i]))
      && Latest(posts)[i].title == posts[i].data.title
      && Latest(posts)[i].date == Some(posts[i].date)
  {
  }

  /** With the grid markers in order, the patched home page holds the cards. */
  lemma HomeShowsCards(home: string, posts: seq<Post>, a: nat, b: nat)
    requires FirstAt(home, GridStart, a) && FirstAt(home, GridEnd, b) && a <= b
    ensures Contains(PatchHome(home, posts), HomepageCardsHtml(Latest(posts)))
  {
    var cards := HomepageCardsHtml(Latest(posts));
    PatchedContainsReplacement(home, GridStart, GridEnd, "\n" + cards + "\n", a, b);
    ContainsMiddle("\n", cards, "\n");
    ContainsTrans(PatchHome(home, posts), "\n" + cards + "\n", cards);
  }

  // ------------------------------------------------------- articles index

  /** The entry of a post in the articles index. */
  function ListItem(p: Post): IndexItem {
    IndexItem(Some(FileName(p)), p.data.title, Some(OrElse(p.data.description, "")),
              Some(p.date), Some(OrElse(p.data.category, "文章")))
  }

  /** The articles index with its list replaced by one entry per post. */
  function PatchIndex(index: string, posts: seq<Post>): string {
    ReplaceBetween(index, ListStart, ListEnd, "\n" + ArticlesIndexHtml(Map(ListItem, posts)) + "\n")
  }

  /** The index lists every post, newest first, each linking to the file its
      page is written to. */
  lemma IndexListsEveryPost(posts: seq<Post>, pages: seq<string>, files: map<string, string>)
    requires |pages| == |posts|
    ensures |Map(ListItem, posts)| == |posts|
    ensures forall i :: 0 <= i < |posts| ==>
      Map(ListItem, posts)[i].href == Some(FileName(posts[i]))
      && FileName(posts[i]) in Written(posts, pages, files)
  {
    forall i | 0 <= i < |posts| ensures FileName(posts[i]) in Written(posts, pages, files) {
      WrittenKeys(posts, pages, files, FileName(posts[i]));
    }
  }

  // ------------------------------------------------------------ buildOnce

  /** The articles index, which the build patches when it exists. */
  const IndexFile: string := "index.html"

  /** The article files with the index patched, when there is one. */
  function PatchArticles(out: map<string, string>, posts: seq<Post>): map<string, string>
  {
    if IndexFile in out then out[IndexFile := PatchIndex(out[IndexFile], posts)] else out
  }

  /** Patching the index leaves every other file as it is. */
  lemma PatchKeepsOthers(out: map<string, string>, posts: seq<Post>, f: string)
    requires f in out && f != IndexFile
    ensures PatchArticles(out, posts)[f] == out[f]
  {
  }

  /** The article files once the build has run: the pages written over the
      old files, then the articles index patched when it exists, which it may
      because a post's page was written to it. */
  function BuiltArticles(posts: seq<Post>, pages: seq<string>, articles: map<string, string>): map<string, string>
    requires |pages| == |posts|
  {
    PatchArticles(Written(posts, pages, articles), posts)
  }

  /** The home page once the build has run. */
  function BuiltHome(posts: seq<Post>, home: Option<string>): (r: Option<string>)
    ensures r.Some? <==> home.Some?
  {
    match home
    case None => None
    case Some(h) => Some(PatchHome(h, posts))
  }

  /** The page of post i, rendered as the loop of buildOnce does. */
  method RenderPage(ch: Chrome, render: string -> string, posts: seq<Post>, i: nat) returns (full: string)
    requires i < |posts|
    ensures full == Page(ch, render, posts, i)
  {
    var md := posts[i].md;
    var mdWithoutRefs := StripReferencesSection(md);
    var referencesHtml := BuildReferencesFromMarkdown(md);
    full := ArticleHtml(ch, Meta(posts[i], referencesHtml), render(mdWithoutRefs),
                        Prev(posts, i), Next(posts, i));
  }

  /** One step of posts.forEach: renders post i and writes its page. */
  method WritePage(ch: Chrome, render: string -> string, posts: seq<Post>, articles: map<string, string>,
                   i: nat, out: map<string, string>) returns (out': map<string, string>)
    requires i < |posts|
    requires out == Apply(articles, Writes(posts, Pages(ch, render, posts))[..i])
    ensures out' == Apply(articles, Writes(posts, Pages(ch, render, posts))[..i + 1])
  {
    ApplySnoc(articles, Writes(posts, Pages(ch, render, posts)), i);
    PageAt(ch, render, posts, i);
    var full := RenderPage(ch, render, posts, i);
    out' := out[FileName(posts[i]) := full];
  }

  /** posts.forEach: writes each post's page in turn. */
  method WritePages(ch: Chrome, render: string -> string, posts: seq<Post>, articles: map<string, string>)
    returns (out: map<string, string>)
    ensures out == Written(posts, Pages(ch, render, posts), articles)
  {
    out := articles;
    for i := 0 to |posts|
      invariant out == Apply(articles, Writes(posts, Pages(ch, render, posts))[..i])
    {
      out := WritePage(ch, render, posts, articles, i, out);
    }
    ApplyWhole(articles, Writes(posts, Pages(ch, render, posts)));
  }

  /** buildOnce without reading the posts: writes each post's page, then
      patches the home page and the articles index. */
  method BuildSite(ch: Chrome, render: string -> string, posts: seq<Post>, articles: map<string, string>, home: Option<string>)
    returns (articles': map<string, string>, home': Option<string>)
    ensures articles' == BuiltArticles(posts, Pages(ch, render, posts), articles)
    ensures home' == BuiltHome(posts, home)
  {
    var written := WritePages(ch, render, posts, articles);
    articles' := PatchArticles(written, posts);
    home' := BuiltHome(posts, home);
  }

  /** buildOnce: reads the posts, then builds the site from them. */
  method BuildOnce(ch: Chrome, render: string -> string, dir: Option<seq<Entry>>, articles: map<string, string>, home: Option<string>)
    returns (posts: seq<Post>, articles': map<string, string>, home': Option<string>)
    ensures posts == ReadPosts(dir)
    ensures articles' == BuiltArticles(posts, Pages(ch, render, posts), articles)
    ensures home' == BuiltHome(posts, home)
  {
    posts := ReadPosts(dir);
    articles', home' := BuildSite(ch, render, posts, articles, home);
  }

  /** The build leaves article files no post is written to as they were,
      except the articles index. */
  lemma BuildKeepsOtherFiles(posts: seq<Post>, pages: seq<string>, articles: map<string, string>, f: string)
    requires |pages| == |posts|
    requires f in articles && f != IndexFile
    requires forall i :: 0 <= i < |posts| ==> FileName(posts[i]) != f
    ensures f in BuiltArticles(posts, pages, articles)
    ensures BuiltArticles(posts, pages, articles)[f] == articles[f]
  {
    UntouchedFile(posts, pages, articles, f);
    PatchKeepsOthers(Written(posts, pages, articles), posts, f);
  }

  /** A post's page, once written, is what the build leaves in its file,
      unless the file is the articles index. */
  lemma BuildWritesPages(posts: seq<Post>, pages: seq<string>, articles: map<string, string>, i: nat)
    requires |pages| == |posts|
    requires i < |posts| && FileName(posts[i]) != IndexFile
    requires forall j :: i < j < |posts| ==> FileName(posts[j]) != FileName(posts[i])
    ensures FileName(posts[i]) in BuiltArticles(posts, pages, articles)
    ensures BuiltArticles(posts, pages, articles)[FileName(posts[i])] == pages[i]
  {
    LastWriteWins(posts, pages, articles, i);
    PatchKeepsOthers(Written(posts, pages, articles), posts, FileName(posts[i]));
  }
}
