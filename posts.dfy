/** Post bookkeeping of tools/build.mjs: what readPosts makes of each entry of
    content/posts (tools/build.mjs:15-37), the newest-first order, the
    neighbour rule of buildOnce (tools/build.mjs:60-61), toNav
    (tools/build.mjs:118-120) and heroClassFromCategory
    (tools/build.mjs:131-140). */
module Posts {
  import opened Strings
  import opened Slugs
  import opened Templates

  /** The front matter fields the build reads, as gray-matter yields them. */
  datatype FrontMatter = FrontMatter(
    slug: Option<string>, title: Option<string>, date: Option<string>,
    category: Option<string>, description: Option<string>,
    readTime: Option<string>, heroStyle: Option<string>)

  /** An entry of content/posts: its file name, and the front matter and the
      body gray-matter parses from its text. */
  datatype Entry = Entry(name: string, data: FrontMatter, content: string)

  /** A post as readPosts returns it. Its front matter is `data` with `slug`
      and `date` replaced by the defaulted values held here. */
  datatype Post = Post(data: FrontMatter, slug: string, date: string, md: string, href: string)

  // ------------------------------------------------------------ readPosts

  /** The entries whose name ends in ".md", in directory order. */
  function MarkdownEntries(es: seq<Entry>): (r: seq<Entry>)
    ensures |r| <= |es|
    ensures forall e :: e in r <==> e in es && EndsWith(e.name, ".md")
  {
    if es == [] then []
    else (if EndsWith(es[0].name, ".md") then [es[0]] else []) + MarkdownEntries(es[1..])
  }

  /** The filter keeps directory order: filtering a concatenation filters
      each part and concatenates the results. */
  lemma {:induction false} MarkdownEntriesConcat(a: seq<Entry>, b: seq<Entry>)
    ensures MarkdownEntries(a + b) == MarkdownEntries(a) + MarkdownEntries(b)
  {
    if a == [] {
      assert a + b == b;
    } else {
      assert (a + b)[0] == a[0];
      assert (a + b)[1..] == a[1..] + b;
      MarkdownEntriesConcat(a[1..], b);
    }
  }

  /** A single entry is kept exactly when its name ends in ".md". */
  lemma MarkdownEntriesSingle(e: Entry)
    ensures MarkdownEntries([e]) == if EndsWith(e.name, ".md") then [e] else []
  {
    assert [e][1..] == [];
  }

  /** One post: an explicit slug is used verbatim, otherwise it is derived
      from the file name; the href is the slug plus ".html"; a missing or
      empty date becomes "". */
  function MakePost(e: Entry): (p: Post)
    ensures Truthy(e.data.slug) ==> p.slug == e.data.slug.value
    ensures !Truthy(e.data.slug) ==> p.slug == SlugFromFilename(e.name) && AllSlugChars(p.slug)
    ensures p.href == p.slug + ".html"
    ensures Truthy(e.data.date) ==> p.date == e.data.date.value
    ensures !Truthy(e.data.date) ==> p.date == ""
    ensures p.data == e.data && p.md == e.content
  {
    var slug := OrElse(e.data.slug, SlugFromFilename(e.name));
    Post(e.data, slug, OrElse(e.data.date, ""), e.content, slug + ".html")
  }

  /** readPosts: no posts when content/posts does not exist (None), otherwise
      the Markdown entries as posts, newest first. */
  function ReadPosts(dir: Option<seq<Entry>>): seq<Post> {
    match dir
    case None => []
    case Some(es) => NewestFirst(Map(MakePost, MarkdownEntries(es)))
  }

  // ------------------------------------------------------- newest first

  /** Every post is at least as new, by date, as each post after it. */
  predicate NewestFirstOrdered(s: seq<Post>) {
    forall i, j :: 0 <= i < j < |s| ==> LexLe(s[j].date, s[i].date)
  }

  /** The posts of `s` dated `d`, in their order in `s`. Two sequences that
      agree on this for every date list each date's posts in the same order,
      which is what a stable sort keeps. */
  function WithDate(s: seq<Post>, d: string): (r: seq<Post>)
    ensures forall p :: p in r <==> p in s && p.date == d
  {
    if s == [] then []
    else (if s[0].date == d then [s[0]] else []) + WithDate(s[1..], d)
  }

  /** Inserts `p` behind the posts strictly newer than it. */
  function Insert(p: Post, s: seq<Post>): seq<Post> {
    if s == [] then [p]
    else if LexLess(p.date, s[0].date) then [s[0]] + Insert(p, s[1..])
    else [p] + s
  }

  /** posts.sort((a, b) => (b.fm.date || '').localeCompare(a.fm.date || '')),
      a stable sort by date, newest first (the date is never absent after
      readPosts, so the `|| ''` changes nothing). */
  function NewestFirst(s: seq<Post>): seq<Post> {
    if s == [] then [] else Insert(s[0], NewestFirst(s[1..]))
  }

  lemma {:induction false} InsertElements(p: Post, s: seq<Post>)
    ensures multiset(Insert(p, s)) == multiset{p} + multiset(s)
  {
    if s != [] && LexLess(p.date, s[0].date) {
      InsertElements(p, s[1..]);
      assert s == [s[0]] + s[1..];
    }
  }

  lemma {:induction false} InsertOrdered(p: Post, s: seq<Post>)
    requires NewestFirstOrdered(s)
    ensures NewestFirstOrdered(Insert(p, s))
  {
    if s == [] {
    } else if LexLess(p.date, s[0].date) {
      var t := Insert(p, s[1..]);
      InsertOrdered(p, s[1..]);
      InsertElements(p, s[1..]);
      forall j | 0 <= j < |t| ensures LexLe(t[j].date, s[0].date) {
        assert t[j] in multiset(t);
        if t[j] != p {
          assert t[j] in multiset(s[1..]);
          var k :| 0 <= k < |s[1..]| && s[1..][k] == t[j];
          assert s[k + 1] == t[j];
        }
      }
    } else {
      NotLessIsGreaterOrEqual(p.date, s[0].date);
      forall j | 0 < j < |s| ensures LexLe(s[j].date, p.date) {
        LexLeTransitive(s[j].date, s[0].date, p.date);
      }
    }
  }

  lemma WithDateCons(x: Post, t: seq<Post>, d: string)
    ensures WithDate([x] + t, d) == (if x.date == d then [x] else []) + WithDate(t, d)
  {
    assert ([x] + t)[1..] == t;
  }

  lemma {:induction false} InsertWithDate(p: Post, s: seq<Post>, d: string)
    ensures WithDate(Insert(p, s), d) == (if p.date == d then [p] else []) + WithDate(s, d)
  {
    if s != [] && LexLess(p.date, s[0].date) {
      LexLessIrreflexive(p.date);
      var r := Insert(p, s[1..]);
      assert Insert(p, s) == [s[0]] + r;
      InsertWithDate(p, s[1..], d);
      WithDateCons(s[0], r, d);
      assert s == [s[0]] + s[1..];
      WithDateCons(s[0], s[1..], d);
      if p.date == d {
        assert s[0].date != d;
        assert WithDate(Insert(p, s), d) == WithDate(r, d) == [p] + WithDate(s[1..], d);
        assert WithDate(s, d) == WithDate(s[1..], d);
      } else {
        assert WithDate(r, d) == WithDate(s[1..], d);
      }
    } else {
      WithDateCons(p, s, d);
    }
  }

  /** The sort puts every post in newest-first order. */
  lemma {:induction false} NewestFirstIsOrdered(s: seq<Post>)
    ensures NewestFirstOrdered(NewestFirst(s))
  {
    if s != [] {
      NewestFirstIsOrdered(s[1..]);
      InsertOrdered(s[0], NewestFirst(s[1..]));
    }
  }

  /** The sort neither drops nor duplicates a post. */
  lemma {:induction false} NewestFirstIsPermutation(s: seq<Post>)
    ensures multiset(NewestFirst(s)) == multiset(s)
  {
    if s != [] {
      NewestFirstIsPermutation(s[1..]);
      InsertElements(s[0], NewestFirst(s[1..]));
      assert s == [s[0]] + s[1..];
    }
  }

  /** Posts with the same date keep their input order. */
  lemma {:induction false} NewestFirstIsStable(s: seq<Post>, d: string)
    ensures WithDate(NewestFirst(s), d) == WithDate(s, d)
  {
    if s != [] {
      NewestFirstIsStable(s[1..], d);
      InsertWithDate(s[0], NewestFirst(s[1..]), d);
    }
  }

  lemma WithDateOfNonEmpty(s: seq<Post>)
    requires s != []
    ensures WithDate(s, s[0].date) == [s[0]] + WithDate(s[1..], s[0].date)
  {
  }

  /** Dropping the same first post keeps the per-date lists equal. */
  lemma WithDateTail(a: seq<Post>, b: seq<Post>, d: string)
    requires a != [] && b != [] && a[0] == b[0]
    requires WithDate(a, d) == WithDate(b, d)
    ensures WithDate(a[1..], d) == WithDate(b[1..], d)
  {
    var x := if a[0].date == d then [a[0]] else [];
    assert (x + WithDate(a[1..], d))[|x|..] == WithDate(a[1..], d);
    assert (x + WithDate(b[1..], d))[|x|..] == WithDate(b[1..], d);
  }

  /** Two newest-first sequences with the same per-date lists start alike. */
  lemma OrderedHeads(a: seq<Post>, b: seq<Post>)
    requires a != [] && b != []
    requires NewestFirstOrdered(a) && NewestFirstOrdered(b)
    requires forall d :: WithDate(a, d) == WithDate(b, d)
    ensures a[0] == b[0]
  {
    var d0, e0 := a[0].date, b[0].date;
    WithDateOfNonEmpty(a);
    WithDateOfNonEmpty(b);
    assert a[0] in WithDate(b, d0);
    assert b[0] in WithDate(a, e0);
    LexLeAntisymmetric(d0, e0);
  }

  /** Two newest-first sequences that list each date's posts in the same
      order are equal. */
  lemma {:induction false} OrderedUnique(a: seq<Post>, b: seq<Post>)
    requires NewestFirstOrdered(a) && NewestFirstOrdered(b)
    requires forall d :: WithDate(a, d) == WithDate(b, d)
    ensures a == b
  {
    if a == [] && b != [] {
      WithDateOfNonEmpty(b);
      assert false;
    } else if a != [] && b == [] {
      WithDateOfNonEmpty(a);
      assert false;
    } else if a != [] {
      OrderedHeads(a, b);
      forall d ensures WithDate(a[1..], d) == WithDate(b[1..], d) {
        WithDateTail(a, b, d);
      }
      OrderedUnique(a[1..], b[1..]);
      assert a == [a[0]] + a[1..] && b == [b[0]] + b[1..];
    }
  }

  /** Whatever stable sort the engine runs, its result is NewestFirst. */
  lemma StableSortIsNewestFirst(s: seq<Post>, r: seq<Post>)
    requires NewestFirstOrdered(r)
    requires forall d :: WithDate(r, d) == WithDate(s, d)
    ensures r == NewestFirst(s)
  {
    NewestFirstIsOrdered(s);
    forall d ensures WithDate(r, d) == WithDate(NewestFirst(s), d) {
      NewestFirstIsStable(s, d);
    }
    OrderedUnique(r, NewestFirst(s));
  }

  /** An undated post (date "") comes after every dated one. */
  lemma UndatedLast(s: seq<Post>, i: nat, j: nat)
    requires NewestFirstOrdered(s)
    requires i < j < |s| && s[i].date == ""
    ensures s[j].date == ""
  {
    assert LexLe(s[j].date, s[i].date);
  }

  /** readPosts yields one post per ".md" entry, newest first. */
  lemma ReadPostsProperties(es: seq<Entry>)
    ensures NewestFirstOrdered(ReadPosts(Some(es)))
    ensures multiset(ReadPosts(Some(es))) == multiset(Map(MakePost, MarkdownEntries(es)))
    ensures |ReadPosts(Some(es))| == |MarkdownEntries(es)|
  {
    var s := Map(MakePost, MarkdownEntries(es));
    NewestFirstIsOrdered(s);
    NewestFirstIsPermutation(s);
    assert |multiset(NewestFirst(s))| == |multiset(s)|;
  }

  // ----------------------------------------------------------- neighbours

  /** The index of post i's "previous" link: the next older post. */
  function PrevIndex(n: nat, i: nat): (r: Option<nat>)
    ensures r.Some? ==> r.value < n
  {
    if i + 1 < n then Some(i + 1) else None
  }

  /** The index of post i's "next" link: the next newer post. */
  function NextIndex(n: nat, i: nat): (r: Option<nat>)
    requires i < n
    ensures r.Some? ==> r.value < n
  {
    if i > 0 then Some(i - 1) else None
  }

  /** toNav */
  function ToNav(p: Post): NavLink {
    NavLink(p.slug + ".html", p.data.title)
  }

  function Prev(posts: seq<Post>, i: nat): Option<NavLink>
    requires i < |posts|
  {
    match PrevIndex(|posts|, i)
    case None => None
    case Some(j) => Some(ToNav(posts[j]))
  }

  function Next(posts: seq<Post>, i: nat): Option<NavLink>
    requires i < |posts|
  {
    match NextIndex(|posts|, i)
    case None => None
    case Some(j) => Some(ToNav(posts[j]))
  }

  /** p is i's previous post exactly when i is p's next post; the newest post
      has no next and the oldest no previous. */
  lemma NeighbourRule(n: nat, i: nat, p: nat)
    requires i < n && p < n
    ensures PrevIndex(n, i) == Some(p) <==> NextIndex(n, p) == Some(i)
    ensures NextIndex(n, 0) == None && PrevIndex(n, n - 1) == None
  {
  }

  /** Every post readPosts returns links to its own slug's page. */
  lemma ReadPostsHrefs(dir: Option<seq<Entry>>)
    ensures forall p :: p in ReadPosts(dir) ==> p.href == p.slug + ".html"
  {
    if dir.Some? {
      var s := Map(MakePost, MarkdownEntries(dir.value));
      ReadPostsProperties(dir.value);
      forall p | p in ReadPosts(dir) ensures p.href == p.slug + ".html" {
        assert p in multiset(ReadPosts(dir));
        assert p in multiset(s);
        var k :| 0 <= k < |s| && s[k] == p;
      }
    }
  }

  /** The navigation links of the posts readPosts returns: the previous link
      is the next older post's href and title, the next link the next newer
      post's, and each is absent at its end of the list. */
  lemma NeighbourLinks(dir: Option<seq<Entry>>, i: nat)
    requires i < |ReadPosts(dir)|
    ensures var posts := ReadPosts(dir);
      && (i + 1 < |posts| ==> Prev(posts, i) == Some(NavLink(posts[i + 1].href, posts[i + 1].data.title)))
      && (i + 1 == |posts| ==> Prev(posts, i) == None)
      && (i > 0 ==> Next(posts, i) == Some(NavLink(posts[i - 1].href, posts[i - 1].data.title)))
      && (i == 0 ==> Next(posts, i) == None)
  {
    ReadPostsHrefs(dir);
    LinksOfPosts(ReadPosts(dir), i);
  }

  /** The same for any posts whose hrefs are their slugs plus ".html". */
  lemma LinksOfPosts(posts: seq<Post>, i: nat)
    requires i < |posts|
    requires forall p :: p in posts ==> p.href == p.slug + ".html"
    ensures i + 1 < |posts| ==> Prev(posts, i) == Some(NavLink(posts[i + 1].href, posts[i + 1].data.title))
    ensures i + 1 == |posts| ==> Prev(posts, i) == None
    ensures i > 0 ==> Next(posts, i) == Some(NavLink(posts[i - 1].href, posts[i - 1].data.title))
    ensures i == 0 ==> Next(posts, i) == None
  {
    if i + 1 < |posts| { assert posts[i + 1] in posts; }
    if i > 0 { assert posts[i - 1] in posts; }
  }

  // ---------------------------------------------------- hero image class

  /** The substring tests of heroClassFromCategory in the order it makes them,
      each with its class. */
  const HeroRules: seq<(string, string)> := [
    ("AI", "ai-bg"), ("自动化", "automation-bg"), ("性能", "performance-bg"),
    ("安全", "security-bg"), ("API", "api-bg"), ("测试设计", "testing-bg")]

  /** The index of the first rule from `k` on whose text occurs in `c`. */
  function FirstRule(c: string, k: nat): (r: Option<nat>)
    requires k <= |HeroRules|
    ensures r.Some? ==> k <= r.value < |HeroRules| && Contains(c, HeroRules[r.value].0)
    ensures forall j :: k <= j < |HeroRules| && (r.None? || j < r.value) ==> !Contains(c, HeroRules[j].0)
    decreases |HeroRules| - k
  {
    if k == |HeroRules| then None
    else if Contains(c, HeroRules[k].0) then Some(k)
    else FirstRule(c, k + 1)
  }

  /** heroClassFromCategory: always one of the six classes. */
  function HeroClassFromCategory(cat: Option<string>): (r: string)
    ensures r in {"ai-bg", "automation-bg", "performance-bg", "security-bg", "api-bg", "testing-bg"}
  {
    if !Truthy(cat) then "ai-bg"
    else if Contains(cat.value, "AI") then "ai-bg"
    else if Contains(cat.value, "自动化") then "automation-bg"
    else if Contains(cat.value, "性能") then "performance-bg"
    else if Contains(cat.value, "安全") then "security-bg"
    else if Contains(cat.value, "API") then "api-bg"
    else if Contains(cat.value, "测试设计") then "testing-bg"
    else "ai-bg"
  }

  lemma NothingInEmpty(q: string)
    requires q != ""
    ensures !Contains("", q)
  {
  }

  /** The class is that of the first rule whose text occurs in the category,
      and "ai-bg" for an absent, empty or unmatched category. */
  lemma HeroClassIsFirstMatch(cat: Option<string>)
    ensures match FirstRule(Text(cat), 0)
      case Some(k) => HeroClassFromCategory(cat) == HeroRules[k].1
      case None => HeroClassFromCategory(cat) == "ai-bg"
  {
    var c := Text(cat);
    if !Truthy(cat) {
      forall j | 0 <= j < |HeroRules| ensures !Contains(c, HeroRules[j].0) {
        NothingInEmpty(HeroRules[j].0);
      }
    }
    assert FirstRule(c, 6) == None;
    assert FirstRule(c, 5) == if Contains(c, "测试设计") then Some(5) else None;
    assert FirstRule(c, 4) == if Contains(c, "API") then Some(4) else FirstRule(c, 5);
    assert FirstRule(c, 3) == if Contains(c, "安全") then Some(3) else FirstRule(c, 4);
    assert FirstRule(c, 2) == if Contains(c, "性能") then Some(2) else FirstRule(c, 3);
    assert FirstRule(c, 1) == if Contains(c, "自动化") then Some(1) else FirstRule(c, 2);
  }
}
