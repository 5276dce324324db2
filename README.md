# Static site build of 壹零壹玖, modelled in Dafny

The site is a blog. A Node script, `tools/build.mjs`, turns the Markdown posts
under `content/posts` into HTML pages under `articles/`, and it patches the
latest-articles grid of the home page and the list in `articles/index.html`.
The page texts come from the template functions in `tools/templates.mjs`.

This project models the string logic of that build and its templates, and
proves what they promise:

- `Strings`: JavaScript's string operations as the build uses them. This covers
  the whitespace set shared by `trim` and `\s`, first-occurrence `indexOf`,
  `replace` with a string pattern, `split(/\r?\n/)`, `join`, `||` on optional
  values and `localeCompare` as code-point lexical order.
- `Html`: `escapeHtml`, as the chain of five `replaceAll` passes, with
  the proof that it equals a per-character entity table.
- `Slugs`: `slugFromFilename`.
- `Posts`: what `readPosts` makes of each file (slug, href and date
  defaults), the newest-first order, the previous/next neighbour rule, `toNav`
  and `heroClassFromCategory`.
- `Markers`: `replaceBetween`, the marker splice used for the home page and
  the articles index.
- `References`: `stripReferencesSection` and `buildReferencesFromMarkdown`.
  Both are modelled as loop methods proved against specification functions.
- `Templates`: `layoutHtml`, `articleHtml`, `articlesIndexHtml` and
  `homepageCardsHtml`, as plain string concatenation.
- `Build`: `buildOnce`. It is a method whose loop writes one page per post
  into a map from file name to text, then patches the index and the home page.

The Markdown renderer (`marked`) is a function parameter. The front matter
parser (`gray-matter`) is replaced by a record of optional strings in each
directory entry. A directory or file that does not exist is `None`.

escapeHtml is defined twice in the source, identically
(`tools/templates.mjs:197-204` and `tools/build.mjs:193-200`), and is modelled
once.

## Model

| member | source | states |
|---|---|---|
| Html.Escape | tools/templates.mjs:197-204 | escapeHtml as written: the five `replaceAll` passes in source order, `&` first; its properties are the lemmas below |
| Html.EscapeText | tools/templates.mjs:197-198 | with `s ?? ''` (Strings.Text), a missing value escapes to the empty string and a present one to its escape |
| Html.EscapeChar | tools/templates.mjs:199-203 | each of `& < > " '` becomes an entity starting with `&`; any other character is kept; no entity holds `< > " '` |
| Html.EntityPassesLater | tools/templates.mjs:199-203 | an entity written by one pass is left alone by every later pass |
| Html.EscapeIsPerChar | tools/templates.mjs:197-204 | because `&` is replaced first, the five passes equal replacing each character by its entity |
| Html.EscapeSingle | tools/templates.mjs:199-203 | one character goes through the five passes to exactly its entity |
| Html.EscapeNoMarkup | tools/templates.mjs:197-204 | the output never contains `<`, `>`, `"` or `'` |
| Html.EscapeConcat | tools/templates.mjs:197-204 | escaping distributes over concatenation |
| Html.EscapeIdentityIff | tools/templates.mjs:197-204 | the output equals the input exactly when the input has none of the five special characters |
| Html.EscapePlain | tools/templates.mjs:197-204 | text without special characters is unchanged |
| Html.EscapeSpecLength | tools/templates.mjs:197-204 | the per-character escape, which equals escapeHtml, never shortens and lengthens whenever a special character occurs |
| Html.UnescapeEscape | tools/templates.mjs:197-204 | decoding the five entities gives back the original text |
| Html.EscapeInjective | tools/templates.mjs:197-204 | two different texts never escape to the same output |
| Html.EscapeNotIdempotent | tools/templates.mjs:199 | `"&"` escapes to `"&amp;"` and again to `"&amp;amp;"`, so escaping twice differs from escaping once |
| Html.EscapeAmpAgain | tools/templates.mjs:199 | an escaped entity is escaped again on a second pass: `"&amp;"` escapes to `"&amp;amp;"` |
| Html.EscapeKeepsFragment | tools/templates.mjs:197-204 | a fragment of the input appears, escaped, in the output |
| Html.EscapeTag | tools/templates.mjs:200-201 | a tag `<name>` becomes `&lt;name&gt;` |
| Html.MarkupOfEscape | tools/templates.mjs:197-204 | escaped text contributes no markup character at all |
| Slugs.LowerAscii | tools/build.mjs:45 | lowercasing keeps the length and lowers each character on its own |
| Slugs.Basename | tools/build.mjs:40 | path.basename(fp, '.md') of an entry name: the name without a trailing `.md`, unless `.md` is the whole name |
| Slugs.Normalize | tools/build.mjs:44-47 | trim, lower-case, whitespace runs to `-`, then drop the rest; the result holds only `a-z`, `0-9` and `-` |
| Slugs.KeepSlugChars | tools/build.mjs:47 | the result holds only `a-z`, `0-9` and `-` and is no longer than the input |
| Slugs.SlugFromFilename | tools/build.mjs:39-48 | the slug holds only `a-z`, `0-9` and `-`; a `YYYY-MM-DD-` prefix of the base name is dropped before normalising, otherwise the whole base name is normalised |
| Slugs.SlugDropsDatePrefix | tools/build.mjs:42-43 | a dated file name's slug is the normalised rest of its name |
| Slugs.SlugFixpoint | tools/build.mjs:39-48 | a name that is already a slug, with no date prefix, is its own slug |
| Slugs.SlugExample | tools/build.mjs:39-48 | `"2024-01-02-My Post.md"` gives `"my-post"` |
| Slugs.SlugOfBareExtension | tools/build.mjs:40 | a file named just `".md"` keeps its extension in the base name and gives slug `"md"` |
| Posts.MarkdownEntries | tools/build.mjs:17-18 | exactly the directory entries whose name ends in `.md` are kept |
| Posts.MarkdownEntriesConcat | tools/build.mjs:17-18 | the filter keeps directory order: filtering a concatenation concatenates the filtered parts |
| Posts.MarkdownEntriesSingle | tools/build.mjs:18 | one entry is kept exactly when its name ends in `.md`; with MarkdownEntriesConcat this fixes the result as the in-order subsequence of `.md` entries |
| Posts.MakePost | tools/build.mjs:21-33 | an explicit truthy slug is used verbatim, otherwise the derived slug (only slug characters); href is slug plus `.html`; a missing or empty date becomes `""`; front matter and body are kept |
| Posts.ReadPosts | tools/build.mjs:15-37 | readPosts: no posts when the directory does not exist, otherwise the `.md` entries made into posts and sorted by NewestFirst; its properties are ReadPostsProperties and ReadPostsHrefs |
| Posts.NewestFirst | tools/build.mjs:35 | the stable newest-first sort, inserting each post behind those strictly newer; its properties are the NewestFirst lemmas below |
| Posts.NewestFirstIsOrdered | tools/build.mjs:35 | after sorting, every post's date is at least that of any later post |
| Posts.NewestFirstIsPermutation | tools/build.mjs:35 | sorting neither loses nor adds a post |
| Posts.NewestFirstIsStable | tools/build.mjs:35 | posts with the same date keep their input order |
| Posts.StableSortIsNewestFirst | tools/build.mjs:35 | any ordered, stable rearrangement of the posts is the model's order, so the stable engine sort gives this result |
| Posts.UndatedLast | tools/build.mjs:35 | in newest-first order every post after an undated one is undated too, so undated posts come last |
| Posts.ReadPostsProperties | tools/build.mjs:15-37 | readPosts returns a sorted permutation of the Markdown entries' posts |
| Posts.ReadPostsHrefs | tools/build.mjs:24-25 | every post readPosts returns has href equal to its slug plus `.html` |
| Posts.ToNav | tools/build.mjs:118-120 | toNav: the link to a post is its slug plus `.html` with its title |
| Posts.Prev | tools/build.mjs:60 | the previous link of post i is toNav of post i+1, absent for the last post |
| Posts.Next | tools/build.mjs:61 | the next link of post i is toNav of post i-1, absent for the first post |
| Posts.NeighbourRule | tools/build.mjs:60-61 | post p is post i's previous exactly when i is p's next; the newest has no next and the oldest no previous |
| Posts.NeighbourLinks | tools/build.mjs:56-61 | for the posts readPosts returns, the previous link of post i is post i+1's href and title, the next link post i-1's, and they are absent at the ends |
| Posts.LinksOfPosts | tools/build.mjs:60-61 | for any posts whose hrefs are their slugs plus `.html`, the same neighbour links as NeighbourLinks |
| Posts.HeroClassFromCategory | tools/build.mjs:131-140 | the class is always one of the six |
| Posts.HeroClassIsFirstMatch | tools/build.mjs:131-140 | the class is that of the first of AI, 自动化, 性能, 安全, API, 测试设计 the category contains, and `ai-bg` for an empty or unmatched category |
| Markers.ReplaceBetween | tools/build.mjs:122-129 | replaceBetween: the text unchanged when a marker is missing or the end marker comes first, otherwise the splice; its cases are the lemmas below |
| Markers.IndexOfIsFirst | tools/build.mjs:123-124 | indexOf returns the first position of the marker |
| Markers.MissingMarker | tools/build.mjs:125 | a missing marker leaves the text unchanged |
| Markers.MarkersOutOfOrder | tools/build.mjs:125 | an end marker first found before the start marker leaves the text unchanged |
| Markers.MarkersInOrder | tools/build.mjs:126-128 | otherwise the result is the text up to the end of the start marker, the replacement, then the text from the end marker on |
| Markers.PatchedContainsReplacement | tools/build.mjs:126-128 | the patched text contains the replacement |
| Markers.ReplaceBetweenIdempotent | tools/build.mjs:122-129 | patching again with the same replacement changes nothing, provided no end marker begins before the one after the replacement |
| References.IsReferencesHeading | tools/build.mjs:146 | the heading test on the trimmed line: `##`, at least one blank, then 参考链接 or 参考文献, and only blanks after it |
| References.FindHeading | tools/build.mjs:176 | the index found is the first line that is a references heading |
| References.SectionEnd | tools/build.mjs:184 | the section ends within the text, at a line whose trimmed text starts with `"## "` or at the end of the text |
| References.SectionEndIsFirst | tools/build.mjs:184 | no line before the section end starts a new `"## "` section, so the end is the first such line |
| References.SectionStep | tools/build.mjs:151 | within the section span, a line starts a new `"## "` section exactly at the section end |
| References.SkipSection | tools/build.mjs:183-185 | the inner skip loop stops at the section end |
| References.KeepOutsideSection | tools/build.mjs:179-189 | the kept lines are those before the heading and those from the section end on, in order |
| References.StripSpec | tools/build.mjs:174-191 | the closed form of stripReferencesSection: the input without a heading, else the lines outside the heading's section joined by line feeds, trimmed, plus one line feed |
| References.StripReferencesSection | tools/build.mjs:174-191 | the method returns the specification: the unchanged input without a heading, else the kept lines joined, trimmed, with one line feed |
| References.StripWithoutHeading | tools/build.mjs:177 | without a references heading the Markdown is returned unchanged |
| References.StripEndsInOneLineFeed | tools/build.mjs:190 | with a heading the result ends in exactly one line feed and has no other trailing blank |
| References.BulletText | tools/build.mjs:152 | a bullet's text is non-empty, starts with a non-blank and has no line terminator |
| References.UrlFrom | tools/build.mjs:157 | the first `<…>` with a non-empty body free of `>` is found, and none starts earlier |
| References.CollectBullets | tools/build.mjs:148-154 | the collected items are the bullets of the lines between the heading and the section end, in order |
| References.BuildReferencesFromMarkdown | tools/build.mjs:142-172 | the method returns the specification: no card without a heading or without bullets, else one item per bullet |
| References.NoHeadingNoCard | tools/build.mjs:146-147 | without a references heading there is no card |
| References.CardBulletsAreStripped | tools/build.mjs:149-151 | every item of the card comes from a line strictly inside the span that stripReferencesSection removes |
| References.DropColon | tools/build.mjs:160 | `replace(/[:：]?\s*$/, '')`: trailing blanks, then one ASCII or full-width colon, are removed |
| References.ItemHtml | tools/build.mjs:156-163 | one list item: with a `<url>`, the escaped label and the escaped link; without one, the escaped bullet text; LinkedBullet and PlainBullet state both cases |
| References.ReferencesCard | tools/build.mjs:166-171 | the fixed card markup around the joined list items |
| References.ReferencesSpec | tools/build.mjs:142-172 | what buildReferencesFromMarkdown returns: `""` without a heading or without bullets, otherwise the card of one item per bullet |
| References.OneItemPerBullet | tools/build.mjs:155-164 | the card holds one `<li>` per bullet, in order |
| References.UrlRemovedInPlace | tools/build.mjs:160 | removing the first occurrence of the `<url>` text removes it where it was found |
| References.UrlShape | tools/build.mjs:157 | the url is non-empty and holds no `>` |
| References.LinkedBullet | tools/build.mjs:158-161 | a bullet with a url gets an escaped label, the trimmed rest without one trailing colon or the url when empty, and an escaped link |
| References.PlainBullet | tools/build.mjs:163 | a bullet without a url becomes its escaped text |
| References.PlainItemMarkup | tools/build.mjs:163 | the markup of a plain item is just that of its `<li>` tags |
| References.LinkedItemMarkup | tools/build.mjs:161 | the markup of a linked item is just that of its fixed parts: bullet text and url add none |
| Templates.LayoutHtml | tools/templates.mjs:1-62 | layoutHtml: the page shell with the escaped title, extraHead, extraCss, content and extraScript in their places; LayoutParts states this |
| Templates.LayoutParts | tools/templates.mjs:1-62 | the page title is escaped; content, extraHead, extraCss and extraScript appear verbatim |
| Templates.ArticleHtml | tools/templates.mjs:64-117 | articleHtml: the content block (header, hero, body, references, navigation) inside the layout with the hero CSS and the table-of-contents script; the Article lemmas below state its parts |
| Templates.ArticleTitleTag | tools/templates.mjs:111-116 | an article's page title is its escaped title |
| Templates.HeroExactlyForClawdbot | tools/templates.mjs:65-67 | the hero block is added exactly when heroStyle is `clawdbot-hero`; otherwise the page is as without a hero |
| Templates.PrevSlot | tools/templates.mjs:71 | a previous neighbour gives a link with its href verbatim and its title escaped, in place of `<span></span>` |
| Templates.NextSlot | tools/templates.mjs:72 | a next neighbour gives a link with its href verbatim and its title escaped, in place of `<span></span>` |
| Templates.ArticleH1Escaped | tools/templates.mjs:86 | the `<h1>` holds the escaped title |
| Templates.ArticleCategoryEscaped | tools/templates.mjs:88 | the category span holds the escaped category, or `文章` |
| Templates.ArticleCategoryDefault | tools/templates.mjs:88 | a missing or empty category shows `文章` |
| Templates.ArticleDateEscaped | tools/templates.mjs:89 | the date span holds the escaped date, or nothing |
| Templates.ReadTimeOnlyWhenTruthy | tools/templates.mjs:90 | the read-time span is added exactly when readTime is truthy, with the escaped value |
| Templates.DescriptionOnlyWhenTruthy | tools/templates.mjs:92 | the excerpt paragraph is added exactly when description is truthy, with the escaped value |
| Templates.BodyVerbatim | tools/templates.mjs:97 | the rendered body HTML appears verbatim |
| Templates.ReferencesOnlyWhenTruthy | tools/templates.mjs:99 | referencesHtml is inserted verbatim exactly when it is truthy |
| Templates.IndexItemHtml | tools/templates.mjs:120-131 | one entry of articlesIndexHtml; IndexItemFields states its fields |
| Templates.ArticlesIndexHtml | tools/templates.mjs:119-135 | the entries of all items, in order, joined by line feeds; ArticlesIndexSnoc states the join |
| Templates.IndexItemFields | tools/templates.mjs:120-131 | an index entry holds the escaped category (twice), date, title, description and href, with category defaulting to `文章` |
| Templates.IndexCategoryDefault | tools/templates.mjs:121-123 | a missing category shows `文章` |
| Templates.IndexItemIsArticle | tools/templates.mjs:120-121 | each entry starts with its `<article class="article-item"` tag |
| Templates.ArticlesIndexSnoc | tools/templates.mjs:119-135 | one more item adds a line feed and exactly its entry at the end |
| Templates.CardHtml | tools/templates.mjs:138-154 | one card of homepageCardsHtml; CardFields states its fields |
| Templates.HomepageCardsHtml | tools/templates.mjs:137-155 | the cards of all items, in order, joined by line feeds; HomepageCardsSnoc states the join |
| Templates.CardFields | tools/templates.mjs:138-154 | a card holds the escaped href, hero class, category, title, description, date and read time |
| Templates.CardHeroClassDefault | tools/templates.mjs:142 | a missing hero class shows `ai-bg` |
| Templates.CardReadTimeDefault | tools/templates.mjs:150 | a missing read time gives an empty span |
| Templates.CardIsArticle | tools/templates.mjs:138-139 | each card starts with its `<article class="article-card">` tag |
| Templates.HomepageCardsSnoc | tools/templates.mjs:137-155 | one more item adds a line feed and exactly its card at the end |
| Build.Page | tools/build.mjs:59-76 | the page of post i: articleHtml of its front matter with the references card, its Markdown without the references section rendered, and its neighbours' links; PageAt and RenderPage use it |
| Build.Pages | tools/build.mjs:59-78 | one page text per post |
| Build.PageAt | tools/build.mjs:60-76 | post i's page renders its Markdown without the references section, its references card and its neighbours' links |
| Build.Writes | tools/build.mjs:77 | post i is written to its slug plus `.html`, in loop order |
| Build.ApplyKeys | tools/build.mjs:77 | writing files adds exactly the names written to |
| Build.ApplyUntouched | tools/build.mjs:77 | a file nothing is written to keeps its text |
| Build.ApplyLastWins | tools/build.mjs:77 | a file holds the text of the last write to it |
| Build.WrittenKeys | tools/build.mjs:59-78 | the article files after the loop are the old ones plus one per post's file name |
| Build.LastWriteWins | tools/build.mjs:59-78 | when posts share a slug, their file holds the page of the last of them in sorted order |
| Build.UntouchedFile | tools/build.mjs:59-78 | a file no post is written to keeps its old text |
| Build.EveryPageWritten | tools/build.mjs:59-78 | with distinct slugs, each post's file holds its own page |
| Build.NavLinksResolve | tools/build.mjs:60-61 | a previous or next link exists exactly away from the ends, and points at the neighbour's file, which the build writes |
| Build.Card | tools/build.mjs:84-92 | the card of a post: `articles/` plus its file name, its title, and description, date, read time and category with their defaults and the hero class |
| Build.PatchHome | tools/build.mjs:94-95 | the home page with the grid between its markers replaced by a line feed, the cards and a line feed |
| Build.LatestCards | tools/build.mjs:84-92 | the home page gets cards for the first min(3, n) posts, in order, each linking to `articles/` plus its file name |
| Build.HomeShowsCards | tools/build.mjs:94-95 | with the grid markers in order, the patched home page holds the cards |
| Build.ListItem | tools/build.mjs:103-109 | the index entry of a post: its file name, its title, and description, date and category with their defaults |
| Build.PatchIndex | tools/build.mjs:110-111 | the articles index with the list between its markers replaced by a line feed, the entries and a line feed |
| Build.IndexListsEveryPost | tools/build.mjs:103-109 | the index gets one entry per post, in order, each linking to its page's file, which the build writes |
| Build.PatchKeepsOthers | tools/build.mjs:100-112 | patching the articles index leaves every other file as it is |
| Build.BuiltHome | tools/build.mjs:81-97 | the home page is patched exactly when it exists |
| Build.RenderPage | tools/build.mjs:60-76 | the loop body renders the post's page |
| Build.WritePage | tools/build.mjs:59-78 | one loop step writes one more page |
| Build.WritePages | tools/build.mjs:59-78 | the loop's files are the pages written in order over the old files |
| Build.BuildSite | tools/build.mjs:59-112 | pages written, articles index patched, home page patched |
| Build.BuildOnce | tools/build.mjs:54-116 | buildOnce reads the posts, writes their pages and patches both shells |
| Build.BuildKeepsOtherFiles | tools/build.mjs:54-116 | article files other than the index that no post is written to are left as they were |
| Build.BuildWritesPages | tools/build.mjs:54-116 | the last post written to a file other than the index leaves its page there |

## Left out

- File system access is left out: `existsSync`, `readdirSync`, `readFileSync`, `writeFileSync` and `mkdirSync`. Directory contents are inputs and written files are map updates. The watch mode (`fs.watch`, `process.argv`) and the `console.log` report are left out too.
- Build: file names are flat keys of a map. Path normalisation and write failures are not modelled, so the model assumes that slugs contain no `/` and no `..`. In the source, an explicit slug such as `../index` is joined onto the articles directory, so the loop overwrites the home page, and the home patch then reads that page back. The model instead files it under the key `../index.html` and patches the original home page. A slug such as `a/b` whose subdirectory does not exist makes `writeFileSync` throw, and the build stops before either shell is patched; Build.BuildOnce always completes.
- `gray-matter` is an external library. Each directory entry carries the front matter fields as optional strings and the body after the front matter. Non-string front matter values, such as dates that YAML parses to Date objects, are not modelled.
- `marked` is an external library. It is a function parameter `render`.
- `localeCompare` depends on the locale. It is modelled as code-point lexical order, which agrees with the locale order for ISO dates made of digits and hyphens.
- Array.prototype.sort is the engine's own stable sort, done in place. The model sorts with a stable insertion sort on values. Posts.StableSortIsNewestFirst shows that every stable, ordered sort yields the same sequence, so the engine's algorithm does not matter.
- Slugs.LowerAscii: toLowerCase is modelled on ASCII letters only. Because later only `a-z0-9-` survive, the result differs only for non-ASCII capitals that lowercase to ASCII letters (U+0130, U+212A).
- The fixed CSS, script, analytics and navigation texts are modelled as opaque strings. They come in through the Templates.Chrome record, and Templates.SiteChrome holds the site's values. The Build lemmas take the chrome as a parameter, which leaves them independent of those texts.
- Templates: the lemmas state where escaped and verbatim values appear in a page. They do not state that the rest of the page's markup is independent of the values.
- References.KeepOutsideSection: the model keeps the source's single loop with its skip, but it jumps straight to the section break. The source steps back one line (`i--`) so that its loop increment lands on that line, and the model's `continue` lands there directly.
- References.CardBulletsAreStripped relates the card's items to the span that stripReferencesSection removes; it does not restate the removed lines themselves, which StripReferencesSection's own contract already fixes.
- script.js is not part of this model. It is browser-side DOM wiring, animation and theme storage.
