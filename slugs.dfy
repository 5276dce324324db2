/** slugFromFilename (tools/build.mjs:39-48): a post's URL stem derived from
    its file name when the front matter gives no slug. */
module Slugs {
  import opened Strings

  predicate IsDigit(c: char) {
    '0' <= c <= '9'
  }

  /** The characters /[^a-z0-9\-]/ keeps. */
  predicate IsSlugChar(c: char) {
    ('a' <= c <= 'z') || IsDigit(c) || c == '-'
  }

  predicate AllSlugChars(s: string) {
    forall i :: 0 <= i < |s| ==> IsSlugChar(s[i])
  }

  /** path.basename(fp, '.md') of a file in the posts directory: the entry
      name without its ".md" extension, unless the extension is the whole name. */
  function Basename(name: string): string {
    if EndsWith(name, ".md") && name != ".md" then name[..|name| - 3] else name
  }

  /** `base` matches /^\d{4}-\d{2}-\d{2}-(.+)$/: a date prefix followed by at
      least one character, none of them a line terminator. */
  predicate HasDatePrefix(base: string) {
    && |base| > 11
    && IsDigit(base[0]) && IsDigit(base[1]) && IsDigit(base[2]) && IsDigit(base[3])
    && base[4] == '-' && IsDigit(base[5]) && IsDigit(base[6])
    && base[7] == '-' && IsDigit(base[8]) && IsDigit(base[9])
    && base[10] == '-'
    && forall i :: 11 <= i < |base| ==> !IsLineTerminator(base[i])
  }

  /** `m ? m[1] : base` */
  function Stem(base: string): string {
    if HasDatePrefix(base) then base[11..] else base
  }

  function LowerChar(c: char): char {
    if 'A' <= c <= 'Z' then (c as int + 32) as char else c
  }

  /** toLowerCase, on ASCII letters. */
  function LowerAscii(s: string): (r: string)
    ensures |r| == |s|
    ensures forall i :: 0 <= i < |s| ==> r[i] == LowerChar(s[i])
  {
    if s == [] then [] else [LowerChar(s[0])] + LowerAscii(s[1..])
  }

  /** replace(/\s+/g, '-'): every maximal run of whitespace becomes one hyphen. */
  function CollapseSpaces(s: string): string
    decreases |s|
  {
    if s == [] then []
    else if IsSpace(s[0]) then "-" + CollapseSpaces(TrimStart(s))
    else [s[0]] + CollapseSpaces(s[1..])
  }

  /** replace(/[^a-z0-9\-]/g, '') */
  function KeepSlugChars(s: string): (r: string)
    ensures AllSlugChars(r)
    ensures |r| <= |s|
  {
    if s == [] then []
    else (if IsSlugChar(s[0]) then [s[0]] else []) + KeepSlugChars(s[1..])
  }

  /** The normalisation chain applied to the stem: trim, lower-case,
      whitespace runs to hyphens, drop everything outside [a-z0-9-]. */
  function Normalize(s: string): (r: string)
    ensures AllSlugChars(r)
  {
    KeepSlugChars(CollapseSpaces(LowerAscii(Trim(s))))
  }

  /** A derived slug only ever holds a-z, 0-9 and '-'. */
  function SlugFromFilename(name: string): (r: string)
    ensures AllSlugChars(r)
    ensures HasDatePrefix(Basename(name)) ==> r == Normalize(Basename(name)[11..])
    ensures !HasDatePrefix(Basename(name)) ==> r == Normalize(Basename(name))
  {
    Normalize(Stem(Basename(name)))
  }

  /** A leading YYYY-MM-DD- is dropped before normalising. */
  lemma SlugDropsDatePrefix(date: string, rest: string)
    requires |date| == 11 && HasDatePrefix(date + "x")
    requires rest != [] && forall i :: 0 <= i < |rest| ==> !IsLineTerminator(rest[i])
    ensures SlugFromFilename(date + rest + ".md") == Normalize(rest)
  {
    var name := date + rest + ".md";
    assert name[|name| - 3..] == ".md";
    assert Basename(name) == date + rest;
    var base := date + rest;
    forall i | 11 <= i < |base| ensures !IsLineTerminator(base[i]) {
      assert base[i] == rest[i - 11];
    }
    assert base[11..] == rest;
  }

  lemma {:induction false} TrimStartNoSpace(s: string)
    requires forall i :: 0 <= i < |s| ==> !IsSpace(s[i])
    ensures TrimStart(s) == s
  {
  }

  lemma {:induction false} TrimEndNoSpace(s: string)
    requires forall i :: 0 <= i < |s| ==> !IsSpace(s[i])
    ensures TrimEnd(s) == s
  {
  }

  lemma {:induction false} LowerSlugChars(s: string)
    requires AllSlugChars(s)
    ensures LowerAscii(s) == s
  {
  }

  lemma {:induction false} CollapseNoSpace(s: string)
    requires forall i :: 0 <= i < |s| ==> !IsSpace(s[i])
    ensures CollapseSpaces(s) == s
  {
    if s != [] { CollapseNoSpace(s[1..]); }
  }

  lemma {:induction false} KeepSlugCharsIdentity(s: string)
    requires AllSlugChars(s)
    ensures KeepSlugChars(s) == s
  {
    if s != [] { KeepSlugCharsIdentity(s[1..]); }
  }

  /** A slug-shaped file name without a date prefix derives to itself. */
  lemma SlugFixpoint(s: string)
    requires s != [] && AllSlugChars(s) && !HasDatePrefix(s)
    ensures SlugFromFilename(s + ".md") == s
  {
    var name := s + ".md";
    assert name[|name| - 3..] == ".md" && name[..|name| - 3] == s;
    assert forall i :: 0 <= i < |s| ==> !IsSpace(s[i]);
    TrimStartNoSpace(s);
    TrimEndNoSpace(s);
    LowerSlugChars(s);
    CollapseNoSpace(s);
    KeepSlugCharsIdentity(s);
  }

  predicate IsAsciiAlnum(c: char) {
    ('a' <= c <= 'z') || ('A' <= c <= 'Z') || IsDigit(c)
  }

  lemma {:induction false} CollapsePlainPrefix(x: string, t: string)
    requires forall i :: 0 <= i < |x| ==> !IsSpace(x[i])
    ensures CollapseSpaces(x + t) == x + CollapseSpaces(t)
  {
    if x != [] {
      assert (x + t)[0] == x[0] && (x + t)[1..] == x[1..] + t;
      CollapsePlainPrefix(x[1..], t);
    } else {
      assert x + t == t;
    }
  }

  lemma {:induction false} LowerAsciiConcat(x: string, y: string)
    ensures LowerAscii(x + y) == LowerAscii(x) + LowerAscii(y)
  {
    if x == [] {
      assert x + y == y;
    } else {
      assert (x + y)[0] == x[0] && (x + y)[1..] == x[1..] + y;
      LowerAsciiConcat(x[1..], y);
    }
  }

  lemma LowerAsciiSingle(c: char)
    ensures LowerAscii([c]) == [LowerChar(c)]
  {
  }

  lemma AllSlugCharsConcat(x: string, y: string, z: string)
    requires AllSlugChars(x) && AllSlugChars(y) && AllSlugChars(z)
    ensures AllSlugChars(x + y + z)
  {
    forall i | 0 <= i < |x + y + z| ensures IsSlugChar((x + y + z)[i]) {
      if i < |x| { assert (x + y + z)[i] == x[i]; }
      else if i < |x| + |y| { assert (x + y + z)[i] == y[i - |x|]; }
      else { assert (x + y + z)[i] == z[i - |x| - |y|]; }
    }
  }

  lemma LowerAlnum(c: char)
    requires IsAsciiAlnum(c)
    ensures IsSlugChar(LowerChar(c)) && !IsSpace(LowerChar(c))
  {
  }

  lemma LowerWord(w: string)
    requires forall i :: 0 <= i < |w| ==> IsAsciiAlnum(w[i])
    ensures AllSlugChars(LowerAscii(w))
    ensures forall i :: 0 <= i < |LowerAscii(w)| ==> !IsSpace(LowerAscii(w)[i])
  {
    forall i | 0 <= i < |w| ensures IsSlugChar(LowerAscii(w)[i]) && !IsSpace(LowerAscii(w)[i]) {
      LowerAlnum(w[i]);
    }
  }

  lemma ExampleTrim(s: string)
    requires s == "My Post"
    ensures Trim(s) == s
  {
    assert !IsSpace(s[0]) && !IsSpace(s[6]);
  }

  lemma ExampleLower(s: string)
    requires s == "My Post"
    ensures LowerAscii(s) == "my post"
  {
    var r := LowerAscii(s);
    assert r[0] == 'm' && r[1] == 'y' && r[2] == ' ' && r[3] == 'p';
    assert r[4] == 'o' && r[5] == 's' && r[6] == 't';
  }

  /** Two space-free words joined by one space collapse to a hyphenated pair. */
  lemma CollapseOneSpace(x: string, y: string)
    requires forall i :: 0 <= i < |x| ==> !IsSpace(x[i])
    requires forall i :: 0 <= i < |y| ==> !IsSpace(y[i])
    ensures CollapseSpaces(x + " " + y) == x + "-" + y
  {
    assert x + " " + y == x + (" " + y);
    CollapsePlainPrefix(x, " " + y);
    CollapseLeadingSpace(y);
  }

  lemma CollapseLeadingSpace(y: string)
    requires forall i :: 0 <= i < |y| ==> !IsSpace(y[i])
    ensures CollapseSpaces(" " + y) == "-" + y
  {
    var s := " " + y;
    assert s[1..] == y;
    assert TrimStart(s) == TrimStart(y);
    TrimStartNoSpace(y);
    CollapseNoSpace(y);
  }


  lemma ExampleWords(x: string, y: string)
    requires x == "my" && y == "post"
    ensures forall i :: 0 <= i < |x| ==> !IsSpace(x[i])
    ensures forall i :: 0 <= i < |y| ==> !IsSpace(y[i])
    ensures x + " " + y == "my post" && x + "-" + y == "my-post"
  {
  }

  lemma ExampleKeep(s: string)
    requires s == "my-post"
    ensures KeepSlugChars(s) == s
  {
    KeepSlugCharsIdentity(s);
  }

  lemma ExampleName(name: string, date: string, rest: string)
    requires name == "2024-01-02-My Post.md" && date == "2024-01-02-" && rest == "My Post"
    ensures name == date + rest + ".md"
    ensures |date| == 11 && HasDatePrefix(date + "x")
    ensures rest != [] && forall i :: 0 <= i < |rest| ==> !IsLineTerminator(rest[i])
  {
  }

  /** "2024-01-02-My Post.md" becomes "my-post". */
  lemma SlugExample(name: string)
    requires name == "2024-01-02-My Post.md"
    ensures SlugFromFilename(name) == "my-post"
  {
    var date, rest := "2024-01-02-", "My Post";
    ExampleName(name, date, rest);
    SlugDropsDatePrefix(date, rest);
    ExampleTrim(rest);
    ExampleLower(rest);
    ExampleWords("my", "post");
    CollapseOneSpace("my", "post");
    ExampleKeep("my-post");
  }

  /** A file named exactly ".md" keeps its extension in the base name. */
  lemma SlugOfBareExtension(name: string)
    requires name == ".md"
    ensures SlugFromFilename(name) == "md"
  {
    assert Basename(name) == ".md";
    assert !HasDatePrefix(name);
    assert forall i :: 0 <= i < |name| ==> !IsSpace(name[i]);
    TrimStartNoSpace(name);
    TrimEndNoSpace(name);
    assert LowerAscii(name) == name;
    CollapseNoSpace(name);
    assert KeepSlugChars(name) == [] + KeepSlugChars(name[1..]);
    KeepSlugCharsIdentity(name[1..]);
  }
}
