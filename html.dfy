/** escapeHtml, defined identically in tools/templates.mjs and tools/build.mjs:
    five replaceAll passes, ampersand first.  Its reference definition is the
    per-character entity table; a decoder shows it is injective. */
module Html {
  import opened Strings

  /** The five characters escapeHtml rewrites. */
  predicate IsSpecial(c: char) {
    c == '&' || c == '<' || c == '>' || c == '"' || c == '\''
  }

  /** The characters that can open or close a tag or an attribute value. */
  predicate IsMarkup(c: char) {
    c == '<' || c == '>' || c == '"' || c == '\''
  }

  /** The entity each special character becomes. */
  function EscapeChar(c: char): (r: string)
    ensures IsSpecial(c) ==> |r| > 1 && r[0] == '&'
    ensures !IsSpecial(c) ==> r == [c]
    ensures forall i :: 0 <= i < |r| ==> !IsMarkup(r[i])
  {
    match c
    case '&' => "&amp;"
    case '<' => "&lt;"
    case '>' => "&gt;"
    case '"' => "&quot;"
    case '\'' => "&#39;"
    case _ => [c]
  }

  /** Reference definition: every character replaced by its entity. */
  function EscapeSpec(s: string): string {
    if s == [] then [] else EscapeChar(s[0]) + EscapeSpec(s[1..])
  }

  /** String.prototype.replaceAll with a one-character pattern. */
  function ReplaceAllChar(s: string, c: char, rep: string): string {
    if s == [] then []
    else (if s[0] == c then rep else [s[0]]) + ReplaceAllChar(s[1..], c, rep)
  }

  lemma {:induction false} ReplaceAllCharConcat(a: string, b: string, c: char, rep: string)
    ensures ReplaceAllChar(a + b, c, rep) == ReplaceAllChar(a, c, rep) + ReplaceAllChar(b, c, rep)
  {
    if a == [] {
      assert a + b == b;
    } else {
      assert (a + b)[0] == a[0];
      assert (a + b)[1..] == a[1..] + b;
      ReplaceAllCharConcat(a[1..], b, c, rep);
    }
  }

  lemma {:induction false} ReplaceAllCharAbsent(s: string, c: char, rep: string)
    requires forall i :: 0 <= i < |s| ==> s[i] != c
    ensures ReplaceAllChar(s, c, rep) == s
  {
    if s != [] { ReplaceAllCharAbsent(s[1..], c, rep); }
  }

  /** escapeHtml on a string: the five passes in source order. */
  function Escape(s: string): string {
    ReplaceAllChar(ReplaceAllChar(ReplaceAllChar(ReplaceAllChar(ReplaceAllChar(
      s, '&', "&amp;"), '<', "&lt;"), '>', "&gt;"), '"', "&quot;"), '\'', "&#39;")
  }

  /** escapeHtml(s ?? ''), as the templates write it: a missing value escapes
      to the empty string, a present one to its escape. */
  lemma EscapeText(o: Option<string>)
    ensures o.None? ==> Escape(Text(o)) == ""
    ensures o.Some? ==> Escape(Text(o)) == Escape(o.value)
  {
  }

  /** Escaping distributes over concatenation. */
  lemma EscapeConcat(a: string, b: string)
    ensures Escape(a + b) == Escape(a) + Escape(b)
  {
    var a1, b1 := ReplaceAllChar(a, '&', "&amp;"), ReplaceAllChar(b, '&', "&amp;");
    ReplaceAllCharConcat(a, b, '&', "&amp;");
    var a2, b2 := ReplaceAllChar(a1, '<', "&lt;"), ReplaceAllChar(b1, '<', "&lt;");
    ReplaceAllCharConcat(a1, b1, '<', "&lt;");
    var a3, b3 := ReplaceAllChar(a2, '>', "&gt;"), ReplaceAllChar(b2, '>', "&gt;");
    ReplaceAllCharConcat(a2, b2, '>', "&gt;");
    var a4, b4 := ReplaceAllChar(a3, '"', "&quot;"), ReplaceAllChar(b3, '"', "&quot;");
    ReplaceAllCharConcat(a3, b3, '"', "&quot;");
    ReplaceAllCharConcat(a4, b4, '\'', "&#39;");
  }

  lemma ReplaceAllCharSingle(c: char, d: char, rep: string)
    ensures ReplaceAllChar([c], d, rep) == if c == d then rep else [c]
  {
    assert ReplaceAllChar([c], d, rep) == (if c == d then rep else [c]) + ReplaceAllChar([], d, rep);
  }

  lemma EscapeOther(c: char)
    requires !IsSpecial(c)
    ensures Escape([c]) == [c]
  {
    ReplaceAllCharSingle(c, '&', "&amp;");
    ReplaceAllCharSingle(c, '<', "&lt;");
    ReplaceAllCharSingle(c, '>', "&gt;");
    ReplaceAllCharSingle(c, '"', "&quot;");
    ReplaceAllCharSingle(c, '\'', "&#39;");
  }

  /** One character goes through the five passes: the entity produced by an
      early pass holds no character a later pass rewrites. */
  lemma EscapeSingle(c: char)
    ensures Escape([c]) == EscapeChar(c)
  {
    if IsSpecial(c) { EscapeSpecialChar(c); } else { EscapeOther(c); }
  }

  lemma EscapeSpecialChar(c: char)
    requires IsSpecial(c)
    ensures Escape([c]) == EscapeChar(c)
  {
    var e := EscapeChar(c);
    var s1 := ReplaceAllChar([c], '&', "&amp;");
    ReplaceAllCharSingle(c, '&', "&amp;");
    if c == '&' {
      EntityPassesLater(e, 1);
    } else {
      var s2 := ReplaceAllChar(s1, '<', "&lt;");
      ReplaceAllCharSingle(c, '<', "&lt;");
      if c == '<' {
        EntityPassesLater(e, 2);
      } else {
        var s3 := ReplaceAllChar(s2, '>', "&gt;");
        ReplaceAllCharSingle(c, '>', "&gt;");
        if c == '>' {
          EntityPassesLater(e, 3);
        } else {
          ReplaceAllCharSingle(c, '"', "&quot;");
          if c == '"' {
            EntityPassesLater(e, 4);
          } else {
            ReplaceAllCharSingle(c, '\'', "&#39;");
          }
        }
      }
    }
  }

  /** An entity holds none of the characters the passes after its own rewrite. */
  lemma EntityPassesLater(e: string, k: nat)
    requires 1 <= k <= 4
    requires forall i :: 0 <= i < |e| ==> !IsMarkup(e[i])
    ensures k <= 1 ==> ReplaceAllChar(e, '<', "&lt;") == e
    ensures k <= 2 ==> ReplaceAllChar(e, '>', "&gt;") == e
    ensures k <= 3 ==> ReplaceAllChar(e, '"', "&quot;") == e
    ensures ReplaceAllChar(e, '\'', "&#39;") == e
  {
    ReplaceAllCharAbsent(e, '<', "&lt;");
    ReplaceAllCharAbsent(e, '>', "&gt;");
    ReplaceAllCharAbsent(e, '"', "&quot;");
    ReplaceAllCharAbsent(e, '\'', "&#39;");
  }

  /** The replaceAll chain equals the per-character table: because `&` is
      replaced first, no entity is escaped a second time. */
  lemma {:induction false} EscapeIsPerChar(s: string)
    ensures Escape(s) == EscapeSpec(s)
  {
    if s != [] {
      assert s == [s[0]] + s[1..];
      EscapeConcat([s[0]], s[1..]);
      EscapeSingle(s[0]);
      EscapeIsPerChar(s[1..]);
    }
  }

  lemma {:induction false} EscapeSpecNoMarkup(s: string)
    ensures forall i :: 0 <= i < |EscapeSpec(s)| ==> !IsMarkup(EscapeSpec(s)[i])
  {
    if s != [] {
      EscapeSpecNoMarkup(s[1..]);
      var e, t := EscapeChar(s[0]), EscapeSpec(s[1..]);
      assert forall i :: 0 <= i < |e + t| ==> (e + t)[i] == if i < |e| then e[i] else t[i - |e|];
    }
  }

  /** Escaped text never contains `<`, `>`, `"` or `'`. */
  lemma EscapeNoMarkup(s: string)
    ensures forall i :: 0 <= i < |Escape(s)| ==> !IsMarkup(Escape(s)[i])
  {
    EscapeIsPerChar(s);
    EscapeSpecNoMarkup(s);
  }

  lemma {:induction false} EscapeSpecConcat(a: string, b: string)
    ensures EscapeSpec(a + b) == EscapeSpec(a) + EscapeSpec(b)
  {
    if a == [] {
      assert a + b == b;
    } else {
      assert (a + b)[0] == a[0];
      assert (a + b)[1..] == a[1..] + b;
      EscapeSpecConcat(a[1..], b);
    }
  }

  /** escapeHtml leaves a string alone exactly when it holds no special character. */
  lemma {:induction false} EscapeIdentityIff(s: string)
    ensures Escape(s) == s <==> forall i :: 0 <= i < |s| ==> !IsSpecial(s[i])
  {
    EscapeSpecLength(s);
    EscapeIsPerChar(s);
    if s != [] {
      EscapeIsPerChar(s[1..]);
      EscapeIdentityIff(s[1..]);
      if !IsSpecial(s[0]) {
        assert EscapeSpec(s) == [s[0]] + EscapeSpec(s[1..]);
        assert s == [s[0]] + s[1..];
        assert forall i :: 1 <= i < |s| ==> s[i] == s[1..][i - 1];
      }
    }
  }

  /** Escaping never shortens, and lengthens whenever a special character occurs. */
  lemma {:induction false} EscapeSpecLength(s: string)
    ensures |EscapeSpec(s)| >= |s|
    ensures (exists i :: 0 <= i < |s| && IsSpecial(s[i])) ==> |EscapeSpec(s)| > |s|
  {
    if s != [] {
      EscapeSpecLength(s[1..]);
      if exists i :: 0 <= i < |s| && IsSpecial(s[i]) {
        var i :| 0 <= i < |s| && IsSpecial(s[i]);
        if i > 0 { assert IsSpecial(s[1..][i - 1]); }
      }
    }
  }

  /** Inverse of escaping: each of the five entities back to its character. */
  function Unescape(s: string): string
    decreases |s|
  {
    if s == [] then []
    else if StartsWith(s, "&amp;") then "&" + Unescape(s[5..])
    else if StartsWith(s, "&lt;") then "<" + Unescape(s[4..])
    else if StartsWith(s, "&gt;") then ">" + Unescape(s[4..])
    else if StartsWith(s, "&quot;") then "\"" + Unescape(s[6..])
    else if StartsWith(s, "&#39;") then "'" + Unescape(s[5..])
    else [s[0]] + Unescape(s[1..])
  }

  lemma UnescapeChar(c: char, t: string)
    ensures Unescape(EscapeChar(c) + t) == [c] + Unescape(t)
  {
    var e := EscapeChar(c);
    var s := e + t;
    assert s[..|e|] == e;
    assert s[|e|..] == t;
    if c == '&' {
      assert StartsWith(s, "&amp;");
    } else if c == '<' {
      assert !StartsWith(s, "&amp;") by { assert s[1] == 'l'; }
      assert StartsWith(s, "&lt;");
    } else if c == '>' {
      assert !StartsWith(s, "&amp;") && !StartsWith(s, "&lt;") by { assert s[1] == 'g'; }
      assert StartsWith(s, "&gt;");
    } else if c == '"' {
      assert !StartsWith(s, "&amp;") && !StartsWith(s, "&lt;") && !StartsWith(s, "&gt;") by { assert s[1] == 'q'; }
      assert StartsWith(s, "&quot;");
    } else if c == '\'' {
      assert !StartsWith(s, "&amp;") && !StartsWith(s, "&lt;") && !StartsWith(s, "&gt;") && !StartsWith(s, "&quot;") by { assert s[1] == '#'; }
      assert StartsWith(s, "&#39;");
    } else {
      assert s[0] == c && s[1..] == t;
      assert !StartsWith(s, "&amp;") && !StartsWith(s, "&lt;") && !StartsWith(s, "&gt;") && !StartsWith(s, "&quot;") && !StartsWith(s, "&#39;") by { assert s[0] != '&'; }
    }
  }

  /** Decoding undoes escaping. */
  lemma {:induction false} UnescapeEscape(s: string)
    ensures Unescape(Escape(s)) == s
  {
    EscapeIsPerChar(s);
    if s != [] {
      EscapeIsPerChar(s[1..]);
      UnescapeEscape(s[1..]);
      UnescapeChar(s[0], EscapeSpec(s[1..]));
      assert s == [s[0]] + s[1..];
    }
  }

  /** Two different strings never escape to the same text. */
  lemma EscapeInjective(a: string, b: string)
    requires Escape(a) == Escape(b)
    ensures a == b
  {
    UnescapeEscape(a);
    UnescapeEscape(b);
  }

  lemma EscapePlain(s: string)
    requires forall i :: 0 <= i < |s| ==> !IsSpecial(s[i])
    ensures Escape(s) == s
  {
    EscapeIdentityIff(s);
  }

  /** Escaping is not idempotent: an ampersand is escaped again on a second pass. */
  lemma EscapeNotIdempotent(amp: string)
    requires amp == "&"
    ensures Escape(amp) == "&amp;"
    ensures Escape(Escape(amp)) == "&amp;amp;"
    ensures Escape(Escape(amp)) != Escape(amp)
  {
    assert amp == [amp[0]];
    EscapeSingle(amp[0]);
    AmpLiterals();
    EscapeAmpAgain(amp, "amp;");
  }

  lemma AmpLiterals()
    ensures "&" + "amp;" == "&amp;"
    ensures "&amp;" + "amp;" == "&amp;amp;"
  {
  }

  lemma EscapeAmpAgain(amp: string, rest: string)
    requires amp == "&" && rest == "amp;"
    ensures Escape(amp + rest) == "&amp;" + rest
  {
    assert amp == [amp[0]];
    EscapeSingle(amp[0]);
    EscapeConcat(amp, rest);
    EscapePlain(rest);
  }

  /** A fragment of the input shows up, escaped, in the output: a title holding
      `<script>` renders as `&lt;script&gt;`. */
  lemma EscapeKeepsFragment(s: string, t: string)
    requires Contains(s, t)
    ensures Contains(Escape(s), Escape(t))
  {
    var i :| 0 <= i <= |s| && MatchAt(s, t, i);
    assert s == s[..i] + t + s[i + |t|..];
    EscapeConcat(s[..i] + t, s[i + |t|..]);
    EscapeConcat(s[..i], t);
    assert MatchAt(Escape(t), Escape(t), 0);
    ContainsInside(Escape(s[..i]), Escape(t), Escape(s[i + |t|..]), Escape(t));
  }

  /** A tag such as `<script>` is neutralised to `&lt;script&gt;`. */
  lemma EscapeTag(name: string)
    requires forall i :: 0 <= i < |name| ==> !IsSpecial(name[i])
    ensures Escape("<" + name + ">") == "&lt;" + name + "&gt;"
  {
    EscapeConcat("<" + name, ">");
    EscapeConcat("<", name);
    EscapePlain(name);
    EscapeSingle('<');
    EscapeSingle('>');
  }

  /** The markup characters of a text, in order. */
  function Markup(s: string): (r: string)
    ensures forall i :: 0 <= i < |r| ==> IsMarkup(r[i])
  {
    if s == [] then [] else (if IsMarkup(s[0]) then [s[0]] else []) + Markup(s[1..])
  }

  lemma {:induction false} MarkupConcat(a: string, b: string)
    ensures Markup(a + b) == Markup(a) + Markup(b)
  {
    if a == [] {
      assert a + b == b;
    } else {
      assert (a + b)[0] == a[0];
      assert (a + b)[1..] == a[1..] + b;
      MarkupConcat(a[1..], b);
    }
  }

  lemma {:induction false} MarkupOfPlain(s: string)
    requires forall i :: 0 <= i < |s| ==> !IsMarkup(s[i])
    ensures Markup(s) == ""
  {
    if s != [] { MarkupOfPlain(s[1..]); }
  }

  /** Escaped text contributes no markup at all. */
  lemma MarkupOfEscape(s: string)
    ensures Markup(Escape(s)) == ""
  {
    EscapeNoMarkup(s);
    MarkupOfPlain(Escape(s));
  }
}
