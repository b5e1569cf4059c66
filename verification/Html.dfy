/** The escaping of the callback address in the login form (crates/server/src/api/auth.rs). */
module Html {
  /** `str::replace` of one character. */
  function Replace(s: string, c: char, by': string): string {
    if s == [] then [] else (if s[0] == c then by' else [s[0]]) + Replace(s[1..], c, by')
  }

  /** Four replacements, one after the other. */
  function Escape(s: string): string {
    Replace(Replace(Replace(Replace(s, '&', "&amp;"), '"', "&quot;"), '<', "&lt;"), '>', "&gt;")
  }

  function EscapeChar(c: char): string {
    if c == '&' then "&amp;" else if c == '"' then "&quot;" else if c == '<' then "&lt;"
    else if c == '>' then "&gt;" else [c]
  }

  /** The same in a single pass. */
  function OnePass(s: string): string {
    if s == [] then [] else EscapeChar(s[0]) + OnePass(s[1..])
  }

  lemma {:induction false} ReplaceConcat(a: string, b: string, c: char, r: string)
    ensures Replace(a + b, c, r) == Replace(a, c, r) + Replace(b, c, r)
    decreases |a|
  {
    if a == [] {
      assert a + b == b;
    } else {
      assert (a + b)[1..] == a[1..] + b;
      ReplaceConcat(a[1..], b, c, r);
    }
  }

  lemma {:induction false} ReplaceAbsent(s: string, c: char, r: string)
    requires c !in s
    ensures Replace(s, c, r) == s
    decreases |s|
  {
    if s != [] {
      assert forall x | x in s[1..] :: x in s;
      ReplaceAbsent(s[1..], c, r);
      assert [s[0]] + s[1..] == s;
    }
  }

  lemma ReplaceOne(c: char, x: char, r: string)
    ensures Replace([x], c, r) == if x == c then r else [x]
  {
    assert [x][1..] == [];
    assert Replace([], c, r) == [];
    assert r + [] == r && [x] + [] == [x];
  }

  /** What the four replacements make of a text, one after the other. */
  lemma Chain(s0: string, s1: string, s2: string, s3: string, s4: string)
    requires Replace(s0, '&', "&amp;") == s1 && Replace(s1, '"', "&quot;") == s2
    requires Replace(s2, '<', "&lt;") == s3 && Replace(s3, '>', "&gt;") == s4
    ensures Escape(s0) == s4
  {
  }

  /** A character none of the replacements mentions. */
  lemma EscapePlain(c: char)
    requires c != '&' && c != '"' && c != '<' && c != '>'
    ensures Escape([c]) == [c]
  {
    ReplaceOne('&', c, "&amp;");
    ReplaceOne('"', c, "&quot;");
    ReplaceOne('<', c, "&lt;");
    ReplaceOne('>', c, "&gt;");
    Chain([c], [c], [c], [c], [c]);
  }

  // No later replacement touches what an earlier one produced.

  lemma EscapeAmp(c: char, e: string)
    requires c == '&' && e == "&amp;"
    ensures Escape([c]) == e
  {
    ReplaceOne('&', c, e);
    ReplaceAbsent(e, '"', "&quot;");
    ReplaceAbsent(e, '<', "&lt;");
    ReplaceAbsent(e, '>', "&gt;");
    Chain([c], e, e, e, e);
  }

  lemma EscapeQuote(c: char, e: string)
    requires c == '"' && e == "&quot;"
    ensures Escape([c]) == e
  {
    ReplaceOne('&', c, "&amp;");
    ReplaceOne('"', c, e);
    ReplaceAbsent(e, '<', "&lt;");
    ReplaceAbsent(e, '>', "&gt;");
    Chain([c], [c], e, e, e);
  }

  lemma EscapeLess(c: char, e: string)
    requires c == '<' && e == "&lt;"
    ensures Escape([c]) == e
  {
    ReplaceOne('&', c, "&amp;");
    ReplaceOne('"', c, "&quot;");
    ReplaceOne('<', c, e);
    ReplaceAbsent(e, '>', "&gt;");
    Chain([c], [c], [c], e, e);
  }

  lemma EscapeGreater(c: char, e: string)
    requires c == '>' && e == "&gt;"
    ensures Escape([c]) == e
  {
    ReplaceOne('&', c, "&amp;");
    ReplaceOne('"', c, "&quot;");
    ReplaceOne('<', c, "&lt;");
    ReplaceOne('>', c, e);
    Chain([c], [c], [c], [c], e);
  }

  lemma EscapeOne(c: char)
    ensures Escape([c]) == EscapeChar(c)
  {
    if c == '&' {
      EscapeAmp(c, "&amp;");
    } else if c == '"' {
      EscapeQuote(c, "&quot;");
    } else if c == '<' {
      EscapeLess(c, "&lt;");
    } else if c == '>' {
      EscapeGreater(c, "&gt;");
    } else {
      EscapePlain(c);
    }
  }

  lemma EscapeConcat(a: string, b: string)
    ensures Escape(a + b) == Escape(a) + Escape(b)
  {
    ReplaceConcat(a, b, '&', "&amp;");
    var a1, b1 := Replace(a, '&', "&amp;"), Replace(b, '&', "&amp;");
    ReplaceConcat(a1, b1, '"', "&quot;");
    var a2, b2 := Replace(a1, '"', "&quot;"), Replace(b1, '"', "&quot;");
    ReplaceConcat(a2, b2, '<', "&lt;");
    ReplaceConcat(Replace(a2, '<', "&lt;"), Replace(b2, '<', "&lt;"), '>', "&gt;");
  }

  /** The four sequential replacements are one pass over the characters, for every string. */
  lemma {:induction false} EscapeIsOnePass(s: string)
    ensures Escape(s) == OnePass(s)
    decreases |s|
  {
    if s != [] {
      assert s == [s[0]] + s[1..];
      EscapeConcat([s[0]], s[1..]);
      EscapeOne(s[0]);
      EscapeIsOnePass(s[1..]);
    }
  }

  /** The result can stand between double quotes: it contains none, and no angle bracket. */
  lemma {:induction false} EscapeIsSafe(s: string)
    ensures '"' !in Escape(s) && '<' !in Escape(s) && '>' !in Escape(s)
    decreases |s|
  {
    EscapeIsOnePass(s);
    if s != [] {
      EscapeIsOnePass(s[1..]);
      EscapeIsSafe(s[1..]);
    }
  }

  predicate Starts(s: string, p: string) {
    |p| <= |s| && s[..|p|] == p
  }

  /** What a browser reads: the four entities, and every other character as itself. */
  function Unescape(s: string): string
    decreases |s|
  {
    if s == [] then []
    else if Starts(s, "&amp;") then "&" + Unescape(s[5..])
    else if Starts(s, "&quot;") then "\"" + Unescape(s[6..])
    else if Starts(s, "&lt;") then "<" + Unescape(s[4..])
    else if Starts(s, "&gt;") then ">" + Unescape(s[4..])
    else [s[0]] + Unescape(s[1..])
  }

  lemma UnescapeOne(c: char, rest: string)
    ensures Unescape(EscapeChar(c) + rest) == [c] + Unescape(rest)
  {
    var s := EscapeChar(c) + rest;
    var k := |EscapeChar(c)|;
    assert s[..k] == EscapeChar(c) && s[k..] == rest;
    if c == '&' || c == '"' || c == '<' || c == '>' {
      assert s[1] == EscapeChar(c)[1];
      assert forall p: string | |p| > 1 && Starts(s, p) :: p[1] == s[..|p|][1] == s[1];
    } else {
      assert s[0] == c;
      assert forall p: string | |p| > 0 && Starts(s, p) :: p[0] == s[..|p|][0] == c;
    }
  }

  /** Nothing is lost: a browser reads back the original, for every string. */
  lemma {:induction false} EscapeRoundTrip(s: string)
    ensures Unescape(Escape(s)) == s
    decreases |s|
  {
    EscapeIsOnePass(s);
    if s != [] {
      EscapeIsOnePass(s[1..]);
      EscapeRoundTrip(s[1..]);
      UnescapeOne(s[0], OnePass(s[1..]));
    }
  }
}
