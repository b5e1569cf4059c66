/**
 The login callback: the server percent-encodes a token and its expiry into a redirect
 (crates/server/src/api/auth.rs), the CLI parses them out of the request line
 (crates/cli/src/main.rs). Encoding follows sections 2.1 and 2.3 of RFC 3986.
 */
module Callback {
  import opened Wrappers
  import opened Utf8
  import Wire

  // ---- Encoding ----

  predicate Unreserved(b: Byte) {
    'A' as int <= b <= 'Z' as int || 'a' as int <= b <= 'z' as int || '0' as int <= b <= '9' as int
    || b == '-' as int || b == '.' as int || b == '_' as int || b == '~' as int
  }

  function HexUpper(n: nat): char
    requires n < 16
  {
    if n < 10 then ('0' as int + n) as char else ('A' as int + n - 10) as char
  }

  function EncodedByte(b: Byte): string {
    if Unreserved(b) then [b as char] else ['%', HexUpper(b / 16), HexUpper(b % 16)]
  }

  /** What a loop over the bytes writes that appends `f` of each. */
  function Each(f: Byte -> string, bytes: seq<Byte>): string {
    if bytes == [] then [] else Each(f, bytes[..|bytes| - 1]) + f(bytes[|bytes| - 1])
  }

  function Encoded(bytes: seq<Byte>): string {
    Each(EncodedByte, bytes)
  }

  method PercentEncode(input: string) returns (out: string)
    ensures out == Encoded(Encode(input))
  {
    out := "";
    var bytes := Encode(input);
    for i := 0 to |bytes|
      invariant out == Encoded(bytes[..i])
    {
      if Unreserved(bytes[i]) {
        out := out + [bytes[i] as char];
      } else {
        out := out + ['%', HexUpper(bytes[i] / 16), HexUpper(bytes[i] % 16)];
      }
      assert bytes[..i + 1][..i] == bytes[..i];
    }
    assert bytes[..|bytes|] == bytes;
  }

  // ---- Decoding ----

  function HexVal(b: Byte): (v: Option<nat>)
    ensures v.Some? ==> v.value < 16
  {
    if '0' as int <= b <= '9' as int then Some(b as int - '0' as int)
    else if 'a' as int <= b <= 'f' as int then Some(b as int - 'a' as int + 10)
    else if 'A' as int <= b <= 'F' as int then Some(b as int - 'A' as int + 10)
    else None
  }

  /** An escape at the front of `b`: its byte. */
  function EscapeAt(b: seq<Byte>): (v: Option<Byte>) {
    if |b| > 2 && b[0] == '%' as int && HexVal(b[1]).Some? && HexVal(b[2]).Some?
    then Some(HexVal(b[1]).value * 16 + HexVal(b[2]).value)
    else None
  }

  /** `%XX` is a byte, `+` is a space, everything else (a broken escape included) is itself. */
  function Decoded(b: seq<Byte>): seq<Byte> {
    if b == [] then []
    else if EscapeAt(b).Some? then [EscapeAt(b).value] + Decoded(b[3..])
    else [if b[0] == '+' as int then ' ' as int else b[0]] + Decoded(b[1..])
  }

  /** The escape test of the index loop. */
  predicate EscapeIn(bytes: seq<Byte>, i: nat)
    requires i < |bytes|
  {
    bytes[i] == '%' as int && i + 2 < |bytes| && HexVal(bytes[i + 1]).Some? && HexVal(bytes[i + 2]).Some?
  }

  /** How much the loop advances, and what it pushes. */
  function Stride(bytes: seq<Byte>, i: nat): nat
    requires i < |bytes|
  {
    if EscapeIn(bytes, i) then 3 else 1
  }

  function Pushed(bytes: seq<Byte>, i: nat): Byte
    requires i < |bytes|
  {
    if EscapeIn(bytes, i) then HexVal(bytes[i + 1]).value * 16 + HexVal(bytes[i + 2]).value
    else if bytes[i] == '+' as int then ' ' as int else bytes[i]
  }

  lemma DecodedAt(bytes: seq<Byte>, i: nat)
    requires i < |bytes|
    ensures i + Stride(bytes, i) <= |bytes|
    ensures Decoded(bytes[i..]) == [Pushed(bytes, i)] + Decoded(bytes[i + Stride(bytes, i)..])
  {
    var rest := bytes[i..];
    assert rest[0] == bytes[i] && rest[1..] == bytes[i + 1..];
    assert EscapeAt(rest).Some? <==> EscapeIn(bytes, i);
    assert |rest| > 2 ==> rest[1] == bytes[i + 1] && rest[2] == bytes[i + 2] && rest[3..] == bytes[i + 3..];
  }

  lemma Regroup(out: seq<Byte>, x: Byte, rest: seq<Byte>)
    ensures out + ([x] + rest) == out + [x] + rest
  {
  }

  lemma DecodeStep(bytes: seq<Byte>, i: nat, out: seq<Byte>)
    requires i < |bytes| && out + Decoded(bytes[i..]) == Decoded(bytes)
    ensures i + Stride(bytes, i) <= |bytes|
    ensures out + [Pushed(bytes, i)] + Decoded(bytes[i + Stride(bytes, i)..]) == Decoded(bytes)
  {
    DecodedAt(bytes, i);
    Regroup(out, Pushed(bytes, i), Decoded(bytes[i + Stride(bytes, i)..]));
  }

  /** The index loop stays within bounds and pushes bytes only. */
  method PercentDecode(input: string) returns (text: string)
    ensures text == Lossy(Decoded(Encode(input)))
  {
    var bytes := Encode(input);
    var out: seq<Byte> := [];
    var i := 0;
    assert bytes[0..] == bytes;
    while i < |bytes|
      invariant 0 <= i <= |bytes|
      invariant out + Decoded(bytes[i..]) == Decoded(bytes)
    {
      DecodeStep(bytes, i, out);
      if bytes[i] == '%' as int && i + 2 < |bytes| {
        var h, l := HexVal(bytes[i + 1]), HexVal(bytes[i + 2]);
        if h.Some? && l.Some? {
          out := out + [h.value * 16 + l.value];
          i := i + 3;
        } else {
          out := out + [bytes[i]];
          i := i + 1;
        }
      } else if bytes[i] == '+' as int {
        out := out + [' ' as int];
        i := i + 1;
      } else {
        out := out + [bytes[i]];
        i := i + 1;
      }
    }
    assert bytes[i..] == [] && Decoded([]) == [];
    assert out + [] == out;
    text := Lossy(out);
  }

  /** The only characters an encoded value contains. */
  predicate Clean(c: char) {
    c < '\U{80}' && (Unreserved(c as int) || c == '%')
  }

  lemma CleanByte(b: Byte)
    ensures forall i | 0 <= i < |EncodedByte(b)| :: Clean(EncodedByte(b)[i])
  {
  }

  lemma {:induction false} EncodedClean(bytes: seq<Byte>)
    ensures forall i | 0 <= i < |Encoded(bytes)| :: Clean(Encoded(bytes)[i])
    decreases |bytes|
  {
    if bytes != [] {
      var init, last := bytes[..|bytes| - 1], bytes[|bytes| - 1];
      EncodedClean(init);
      CleanByte(last);
      assert Encoded(bytes) == Encoded(init) + EncodedByte(last);
    }
  }

  /** An encoded value contains nothing that a request line or a query string gives a meaning. */
  lemma CleanMeansPlain(c: char)
    requires Clean(c)
    ensures !Wire.Blank(c) && c != '?' && c != '&' && c != '=' && c != '+' && c != '#'
  {
  }

  /** ASCII text is its own UTF-8. */
  lemma {:induction false} AsciiEncode(s: string)
    requires forall i | 0 <= i < |s| :: s[i] < '\U{80}'
    ensures |Encode(s)| == |s| && forall i | 0 <= i < |s| :: Encode(s)[i] == s[i] as int
    decreases |s|
  {
    if s != [] {
      AsciiEncode(s[1..]);
    }
  }

  lemma Associate(a: string, b: string, c: string)
    ensures (a + b) + c == a + (b + c)
  {
  }

  /** The same text, read from the front. */
  lemma {:induction false} EachFront(f: Byte -> string, whole: seq<Byte>, first: Byte, rest: seq<Byte>)
    requires whole == [first] + rest
    ensures Each(f, whole) == f(first) + Each(f, rest)
    decreases |rest|
  {
    if rest == [] {
      assert whole[..0] == [];
    } else {
      var init, last := rest[..|rest| - 1], rest[|rest| - 1];
      var most := whole[..|whole| - 1];
      assert most == [first] + init && whole[|whole| - 1] == last;
      EachFront(f, most, first, init);
      Associate(f(first), Each(f, init), f(last));
    }
  }

  lemma DecodedPlain(b: Byte, rest: seq<Byte>)
    requires Unreserved(b)
    ensures Decoded([b] + rest) == [b] + Decoded(rest)
  {
    assert ([b] + rest)[0] == b && ([b] + rest)[1..] == rest;
  }

  lemma DecodedEscape(h: nat, l: nat, rest: seq<Byte>)
    requires h < 16 && l < 16
    ensures Decoded(['%' as int, HexUpper(h) as int, HexUpper(l) as int] + rest) == [h * 16 + l] + Decoded(rest)
  {
    var s := ['%' as int, HexUpper(h) as int, HexUpper(l) as int] + rest;
    assert s[0] == '%' as int && s[1] == HexUpper(h) as int && s[2] == HexUpper(l) as int && s[3..] == rest;
    HexBack(h);
    HexBack(l);
    assert EscapeAt(s) == Some(h * 16 + l);
  }

  lemma HexBack(n: nat)
    requires n < 16
    ensures HexUpper(n) < '\U{80}' && HexVal(HexUpper(n) as int) == Some(n)
  {
  }

  lemma DecodedByte(b: Byte, rest: seq<Byte>)
    ensures Decoded(Encode(EncodedByte(b)) + rest) == [b] + Decoded(rest)
  {
    CleanByte(b);
    AsciiEncode(EncodedByte(b));
    var e := Encode(EncodedByte(b));
    if Unreserved(b) {
      assert e == [b];
      DecodedPlain(b, rest);
    } else {
      HexBack(b / 16);
      HexBack(b % 16);
      assert e == ['%' as int, HexUpper(b / 16) as int, HexUpper(b % 16) as int];
      DecodedEscape(b / 16, b % 16, rest);
    }
  }

  lemma {:induction false} BytesRoundTrip(bytes: seq<Byte>)
    ensures Decoded(Encode(Encoded(bytes))) == bytes
    decreases |bytes|
  {
    if bytes != [] {
      EachFront(EncodedByte, bytes, bytes[0], bytes[1..]);
      EncodeConcat(EncodedByte(bytes[0]), Encoded(bytes[1..]));
      DecodedByte(bytes[0], Encode(Encoded(bytes[1..])));
      BytesRoundTrip(bytes[1..]);
    } else {
      assert Encoded(bytes) == [];
    }
  }

  function Enc(text: string): string {
    Encoded(Encode(text))
  }

  function Dec(value: string): string {
    Lossy(Decoded(Encode(value)))
  }

  /** Decoding an encoded text gives the text back, for every text. */
  lemma PercentRoundTrip(text: string)
    ensures Dec(Enc(text)) == text
  {
    BytesRoundTrip(Encode(text));
    Utf8.RoundTrip(text);
  }

  // ---- The request line ----

  /** Length of the leading run without white space. */
  function WordEnd(s: string): (k: nat)
    ensures k <= |s|
    ensures forall i | 0 <= i < k :: !Wire.Blank(s[i])
    ensures k < |s| ==> Wire.Blank(s[k])
  {
    if s == [] || Wire.Blank(s[0]) then 0 else 1 + WordEnd(s[1..])
  }

  /** `split_whitespace().nth(1)`. */
  function SecondWord(line: string): Option<string> {
    var a := Wire.TrimStart(line);
    if a == [] then None else
    var b := Wire.TrimStart(a[WordEnd(a)..]);
    if b == [] then None else Some(b[..WordEnd(b)])
  }

  /** Where a separator first occurs. */
  function Find(s: string, c: char): (k: nat)
    ensures k <= |s|
    ensures c !in s[..k]
    ensures k < |s| ==> s[k] == c
  {
    if s == [] || s[0] == c then 0 else
    var k := Find(s[1..], c);
    assert s[..k + 1] == [s[0]] + s[1..][..k];
    k + 1
  }

  /** `split_once`. */
  function SplitOnce(s: string, c: char): Option<(string, string)> {
    var k := Find(s, c);
    if k == |s| then None else Some((s[..k], s[k + 1..]))
  }

  /** `split`: always at least one piece. */
  function Split(s: string, c: char): (parts: seq<string>)
    ensures parts != []
    decreases |s|
  {
    var k := Find(s, c);
    if k == |s| then [s] else [s[..k]] + Split(s[k + 1..], c)
  }

  function QueryOf(target: string): string {
    var q := SplitOnce(target, '?');
    if q.Some? then q.value.1 else ""
  }

  datatype Found = Found(token: Option<string>, expires: Option<string>)

  /** One `key=value` pair; a later one of the same key replaces an earlier one. */
  function Noted(f: Found, pair: string): Found {
    var kv := SplitOnce(pair, '=');
    if kv.None? then f
    else if kv.value.0 == "token" then f.(token := Some(Dec(kv.value.1)))
    else if kv.value.0 == "expires" then f.(expires := Some(Dec(kv.value.1)))
    else f
  }

  function NotedAll(pairs: seq<string>): Found {
    if pairs == [] then Found(None, None) else Noted(NotedAll(pairs[..|pairs| - 1]), pairs[|pairs| - 1])
  }

  function Parsed(line: string): Option<(string, Option<string>)> {
    var target := SecondWord(line);
    if target.None? then None else
    var f := NotedAll(Split(QueryOf(target.value), '&'));
    if f.token.None? then None else Some((f.token.value, f.expires))
  }

  method ParseCallback(requestLine: string) returns (r: Option<(string, Option<string>)>)
    ensures r == Parsed(requestLine)
  {
    var target := SecondWord(requestLine);
    if target.None? {
      return None;
    }
    var token: Option<string>, expires: Option<string> := None, None;
    var pairs := Split(QueryOf(target.value), '&');
    for i := 0 to |pairs|
      invariant Found(token, expires) == NotedAll(pairs[..i])
    {
      var kv := SplitOnce(pairs[i], '=');
      if kv.Some? {
        if kv.value.0 == "token" {
          var t := PercentDecode(kv.value.1);
          token := Some(t);
        } else if kv.value.0 == "expires" {
          var e := PercentDecode(kv.value.1);
          expires := Some(e);
        }
      }
      assert pairs[..i + 1][..i] == pairs[..i];
    }
    assert pairs[..|pairs|] == pairs;
    r := if token.Some? then Some((token.value, expires)) else None;
  }

  // ---- The round trip ----

  /** What the redirect appends to the callback address. */
  function Query(jwt: string, expires: string): string {
    "?token=" + Enc(jwt) + "&expires=" + Enc(expires)
  }

  lemma FindAt(before: string, c: char, after: string)
    requires c !in before
    ensures Find(before + [c] + after, c) == |before|
    ensures SplitOnce(before + [c] + after, c) == Some((before, after))
  {
    var s := before + [c] + after;
    var k := Find(s, c);
    assert s[|before|] == c;
    assert forall i | 0 <= i < |before| :: s[i] == before[i];
    assert forall i | 0 <= i < k :: s[..k][i] == s[i];
    assert s[..|before|] == before && s[|before| + 1..] == after;
  }

  lemma FindNone(s: string, c: char)
    requires c !in s
    ensures Find(s, c) == |s|
  {
    assert forall i | 0 <= i < |s| :: s[i] in s;
  }

  lemma WordAt(word: string, after: string)
    requires word != [] && (forall i | 0 <= i < |word| :: !Wire.Blank(word[i]))
    requires after != [] && Wire.Blank(after[0])
    ensures Wire.TrimStart(word + after) == word + after && WordEnd(word + after) == |word|
  {
    var s := word + after;
    assert s[0] == word[0] && s[|word|] == after[0];
    var k := WordEnd(s);
    assert forall i | 0 <= i < |word| :: s[i] == word[i];
  }

  /** The second word of a request line is its target. */
  lemma TargetOf(verb: string, target: string, tail: string)
    requires verb != [] && (forall i | 0 <= i < |verb| :: !Wire.Blank(verb[i]))
    requires target != [] && (forall i | 0 <= i < |target| :: !Wire.Blank(target[i]))
    ensures SecondWord(verb + " " + (target + (" " + tail))) == Some(target)
  {
    var inner := target + (" " + tail);
    var line := verb + (" " + inner);
    assert verb + " " + inner == line;
    WordAt(verb, " " + inner);
    assert line[|verb|..] == " " + inner;
    WordAt(target, " " + tail);
    assert (" " + inner)[1..] == inner;
    assert Wire.TrimStart(" " + inner) == Wire.TrimStart(inner);
    assert inner[..|target|] == target;
  }

  /** Free of everything that would end a value early. */
  predicate Plain(value: string) {
    && (forall i | 0 <= i < |value| :: !Wire.Blank(value[i]))
    && '&' !in value && '=' !in value && '?' !in value
  }

  lemma EncPlain(text: string)
    ensures Plain(Enc(text))
  {
    EncodedClean(Encode(text));
    forall i | 0 <= i < |Enc(text)|
      ensures !Wire.Blank(Enc(text)[i]) && Enc(text)[i] != '?' && Enc(text)[i] != '&' && Enc(text)[i] != '='
    {
      CleanMeansPlain(Enc(text)[i]);
    }
  }

  /** Two pieces around one separator. */
  lemma SplitTwo(a: string, b: string, c: char)
    requires c !in a && c !in b
    ensures Split(a + [c] + b, c) == [a, b]
  {
    FindAt(a, c, b);
    FindNone(b, c);
    assert (a + [c] + b)[..|a|] == a && (a + [c] + b)[|a| + 1..] == b;
    assert Split(b, c) == [b];
  }

  lemma TokenNoted(f: Found, value: string)
    ensures Noted(f, "token=" + value) == f.(token := Some(Dec(value)))
  {
    assert "token=" + value == "token" + ['='] + value;
    FindAt("token", '=', value);
  }

  lemma ExpiresNoted(f: Found, value: string)
    ensures Noted(f, "expires=" + value) == f.(expires := Some(Dec(value)))
  {
    assert "expires=" + value == "expires" + ['='] + value;
    FindAt("expires", '=', value);
    assert "expires" != "token";
  }

  lemma QueryNoted(x: string, y: string)
    requires '&' !in x && '&' !in y
    ensures NotedAll(Split("token=" + x + "&expires=" + y, '&')) == Found(Some(Dec(x)), Some(Dec(y)))
  {
    var a, b := "token=" + x, "expires=" + y;
    assert "token=" + x + "&expires=" + y == a + ['&'] + b;
    SplitTwo(a, b, '&');
    PairsNoted(a, b);
    TokenNoted(Found(None, None), x);
    ExpiresNoted(Found(Some(Dec(x)), None), y);
  }

  lemma PairsNoted(a: string, b: string)
    ensures NotedAll([a, b]) == Noted(Noted(Found(None, None), a), b)
  {
    assert [a, b][..1] == [a] && [a][..0] == [];
    assert NotedAll([a]) == Noted(NotedAll([]), a);
  }

  lemma QueryAt(path: string, rest: string, target: string)
    requires '?' !in path && target == path + (['?'] + rest)
    ensures QueryOf(target) == rest
  {
    assert target == path + ['?'] + rest;
    FindAt(path, '?', rest);
  }

  /** The request line of a redirect whose two values are `x` and `y`, as they stand. */
  lemma ParsedLine(path: string, rest: string, target: string, x: string, y: string, tail: string)
    requires forall i | 0 <= i < |path| :: !Wire.Blank(path[i]) && path[i] != '?'
    requires Plain(x) && Plain(y)
    requires rest == "token=" + x + "&expires=" + y && target == path + (['?'] + rest)
    ensures Parsed("GET" + " " + (target + (" " + tail))) == Some((Dec(x), Some(Dec(y))))
  {
    assert forall i | 0 <= i < |rest| :: !Wire.Blank(rest[i]);
    assert forall i | 0 <= i < |target| :: !Wire.Blank(target[i]);
    TargetOf("GET", target, tail);
    QueryAt(path, rest, target);
    QueryNoted(x, y);
  }

  /**
   Login callback. For every token and expiry, whatever their characters, and any path and
   protocol version, the CLI reads out of the request line exactly what the server put in.
   */
  lemma CallbackRoundTrip(path: string, jwt: string, expires: string, tail: string)
    requires forall i | 0 <= i < |path| :: !Wire.Blank(path[i]) && path[i] != '?'
    ensures Parsed("GET" + " " + (path + Query(jwt, expires) + (" " + tail))) == Some((jwt, Some(expires)))
  {
    EncPlain(jwt);
    EncPlain(expires);
    var x, y := Enc(jwt), Enc(expires);
    var rest := "token=" + x + "&expires=" + y;
    assert Query(jwt, expires) == ['?'] + rest;
    ParsedLine(path, rest, path + Query(jwt, expires), x, y, tail);
    PercentRoundTrip(jwt);
    PercentRoundTrip(expires);
  }

  // ---- A callback address with a query of its own ----

  lemma FindFirst(s: string, c: char, more: string)
    requires c in s
    ensures Find(s, c) < |s| && Find(s + more, c) == Find(s, c)
  {
    var k := Find(s, c);
    assert s[..|s|] == s;
    assert (s + more)[k] == c;
    assert forall i | 0 <= i < k :: (s + more)[i] == s[..k][i];
    var j := Find(s + more, c);
    assert forall i | 0 <= i < j :: (s + more)[..j][i] == (s + more)[i];
  }

  /** The first piece of a text, with or without more text behind its separator. */
  lemma SplitFirst(a: string, more: string, c: char, k: nat)
    requires c in a && k == Find(a, c)
    ensures k < |a| && Split(a + more, c) == [a[..k]] + Split(a[k + 1..] + more, c)
  {
    FindFirst(a, c, more);
    assert (a + more)[..k] == a[..k] && (a + more)[k + 1..] == a[k + 1..] + more;
  }

  lemma Front(p: string, parts: seq<string>, last: string)
    ensures [p] + (parts + [last]) == ([p] + parts) + [last]
  {
  }

  /** Cutting off one more piece behind the last separator. */
  lemma {:induction false} SplitSnoc(a: string, b: string, more: string, c: char)
    requires c !in b && more == [c] + b
    ensures Split(a + more, c) == Split(a, c) + [b]
    decreases |a|
  {
    if c in a {
      var k := Find(a, c);
      SplitFirst(a, more, c, k);
      var rest := a[k + 1..];
      SplitSnoc(rest, b, more, c);
      Front(a[..k], Split(rest, c), b);
    } else {
      FindNone(a, c);
      assert a + more == a + [c] + b;
      SplitTwo(a, b, c);
    }
  }

  /** Text behind the last separator joins the last piece. */
  lemma {:induction false} SplitTail(a: string, z: string, c: char)
    requires c !in z
    ensures var parts := Split(a, c); var last := |parts| - 1;
            Split(a + z, c) == parts[..last] + [parts[last] + z]
    decreases |a|
  {
    if c in a {
      var k := Find(a, c);
      SplitFirst(a, z, c, k);
      var rest := Split(a[k + 1..], c);
      SplitTail(a[k + 1..], z, c);
      var last := |rest| - 1;
      Front(a[..k], rest[..last], rest[last] + z);
      assert ([a[..k]] + rest)[..last + 1] == [a[..k]] + rest[..last];
    } else {
      FindNone(a, c);
      FindNone(a + z, c);
      assert Split(a, c)[..0] == [];
    }
  }

  /** The piece that swallowed the server's `?token=`: it sets no token, or one that is not empty. */
  lemma Swallowed(f: Found, piece: string, x: string)
    ensures var g := Noted(f, piece + ("?token=" + x));
            if '=' in piece && piece[..Find(piece, '=')] == "token"
            then g.token.Some? && g.token.value != "" else g.token == f.token
  {
    var z := "?token=" + x;
    if '=' in piece {
      FindFirst(piece, '=', z);
      var k := Find(piece, '=');
      assert (piece + z)[..k] == piece[..k];
      var value := (piece + z)[k + 1..];
      assert value != [];
      DecNotEmpty(value);
    } else {
      var key := piece + "?token";
      assert piece + z == key + ['='] + x;
      FindAt(key, '=', x);
      assert key[|piece|] == '?';
    }
  }

  lemma DecNotEmpty(value: string)
    requires value != ""
    ensures Dec(value) != ""
  {
    assert Encode(value) == EncodeChar(value[0]) + Encode(value[1..]);
  }

  lemma QueryFrom(path: string, rest: string)
    requires '?' in path
    ensures QueryOf(path + rest) == path[Find(path, '?') + 1..] + rest
  {
    FindFirst(path, '?', rest);
    assert (path + rest)[Find(path, '?') + 1..] == path[Find(path, '?') + 1..] + rest;
  }

  /** Behind a query of the path's own, what the server put in is not a pair of its own. */
  lemma OwnQuery(own: string, added: string, x: string, y: string)
    requires Plain(x) && Plain(y) && added == "?token=" + x + "&expires=" + y
    ensures var parts := Split(own, '&'); var last := |parts| - 1;
            NotedAll(Split(own + added, '&')).token
            == Noted(NotedAll(parts[..last]), parts[last] + ("?token=" + x)).token
  {
    var z, b := "?token=" + x, "expires=" + y;
    var more := ['&'] + b;
    assert own + added == own + z + more;
    SplitSnoc(own + z, b, more, '&');
    SplitTail(own, z, '&');
    var parts := Split(own, '&');
    var init, last := parts[..|parts| - 1], parts[|parts| - 1];
    LastNoted(init, last + z, b);
    ExpiresNoted(Noted(NotedAll(init), last + z), y);
  }

  lemma LastNoted(init: seq<string>, a: string, b: string)
    ensures NotedAll(init + [a] + [b]) == Noted(Noted(NotedAll(init), a), b)
  {
    assert (init + [a] + [b])[..|init| + 1] == init + [a];
    assert (init + [a])[..|init|] == init;
  }

  function RequestLine(path: string, jwt: string, expires: string, tail: string): string {
    "GET" + " " + (path + Query(jwt, expires) + (" " + tail))
  }

  /** Does the CLI find what the server put in when this is the requested path? */
  ghost predicate Works(path: string) {
    forall jwt, expires, tail :: Parsed(RequestLine(path, jwt, expires, tail)) == Some((jwt, Some(expires)))
  }

  lemma TargetFound(path: string, jwt: string, expires: string, tail: string)
    requires forall i | 0 <= i < |path| :: !Wire.Blank(path[i])
    ensures SecondWord(RequestLine(path, jwt, expires, tail)) == Some(path + Query(jwt, expires))
  {
    EncPlain(jwt);
    EncPlain(expires);
    var target := path + Query(jwt, expires);
    assert forall i | 0 <= i < |target| :: !Wire.Blank(target[i]);
    TargetOf("GET", target, tail);
  }

  lemma TokenParsed(line: string, target: string, query: string)
    requires SecondWord(line) == Some(target) && QueryOf(target) == query
    ensures var token := NotedAll(Split(query, '&')).token;
            (Parsed(line).Some? <==> token.Some?) && (token.Some? ==> Parsed(line).value.0 == token.value)
  {
  }

  /** With a `?` in the path: the pairs of its own query but the last, and that last one. */
  function OwnPairs(path: string): (parts: seq<string>)
    ensures parts != []
  {
    if '?' in path then Split(path[Find(path, '?') + 1..], '&') else [path]
  }

  function Early(path: string): Found {
    NotedAll(OwnPairs(path)[..|OwnPairs(path)| - 1])
  }

  function LastPair(path: string): string {
    OwnPairs(path)[|OwnPairs(path)| - 1]
  }

  lemma TokenBehind(line: string, target: string, own: string, added: string, x: string, y: string)
    requires SecondWord(line) == Some(target) && QueryOf(target) == own + added
    requires Plain(x) && Plain(y) && added == "?token=" + x + "&expires=" + y
    ensures var parts := Split(own, '&'); var last := |parts| - 1;
            var token := Noted(NotedAll(parts[..last]), parts[last] + ("?token=" + x)).token;
            (Parsed(line).Some? <==> token.Some?) && (token.Some? ==> Parsed(line).value.0 == token.value)
  {
    TokenParsed(line, target, own + added);
    OwnQuery(own, added, x, y);
  }

  /** With a `?` in the path the CLI finds whatever its own query makes of what was appended. */
  lemma TokenLost(path: string, jwt: string)
    requires (forall i | 0 <= i < |path| :: !Wire.Blank(path[i])) && '?' in path
    ensures var token := Noted(Early(path), LastPair(path) + ("?token=" + Enc(jwt))).token;
            var r := Parsed(RequestLine(path, jwt, "", ""));
            (r.Some? <==> token.Some?) && (token.Some? ==> r.value.0 == token.value)
  {
    var line, added := RequestLine(path, jwt, "", ""), Query(jwt, "");
    TargetFound(path, jwt, "", "");
    QueryFrom(path, added);
    EncPlain(jwt);
    EncPlain("");
    TokenBehind(line, path + added, path[Find(path, '?') + 1..], added, Enc(jwt), Enc(""));
  }

  /**
   A requested path works for every token and expiry exactly when it has no query of its own:
   the server always appends `?token=`, the CLI splits at the first `?`.
   */
  lemma CallbackWorksIff(path: string)
    requires forall i | 0 <= i < |path| :: !Wire.Blank(path[i])
    ensures Works(path) <==> '?' !in path
  {
    if '?' in path {
      TokenLost(path, "");
      TokenLost(path, "a");
      Swallowed(Early(path), LastPair(path), Enc(""));
      Swallowed(Early(path), LastPair(path), Enc("a"));
      assert Parsed(RequestLine(path, "", "", "")) != Some(("", Some("")))
          || Parsed(RequestLine(path, "a", "", "")) != Some(("a", Some("")));
    } else {
      forall jwt, expires, tail ensures Parsed(RequestLine(path, jwt, expires, tail)) == Some((jwt, Some(expires))) {
        assert forall i | 0 <= i < |path| :: path[i] in path;
        CallbackRoundTrip(path, jwt, expires, tail);
      }
    }
  }

  // ---- The redirect, as a user agent follows it ----

  /** What a header value may contain; the redirect is built from nothing else. */
  predicate HeaderChar(c: char) {
    c == '\t' || (c >= ' ' && c != '\U{7F}')
  }

  predicate HeaderValid(s: string) {
    forall i | 0 <= i < |s| :: HeaderChar(s[i])
  }

  /** The redirect to a callback address, given from its path on; without a valid header value
      the handler ends without an answer. */
  function Redirect(address: string, jwt: string, expires: string): Option<string> {
    var location := address + Query(jwt, expires);
    if HeaderValid(location) then Some(location) else None
  }

  /** What follows the authority of an address is empty or begins one of its parts (section 3.3 of
      RFC 3986). */
  predicate BehindAuthority(address: string) {
    address == "" || address[0] == '/' || address[0] == '?' || address[0] == '#'
  }

  /** A user agent percent-encodes what no request line may contain. */
  function SentChar(c: char): string {
    if '!' <= c <= '~' then [c] else Enc([c])
  }

  function Sent(s: string): string {
    if s == [] then [] else SentChar(s[0]) + Sent(s[1..])
  }

  /** The path a user agent requests: never empty (section 5.3.1 of RFC 7230). */
  function Rooted(address: string): string {
    if address != [] && address[0] == '/' then address else "/" + address
  }

  /** The request target of a redirect: a fragment is never sent (section 3.5 of RFC 3986). */
  function Requested(location: string): string {
    Sent(Rooted(location[..Find(location, '#')]))
  }

  function LoginLine(location: string, tail: string): string {
    "GET" + " " + (Requested(location) + (" " + tail))
  }

  /** The server redirects, and the CLI finds in the request line what the server put in. */
  predicate LoginSucceeds(address: string, jwt: string, expires: string, tail: string) {
    var location := Redirect(address, jwt, expires);
    location.Some? && Parsed(LoginLine(location.value, tail)) == Some((jwt, Some(expires)))
  }

  /** Does the login work with this callback address, whatever the server puts in? */
  ghost predicate LoginWorks(address: string) {
    forall jwt, expires, tail :: LoginSucceeds(address, jwt, expires, tail)
  }

  // What is sent.

  lemma {:induction false} SentConcat(a: string, b: string)
    ensures Sent(a + b) == Sent(a) + Sent(b)
    decreases |a|
  {
    if a == [] {
      assert a + b == b;
    } else {
      assert (a + b)[1..] == a[1..] + b;
      SentConcat(a[1..], b);
      Associate(SentChar(a[0]), Sent(a[1..]), Sent(b));
    }
  }

  lemma {:induction false} SentKeeps(s: string)
    requires forall i | 0 <= i < |s| :: '!' <= s[i] <= '~'
    ensures Sent(s) == s
    decreases |s|
  {
    if s != [] {
      SentKeeps(s[1..]);
      assert [s[0]] + s[1..] == s;
    }
  }

  lemma SentCharClean(c: char)
    ensures forall i | 0 <= i < |SentChar(c)| :: !Wire.Blank(SentChar(c)[i])
    ensures '?' in SentChar(c) <==> c == '?'
  {
    EncPlain([c]);
  }

  lemma {:induction false} SentClean(s: string)
    ensures forall i | 0 <= i < |Sent(s)| :: !Wire.Blank(Sent(s)[i])
    ensures '?' in Sent(s) <==> '?' in s
    decreases |s|
  {
    if s != [] {
      var first, rest := SentChar(s[0]), Sent(s[1..]);
      SentCharClean(s[0]);
      SentClean(s[1..]);
      assert '?' in first + rest <==> '?' in first || '?' in rest;
      assert s == [s[0]] + s[1..];
    }
  }

  /** What the server appends goes through header and request line as it is. */
  lemma QueryPasses(jwt: string, expires: string)
    ensures forall i | 0 <= i < |Query(jwt, expires)| ::
              '!' <= Query(jwt, expires)[i] <= '~' && Query(jwt, expires)[i] != '#'
  {
    EncPasses(jwt);
    EncPasses(expires);
  }

  lemma EncPasses(text: string)
    ensures forall i | 0 <= i < |Enc(text)| :: '!' <= Enc(text)[i] <= '~' && Enc(text)[i] != '#'
  {
    EncodedClean(Encode(text));
    forall i | 0 <= i < |Enc(text)| ensures '!' <= Enc(text)[i] <= '~' && Enc(text)[i] != '#' {
      CleanMeansPlain(Enc(text)[i]);
      CleanIsVisible(Enc(text)[i]);
    }
  }

  lemma CleanIsVisible(c: char)
    requires Clean(c)
    ensures '!' <= c <= '~'
  {
  }

  /** Whether there is a redirect depends on the address alone. */
  lemma RedirectExists(address: string, query: string)
    requires forall i | 0 <= i < |query| :: '!' <= query[i] <= '~'
    ensures HeaderValid(address + query) <==> HeaderValid(address)
  {
    var location := address + query;
    assert forall i | 0 <= i < |address| :: location[i] == address[i];
    assert forall i | 0 <= i < |query| :: location[|address| + i] == query[i];
  }

  /** Without a fragment the whole address is requested, and the query behind it. */
  lemma RequestedWhole(address: string, query: string)
    requires '#' !in address && query != [] && query[0] == '?'
    requires forall i | 0 <= i < |query| :: '!' <= query[i] <= '~' && query[i] != '#'
    ensures Requested(address + query) == Sent(Rooted(address)) + query
  {
    var location := address + query;
    assert '#' !in location;
    FindNone(location, '#');
    assert location[..|location|] == location;
    assert address != [] ==> location[0] == address[0];
    assert "/" + (address + query) == ("/" + address) + query;
    SentConcat(Rooted(address), query);
    SentKeeps(query);
  }

  /** With a fragment the query is part of it, and none of it is requested. */
  lemma RequestedCut(address: string, query: string)
    requires '#' in address
    ensures Requested(address + query) == Sent(Rooted(address[..Find(address, '#')]))
  {
    FindFirst(address, '#', query);
    assert (address + query)[..Find(address, '#')] == address[..Find(address, '#')];
  }

  /** With a fragment every login sends the same request line: the token is lost. */
  lemma FragmentLoses(address: string)
    requires '#' in address
    ensures LoginLine(address + Query("", ""), "") == LoginLine(address + Query("a", ""), "")
  {
    RequestedCut(address, Query("", ""));
    RequestedCut(address, Query("a", ""));
  }

  lemma LinePlain(address: string, jwt: string, expires: string, tail: string)
    requires '#' !in address
    ensures LoginLine(address + Query(jwt, expires), tail) == RequestLine(Sent(Rooted(address)), jwt, expires, tail)
  {
    QueryPasses(jwt, expires);
    RequestedWhole(address, Query(jwt, expires));
  }

  lemma LoginWorksPlain(address: string)
    requires '#' !in address && HeaderValid(address)
    ensures LoginWorks(address) <==> Works(Sent(Rooted(address)))
  {
    var path := Sent(Rooted(address));
    forall jwt, expires, tail
      ensures LoginSucceeds(address, jwt, expires, tail)
              <==> Parsed(RequestLine(path, jwt, expires, tail)) == Some((jwt, Some(expires)))
    {
      QueryPasses(jwt, expires);
      RedirectExists(address, Query(jwt, expires));
      LinePlain(address, jwt, expires, tail);
    }
  }

  /**
   The login works for every token and expiry exactly when the callback address has neither a
   query nor a fragment of its own, and no character that a header value cannot hold.
   */
  lemma LoginWorksIff(address: string)
    requires BehindAuthority(address)
    ensures LoginWorks(address) <==> '?' !in address && '#' !in address && HeaderValid(address)
  {
    QueryPasses("", "");
    QueryPasses("a", "");
    RedirectExists(address, Query("", ""));
    RedirectExists(address, Query("a", ""));
    if !HeaderValid(address) {
      assert !LoginSucceeds(address, "", "", "");
    } else if '#' in address {
      FragmentLoses(address);
      assert !LoginSucceeds(address, "", "", "") || !LoginSucceeds(address, "a", "", "");
    } else {
      LoginWorksPlain(address);
      SentClean(Rooted(address));
      assert '?' in Rooted(address) <==> '?' in address;
      CallbackWorksIff(Sent(Rooted(address)));
    }
  }
}
