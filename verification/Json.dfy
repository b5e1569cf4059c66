/**
 The JSON text of one message: a flat object of strings, unsigned integers and nulls
 (RFC 8259). Printing is compact and escapes strings the way serde_json does; parsing
 accepts white space between tokens and every escape of section 7 of RFC 8259.
 */
module Json {
  import opened Wrappers

  datatype Value = Null | Number(n: nat) | String(s: string)

  // ---- Strings ----

  function HexDigit(n: nat): char
    requires n < 16
  {
    "0123456789abcdef"[n]
  }

  function HexValue(c: char): Option<nat> {
    if '0' <= c <= '9' then Some(c as int - '0' as int)
    else if 'a' <= c <= 'f' then Some(c as int - 'a' as int + 10)
    else if 'A' <= c <= 'F' then Some(c as int - 'A' as int + 10)
    else None
  }

  function EscapeChar(c: char): string {
    if c == '"' then "\\\""
    else if c == '\\' then "\\\\"
    else if c == '\U{8}' then "\\b"
    else if c == '\t' then "\\t"
    else if c == '\n' then "\\n"
    else if c == '\U{C}' then "\\f"
    else if c == '\r' then "\\r"
    else if c < ' ' then "\\u00" + [HexDigit(c as int / 16), HexDigit(c as int % 16)]
    else [c]
  }

  function Escape(s: string): string {
    if s == [] then [] else EscapeChar(s[0]) + Escape(s[1..])
  }

  function Quoted(s: string): string {
    "\"" + Escape(s) + "\""
  }

  /** The value of four hexadecimal digits. */
  function Hex4(s: string): Option<nat>
    requires |s| >= 4
  {
    var a, b, c, d := HexValue(s[0]), HexValue(s[1]), HexValue(s[2]), HexValue(s[3]);
    if a.Some? && b.Some? && c.Some? && d.Some?
    then Some(a.value * 4096 + b.value * 256 + c.value * 16 + d.value)
    else None
  }

  /** One character of a string literal off the front of `s`, and how much of `s` it took.
      Raw control characters, unknown escapes and lone surrogates are errors. */
  function UnescapeOne(s: string): (r: Option<(char, nat)>)
    requires s != []
    ensures r.Some? ==> 0 < r.value.1 <= |s|
  {
    if s[0] < ' ' || s[0] == '"' then None
    else if s[0] != '\\' then Some((s[0], 1))
    else if |s| < 2 then None
    else if s[1] == '"' then Some(('"', 2))
    else if s[1] == '\\' then Some(('\\', 2))
    else if s[1] == '/' then Some(('/', 2))
    else if s[1] == 'b' then Some(('\U{8}', 2))
    else if s[1] == 'f' then Some(('\U{C}', 2))
    else if s[1] == 'n' then Some(('\n', 2))
    else if s[1] == 'r' then Some(('\r', 2))
    else if s[1] == 't' then Some(('\t', 2))
    else if s[1] != 'u' || |s| < 6 || Hex4(s[2..6]).None? then None
    else Unescape4(s)
  }

  function Unescape4(s: string): (r: Option<(char, nat)>)
    requires |s| >= 6 && Hex4(s[2..6]).Some?
    ensures r.Some? ==> 0 < r.value.1 <= |s|
  {
    var n := Hex4(s[2..6]).value;
    if n < 0xD800 then Some((n as char, 6))
    else if 0xE000 <= n < 0x1_0000 then Some((n as char, 6))
    else if n >= 0xDC00 || |s| < 12 || s[6] != '\\' || s[7] != 'u' || Hex4(s[8..12]).None? then None
    else
      var m := Hex4(s[8..12]).value;
      if 0xDC00 <= m < 0xE000 then Some(((0x1_0000 + (n - 0xD800) * 0x400 + (m - 0xDC00)) as char, 12)) else None
  }

  /** The contents of a string literal up to its closing quote, and what follows it. */
  function ParseChars(s: string): (r: Option<(string, string)>)
    ensures r.Some? ==> |r.value.1| < |s|
    decreases |s|
  {
    if s == [] then None
    else if s[0] == '"' then Some(([], s[1..]))
    else
      var one := UnescapeOne(s);
      if one.None? then None else
      var rest := ParseChars(s[one.value.1..]);
      if rest.None? then None else Some(([one.value.0] + rest.value.0, rest.value.1))
  }

  lemma UnescapeEscaped(c: char, rest: string)
    ensures UnescapeOne(EscapeChar(c) + rest) == Some((c, |EscapeChar(c)|))
    ensures (EscapeChar(c) + rest)[0] != '"'
  {
    var s := EscapeChar(c) + rest;
    if |EscapeChar(c)| == 6 {
      var n := c as int;
      assert s[..6] == EscapeChar(c);
      assert s[2..6] == ['0', '0', HexDigit(n / 16), HexDigit(n % 16)];
      assert HexValue(HexDigit(n / 16)) == Some(n / 16) && HexValue(HexDigit(n % 16)) == Some(n % 16);
      assert Hex4(s[2..6]) == Some(n / 16 * 16 + n % 16);
    } else if |EscapeChar(c)| == 2 {
      assert s[0] == '\\' && s[1] == EscapeChar(c)[1];
    } else {
      assert s[0] == c;
    }
  }

  /** Escaping is undone by parsing, for every text and whatever follows the closing quote. */
  lemma {:induction false} StringRoundTrip(s: string, rest: string)
    ensures ParseChars(Escape(s) + "\"" + rest) == Some((s, rest))
    decreases |s|
  {
    if s == [] {
      assert Escape(s) + "\"" + rest == "\"" + rest;
    } else {
      var first := EscapeChar(s[0]);
      var tail := Escape(s[1..]) + "\"" + rest;
      assert Escape(s) + "\"" + rest == first + tail;
      UnescapeEscaped(s[0], tail);
      assert (first + tail)[|first|..] == tail;
      StringRoundTrip(s[1..], rest);
      assert [s[0]] + s[1..] == s;
    }
  }

  /** No control character survives escaping: a line feed never occurs inside a frame. */
  lemma {:induction false} EscapeHasNoControls(s: string)
    ensures forall i | 0 <= i < |Escape(s)| :: Escape(s)[i] >= ' '
    decreases |s|
  {
    if s != [] {
      EscapeHasNoControls(s[1..]);
    }
  }

  // ---- Numbers ----

  predicate IsDigit(c: char) {
    '0' <= c <= '9'
  }

  function DigitValue(c: char): nat
    requires IsDigit(c)
  {
    c as int - '0' as int
  }

  function Decimal(n: nat): (s: string)
    ensures s != [] && forall i | 0 <= i < |s| :: IsDigit(s[i])
    ensures |s| > 1 ==> s[0] != '0'
    ensures n != 0 ==> s[0] != '0'
  {
    if n < 10 then [(n + '0' as int) as char] else Decimal(n / 10) + [(n % 10 + '0' as int) as char]
  }

  /** How many digits a text begins with. */
  function Digits(s: string): (k: nat)
    ensures k <= |s|
    ensures forall i | 0 <= i < k :: IsDigit(s[i])
    ensures k < |s| ==> !IsDigit(s[k])
  {
    if s == [] || !IsDigit(s[0]) then 0 else 1 + Digits(s[1..])
  }

  function ValueOf(s: string): nat
    requires forall i | 0 <= i < |s| :: IsDigit(s[i])
  {
    if s == [] then 0 else ValueOf(s[..|s| - 1]) * 10 + DigitValue(s[|s| - 1])
  }

  lemma {:induction false} DecimalValue(n: nat)
    ensures ValueOf(Decimal(n)) == n
    decreases n
  {
    if n < 10 {
      assert Decimal(n)[..0] == [];
    } else {
      DecimalValue(n / 10);
      assert Decimal(n)[..|Decimal(n)| - 1] == Decimal(n / 10);
    }
  }

  lemma {:induction false} DigitsOf(s: string, rest: string)
    requires forall i | 0 <= i < |s| :: IsDigit(s[i])
    requires rest != [] && !IsDigit(rest[0])
    ensures Digits(s + rest) == |s|
    decreases |s|
  {
    if s == [] {
      assert s + rest == rest;
    } else {
      assert (s + rest)[1..] == s[1..] + rest;
      DigitsOf(s[1..], rest);
    }
  }

  // ---- Values ----

  function PrintValue(v: Value): string {
    match v
    case Null => "null"
    case Number(n) => Decimal(n)
    case String(s) => Quoted(s)
  }

  predicate IsSpace(c: char) {
    c == ' ' || c == '\t' || c == '\n' || c == '\r'
  }

  function SkipSpace(s: string): (r: string)
    ensures |r| <= |s|
    ensures r != [] ==> !IsSpace(r[0])
  {
    if s != [] && IsSpace(s[0]) then SkipSpace(s[1..]) else s
  }

  function ParseValue(s: string): (r: Option<(Value, string)>)
    ensures r.Some? ==> |r.value.1| < |s|
  {
    if s == [] then None
    else if s[0] == '"' then
      var t := ParseChars(s[1..]);
      if t.None? then None else Some((String(t.value.0), t.value.1))
    else if |s| >= 4 && s[..4] == "null" then Some((Null, s[4..]))
    else
      var k := Digits(s);
      if k == 0 || (k > 1 && s[0] == '0') then None else Some((Number(ValueOf(s[..k])), s[k..]))
  }

  lemma NumberRoundTrip(n: nat, rest: string)
    requires rest != [] && !IsDigit(rest[0])
    ensures ParseValue(Decimal(n) + rest) == Some((Number(n), rest))
  {
    var d := Decimal(n);
    var s := d + rest;
    DigitsOf(d, rest);
    DecimalValue(n);
    assert s[0] == d[0] && IsDigit(s[0]);
    assert |s| >= 4 ==> s[..4][0] == s[0];
    assert s[..|d|] == d && s[|d|..] == rest;
  }

  lemma TextRoundTrip(t: string, rest: string)
    ensures ParseValue(Quoted(t) + rest) == Some((String(t), rest))
  {
    var s := Quoted(t) + rest;
    assert s[0] == '"' && s[1..] == Escape(t) + "\"" + rest;
    StringRoundTrip(t, rest);
  }

  lemma ValueRoundTrip(v: Value, rest: string)
    requires rest != [] && !IsDigit(rest[0])
    ensures ParseValue(PrintValue(v) + rest) == Some((v, rest))
  {
    match v {
      case Null =>
        var s := "null" + rest;
        assert s[0] == 'n' && s[..4] == "null" && s[4..] == rest;
      case Number(n) => NumberRoundTrip(n, rest);
      case String(t) => TextRoundTrip(t, rest);
    }
  }

  // ---- Flat objects ----

  type Fields = seq<(string, Value)>

  function PrintField(f: (string, Value)): string {
    Quoted(f.0) + ":" + PrintValue(f.1)
  }

  function PrintMore(fields: Fields): string {
    if fields == [] then "}" else "," + PrintField(fields[0]) + PrintMore(fields[1..])
  }

  function Print(fields: Fields): string {
    if fields == [] then "{}" else "{" + PrintField(fields[0]) + PrintMore(fields[1..])
  }

  function ParseField(s: string): (r: Option<((string, Value), string)>)
    ensures r.Some? ==> |r.value.1| < |s|
  {
    var a := SkipSpace(s);
    if a == [] || a[0] != '"' then None else
    var key := ParseChars(a[1..]);
    if key.None? then None else
    var b := SkipSpace(key.value.1);
    if b == [] || b[0] != ':' then None else
    var v := ParseValue(SkipSpace(b[1..]));
    if v.None? then None else Some(((key.value.0, v.value.0), v.value.1))
  }

  /** The members after the first one, to the closing brace. */
  function ParseMore(s: string): (r: Option<(Fields, string)>)
    decreases |s|
  {
    var a := SkipSpace(s);
    if a == [] then None
    else if a[0] == '}' then Some(([], a[1..]))
    else if a[0] != ',' then None
    else
      var f := ParseField(a[1..]);
      if f.None? then None else
      var more := ParseMore(f.value.1);
      if more.None? then None else Some(([f.value.0] + more.value.0, more.value.1))
  }

  /** A whole text: one object, and nothing else but white space. */
  function Parse(s: string): Option<Fields> {
    var a := SkipSpace(s);
    if a == [] || a[0] != '{' then None else
    var b := SkipSpace(a[1..]);
    var r := if b != [] && b[0] == '}' then Some(([], b[1..])) else
             var f := ParseField(b);
             if f.None? then None else
             var more := ParseMore(f.value.1);
             if more.None? then None else Some(([f.value.0] + more.value.0, more.value.1));
    if r.Some? && SkipSpace(r.value.1) == [] then Some(r.value.0) else None
  }

  /** A field is a quoted key, a colon and a value. */
  lemma FieldOf(s: string, chars: string, key: string, v: string, value: Value, rest: string)
    requires s == "\"" + chars && ParseChars(chars) == Some((key, ":" + v))
    requires v != [] && SkipSpace(v) == v && ParseValue(v) == Some((value, rest))
    ensures ParseField(s) == Some(((key, value), rest))
  {
    assert s[0] == '"' && s[1..] == chars && SkipSpace(s) == s;
    var tail := ":" + v;
    assert tail[0] == ':' && tail[1..] == v && SkipSpace(tail) == tail;
  }

  lemma FieldText(key: string, value: string, rest: string)
    ensures "\"" + key + "\"" + ":" + value + rest == "\"" + (key + "\"" + (":" + (value + rest)))
  {
  }

  lemma ValueStarts(value: Value, rest: string)
    ensures PrintValue(value) + rest != [] && SkipSpace(PrintValue(value) + rest) == PrintValue(value) + rest
  {
    assert (PrintValue(value) + rest)[0] == PrintValue(value)[0];
  }

  lemma FieldRoundTrip(f: (string, Value), rest: string)
    requires rest != [] && !IsDigit(rest[0])
    ensures ParseField(PrintField(f) + rest) == Some((f, rest))
    ensures (PrintField(f) + rest)[0] == '"'
  {
    var v := PrintValue(f.1) + rest;
    var chars := Escape(f.0) + "\"" + (":" + v);
    StringRoundTrip(f.0, ":" + v);
    ValueStarts(f.1, rest);
    ValueRoundTrip(f.1, rest);
    FieldText(Escape(f.0), PrintValue(f.1), rest);
    FieldOf(PrintField(f) + rest, chars, f.0, v, f.1, rest);
  }

  lemma MoreStep(inner: string, f: (string, Value), rest: string, fields: Fields)
    requires ParseField(inner) == Some((f, rest)) && ParseMore(rest) == Some((fields, []))
    ensures ParseMore("," + inner) == Some(([f] + fields, []))
  {
    assert ("," + inner)[1..] == inner;
    assert SkipSpace("," + inner) == "," + inner;
  }

  lemma MoreEnd(text: string)
    requires text == "}"
    ensures ParseMore(text) == Some(([], []))
  {
    assert SkipSpace(text) == text && text[1..] == [];
  }

  lemma {:induction false} MoreRoundTrip(fields: Fields, text: string)
    requires text == PrintMore(fields)
    ensures ParseMore(text) == Some((fields, []))
    ensures text != [] && !IsDigit(text[0])
    decreases |fields|
  {
    if fields == [] {
      MoreEnd(text);
    } else {
      var rest := PrintMore(fields[1..]);
      MoreRoundTrip(fields[1..], rest);
      MoreCons(fields[0], fields[1..], rest);
      assert text == "," + PrintField(fields[0]) + rest;
      assert [fields[0]] + fields[1..] == fields;
    }
  }

  lemma MoreCons(f: (string, Value), fields: Fields, rest: string)
    requires rest != [] && !IsDigit(rest[0]) && ParseMore(rest) == Some((fields, []))
    ensures ParseMore("," + PrintField(f) + rest) == Some(([f] + fields, []))
  {
    FieldRoundTrip(f, rest);
    MoreStep(PrintField(f) + rest, f, rest, fields);
    assert "," + PrintField(f) + rest == "," + (PrintField(f) + rest);
  }

  lemma ObjectStep(inner: string, f: (string, Value), rest: string, fields: Fields)
    requires inner != [] && inner[0] == '"'
    requires ParseField(inner) == Some((f, rest)) && ParseMore(rest) == Some((fields, []))
    ensures Parse("{" + inner) == Some([f] + fields)
  {
    assert ("{" + inner)[1..] == inner;
    assert SkipSpace("{" + inner) == "{" + inner && SkipSpace(inner) == inner;
  }

  lemma ObjectCons(f: (string, Value), fields: Fields, rest: string)
    requires rest != [] && !IsDigit(rest[0]) && ParseMore(rest) == Some((fields, []))
    ensures Parse("{" + PrintField(f) + rest) == Some([f] + fields)
  {
    FieldRoundTrip(f, rest);
    ObjectStep(PrintField(f) + rest, f, rest, fields);
    assert "{" + PrintField(f) + rest == "{" + (PrintField(f) + rest);
  }

  lemma EmptyObject(text: string)
    requires text == "{}"
    ensures Parse(text) == Some([])
  {
    assert SkipSpace(text) == text && SkipSpace(text[1..]) == text[1..] && text[1..][1..] == [];
  }

  /** Parsing undoes printing, for every list of fields. */
  lemma RoundTrip(fields: Fields)
    ensures Parse(Print(fields)) == Some(fields)
  {
    if fields == [] {
      EmptyObject("{}");
    } else {
      var rest := PrintMore(fields[1..]);
      MoreRoundTrip(fields[1..], rest);
      ObjectCons(fields[0], fields[1..], rest);
      assert [fields[0]] + fields[1..] == fields;
    }
  }

  lemma ValueHasNoControls(v: Value)
    ensures forall i | 0 <= i < |PrintValue(v)| :: PrintValue(v)[i] >= ' '
  {
    if v.String? {
      EscapeHasNoControls(v.s);
    }
  }

  lemma FieldHasNoControls(f: (string, Value))
    ensures forall i | 0 <= i < |PrintField(f)| :: PrintField(f)[i] >= ' '
  {
    EscapeHasNoControls(f.0);
    ValueHasNoControls(f.1);
  }

  lemma {:induction false} MoreHasNoControls(fields: Fields)
    ensures forall i | 0 <= i < |PrintMore(fields)| :: PrintMore(fields)[i] >= ' '
    decreases |fields|
  {
    if fields != [] {
      FieldHasNoControls(fields[0]);
      MoreHasNoControls(fields[1..]);
    }
  }

  /** The printed object is one line: it contains no control character at all. */
  lemma PrintHasNoControls(fields: Fields)
    ensures forall i | 0 <= i < |Print(fields)| :: Print(fields)[i] >= ' '
  {
    if fields != [] {
      FieldHasNoControls(fields[0]);
      MoreHasNoControls(fields[1..]);
    }
  }

  /** It begins with a brace and ends with one, so trimming leaves it alone. */
  lemma {:induction false} MoreEnds(fields: Fields)
    ensures PrintMore(fields) != [] && PrintMore(fields)[|PrintMore(fields)| - 1] == '}'
    decreases |fields|
  {
    if fields != [] {
      MoreEnds(fields[1..]);
    }
  }

  lemma PrintEnds(fields: Fields)
    ensures |Print(fields)| >= 2 && Print(fields)[0] == '{' && Print(fields)[|Print(fields)| - 1] == '}'
  {
    if fields != [] {
      MoreEnds(fields[1..]);
    }
  }
}
