/** JSON values and their text. Objects are field lists in presentation order with
    distinct keys; numbers keep their source text. `Parse` reads any RFC 8259 text
    (a repeated key keeps its last value, as `serde_json` does); `Print` is the compact
    form. Everything downstream rests on `ParsePrint`. */
module Json {
  import opened Common

  datatype Json =
    | Null
    | Bool(b: bool)
    | Num(text: string)
    | Str(s: string)
    | Arr(items: seq<Json>)
    | Obj(fields: Fields)

  type Fields = seq<(string, Json)>

  // ----- objects -----

  function Get(fs: Fields, key: string): Option<Json> {
    if fs == [] then None
    else if fs[0].0 == key then Some(fs[0].1)
    else Get(fs[1..], key)
  }

  predicate Has(fs: Fields, key: string) {
    Get(fs, key).Some?
  }

  /** `Map::insert`: replaces in place, or appends. */
  function Insert(fs: Fields, key: string, v: Json): Fields {
    if fs == [] then [(key, v)]
    else if fs[0].0 == key then [(key, v)] + fs[1..]
    else [fs[0]] + Insert(fs[1..], key, v)
  }

  function Remove(fs: Fields, key: string): Fields {
    if fs == [] then []
    else if fs[0].0 == key then Remove(fs[1..], key)
    else [fs[0]] + Remove(fs[1..], key)
  }

  predicate Distinct(fs: Fields) {
    fs == [] || (!Has(fs[1..], fs[0].0) && Distinct(fs[1..]))
  }

  /** A string field that is present or not. */
  function Optional(key: string, v: Option<string>): Fields {
    if v.Some? then [(key, Str(v.value))] else []
  }

  // ----- well-formed values -----

  predicate Digit(c: char) { '0' <= c <= '9' }

  predicate NumberChar(c: char) {
    Digit(c) || c == '-' || c == '+' || c == '.' || c == 'e' || c == 'E'
  }

  /** The number of leading digits. */
  function Digits(s: string): (n: nat)
    ensures n <= |s|
  {
    if s != "" && Digit(s[0]) then 1 + Digits(s[1..]) else 0
  }

  predicate IsExponent(s: string) {
    s == "" ||
    ((s[0] == 'e' || s[0] == 'E') &&
     var t := if |s| > 1 && (s[1] == '+' || s[1] == '-') then s[2..] else s[1..];
     t != "" && Digits(t) == |t|)
  }

  predicate IsFraction(s: string) {
    if s != "" && s[0] == '.' then
      var n := Digits(s[1..]);
      n > 0 && IsExponent(s[1 + n..])
    else IsExponent(s)
  }

  /** The number grammar of RFC 8259 section 6. */
  predicate IsNumber(s: string) {
    var t := if s != "" && s[0] == '-' then s[1..] else s;
    var n := Digits(t);
    n > 0 && (t[0] == '0' ==> n == 1) && IsFraction(t[n..])
  }

  predicate AllNumberChars(s: string) {
    forall i :: 0 <= i < |s| ==> NumberChar(s[i])
  }

  predicate Valid(j: Json) {
    match j
    case Null | Bool(_) | Str(_) => true
    case Num(t) => IsNumber(t) && AllNumberChars(t)
    case Arr(xs) => ValidItems(xs)
    case Obj(fs) => ValidFields(fs)
  }

  predicate ValidItems(xs: seq<Json>) {
    forall i :: 0 <= i < |xs| ==> Valid(xs[i])
  }

  predicate ValidFields(fs: Fields) {
    Distinct(fs) && forall i :: 0 <= i < |fs| ==> ValidField(fs[i])
  }

  predicate ValidField(f: (string, Json)) {
    Valid(f.1)
  }

  // ----- printing -----

  function HexDigit(n: nat): char
    requires n < 16
  {
    "0123456789abcdef"[n]
  }

  function EscapeChar(c: char): (r: string)
    ensures |r| >= 1
  {
    if c == '"' then "\\\""
    else if c == '\\' then "\\\\"
    else if c == '\n' then "\\n"
    else if c == '\r' then "\\r"
    else if c == '\t' then "\\t"
    else if c == '\U{0008}' then "\\b"
    else if c == '\U{000C}' then "\\f"
    else if c < ' ' then "\\u00" + [HexDigit(c as int / 16), HexDigit(c as int % 16)]
    else [c]
  }

  function Escape(s: string): string {
    if s == "" then "" else EscapeChar(s[0]) + Escape(s[1..])
  }

  function Quote(s: string): string {
    ['"'] + (Escape(s) + ['"'])
  }

  function Print(j: Json): (r: string)
    decreases j, 0
  {
    match j
    case Null => "null"
    case Bool(b) => if b then "true" else "false"
    case Num(t) => t
    case Str(s) => Quote(s)
    case Arr(xs) => if xs == [] then "[]" else ['['] + PrintItems(xs)
    case Obj(fs) => if fs == [] then "{}" else ['{'] + PrintFields(fs)
  }

  /** The elements from here to the closing bracket. */
  function PrintItems(xs: seq<Json>): string
    requires xs != []
    decreases xs
  {
    Print(xs[0]) + (if |xs| == 1 then [']'] else [','] + PrintItems(xs[1..]))
  }

  function PrintField(f: (string, Json)): string
    decreases f
  {
    Quote(f.0) + ([':'] + Print(f.1))
  }

  function PrintFields(fs: Fields): string
    requires fs != []
    decreases fs
  {
    PrintField(fs[0]) + (if |fs| == 1 then ['}'] else [','] + PrintFields(fs[1..]))
  }

  // ----- parsing -----

  function SkipSpace(s: string): (r: string)
    ensures |r| <= |s|
  {
    if s != "" && (s[0] == ' ' || s[0] == '\n' || s[0] == '\r' || s[0] == '\t')
    then SkipSpace(s[1..]) else s
  }

  function HexValue(c: char): Option<nat> {
    if '0' <= c <= '9' then Some((c as int) - ('0' as int))
    else if 'a' <= c <= 'f' then Some((c as int) - ('a' as int) + 10)
    else if 'A' <= c <= 'F' then Some((c as int) - ('A' as int) + 10)
    else None
  }

  function Hex4(s: string): (r: Option<nat>)
    ensures r.Some? ==> |s| >= 4 && r.value < 0x10000
  {
    if |s| < 4 then None else
      var a, b, c, d := HexValue(s[0]), HexValue(s[1]), HexValue(s[2]), HexValue(s[3]);
      if a.Some? && b.Some? && c.Some? && d.Some?
        && a.value < 16 && b.value < 16 && c.value < 16 && d.value < 16
      then Some(((a.value * 16 + b.value) * 16 + c.value) * 16 + d.value)
      else None
  }

  /** The character a `\u` escape names (the text after `\u`) and how many characters
      of that text it used: four, or ten for a surrogate pair. */
  function UnicodeEscape(s: string): (r: Option<(char, nat)>)
    ensures r.Some? ==> r.value.1 <= |s|
  {
    var hi := Hex4(s);
    if hi.None? then None
    else if !(0xD800 <= hi.value < 0xE000) then Some((hi.value as char, 4))
    else if hi.value >= 0xDC00 || |s| < 10 || s[4] != '\\' || s[5] != 'u' then None
    else
      var lo := Hex4(s[6..]);
      if lo.None? || !(0xDC00 <= lo.value < 0xE000) then None
      else Some(((0x10000 + (hi.value - 0xD800) * 0x400 + (lo.value - 0xDC00)) as char, 10))
  }

  function SimpleEscape(c: char): Option<char> {
    if c == '"' then Some('"')
    else if c == '\\' then Some('\\')
    else if c == '/' then Some('/')
    else if c == 'n' then Some('\n')
    else if c == 'r' then Some('\r')
    else if c == 't' then Some('\t')
    else if c == 'b' then Some('\U{0008}')
    else if c == 'f' then Some('\U{000C}')
    else None
  }

  /** One character of a string literal and the text after it. */
  function ParseChar(s: string): (r: Option<(char, string)>)
    ensures r.Some? ==> |r.value.1| < |s|
  {
    if s == "" || s[0] == '"' || s[0] < ' ' then None
    else if s[0] != '\\' then Some((s[0], s[1..]))
    else if |s| < 2 then None
    else if s[1] == 'u' then
      var u := UnicodeEscape(s[2..]);
      if u.None? then None else Some((u.value.0, s[2 + u.value.1..]))
    else
      var e := SimpleEscape(s[1]);
      if e.None? then None else Some((e.value, s[2..]))
  }

  /** A string literal's content, from after the opening quote to after the closing one. */
  function ParseString(s: string): (r: Option<(string, string)>)
    ensures r.Some? ==> |r.value.1| < |s|
    decreases |s|
  {
    if s == "" then None
    else if s[0] == '"' then Some(("", s[1..]))
    else
      var c := ParseChar(s);
      if c.None? then None else
        var r := ParseString(c.value.1);
        if r.None? then None else Some(([c.value.0] + r.value.0, r.value.1))
  }

  function NumberPrefix(s: string): (n: nat)
    ensures n <= |s|
  {
    if s != "" && NumberChar(s[0]) then 1 + NumberPrefix(s[1..]) else 0
  }

  function Keyword(s: string, word: string, v: Json): (r: Option<(Json, string)>)
    requires word != ""
    ensures r.Some? ==> |r.value.1| < |s|
  {
    if word <= s then Some((v, s[|word|..])) else None
  }

  function ParseValue(text: string): (r: Option<(Json, string)>)
    ensures r.Some? ==> |r.value.1| < |text|
    decreases |text|, 1
  {
    var s := SkipSpace(text);
    if s == "" then None
    else if s[0] == 'n' then Keyword(s, "null", Null)
    else if s[0] == 't' then Keyword(s, "true", Bool(true))
    else if s[0] == 'f' then Keyword(s, "false", Bool(false))
    else if s[0] == '"' then
      var r := ParseString(s[1..]);
      if r.None? then None else Some((Str(r.value.0), r.value.1))
    else if s[0] == '[' then
      var t := SkipSpace(s[1..]);
      if t != "" && t[0] == ']' then Some((Arr([]), t[1..])) else
        var r := ParseItems(s[1..]);
        if r.None? then None else Some((Arr(r.value.0), r.value.1))
    else if s[0] == '{' then
      var t := SkipSpace(s[1..]);
      if t != "" && t[0] == '}' then Some((Obj([]), t[1..])) else
        var r := ParseFields(s[1..]);
        if r.None? then None else Some((Obj(r.value.0), r.value.1))
    else
      var n := NumberPrefix(s);
      if n > 0 && IsNumber(s[..n]) then Some((Num(s[..n]), s[n..])) else None
  }

  function ParseItems(text: string): (r: Option<(seq<Json>, string)>)
    ensures r.Some? ==> |r.value.1| < |text|
    decreases |text|, 2
  {
    var v := ParseValue(text);
    if v.None? then None else
      var s := SkipSpace(v.value.1);
      if s != "" && s[0] == ']' then Some(([v.value.0], s[1..]))
      else if s != "" && s[0] == ',' then
        var r := ParseItems(s[1..]);
        if r.None? then None else Some(([v.value.0] + r.value.0, r.value.1))
      else None
  }

  function ParseField(text: string): (r: Option<((string, Json), string)>)
    ensures r.Some? ==> |r.value.1| < |text|
    decreases |text|, 2
  {
    var s := SkipSpace(text);
    if s == "" || s[0] != '"' then None else
      var key := ParseString(s[1..]);
      if key.None? then None else
        var t := SkipSpace(key.value.1);
        if t == "" || t[0] != ':' then None else
          var v := ParseValue(t[1..]);
          if v.None? then None else Some(((key.value.0, v.value.0), v.value.1))
  }

  function ParseFields(text: string): (r: Option<(Fields, string)>)
    ensures r.Some? ==> |r.value.1| < |text|
    decreases |text|, 3
  {
    var f := ParseField(text);
    if f.None? then None else
      var s := SkipSpace(f.value.1);
      if s != "" && s[0] == '}' then Some(([f.value.0], s[1..]))
      else if s != "" && s[0] == ',' then
        var r := ParseFields(s[1..]);
        if r.None? then None
        else if Has(r.value.0, f.value.0.0) then r
        else Some(([f.value.0] + r.value.0, r.value.1))
      else None
  }

  /** The value a whole text denotes: nothing but white space may follow it. */
  function Parse(text: string): Option<Json> {
    var r := ParseValue(text);
    if r.Some? && SkipSpace(r.value.1) == "" then Some(r.value.0) else None
  }

  // ----- the round trip -----

  /** What may follow a value inside a printed document. */
  predicate Follows(rest: string) {
    rest == "" || rest[0] == ',' || rest[0] == ']' || rest[0] == '}'
  }

  lemma EscapeHex(c: char)
    requires c < ' '
    ensures Hex4(['0', '0', HexDigit(c as int / 16), HexDigit(c as int % 16)]) == Some(c as int)
  {
    var hi, lo := c as int / 16, c as int % 16;
    assert 0 <= hi < 2 && 0 <= lo < 16;
    assert HexValue(HexDigit(lo)) == Some(lo);
    assert HexValue(HexDigit(hi)) == Some(hi);
  }

  lemma ParseEscapedChar(c: char, rest: string)
    ensures ParseChar(EscapeChar(c) + rest) == Some((c, rest))
    ensures EscapeChar(c)[0] != '"'
  {
    var e := EscapeChar(c);
    var s := e + rest;
    if c == '"' || c == '\\' || c == '\n' || c == '\r' || c == '\t' || c == '\U{0008}' || c == '\U{000C}' {
      assert s[2..] == rest;
    } else if c < ' ' {
      EscapeHex(c);
      var t := s[2..];
      assert t == ['0', '0', HexDigit(c as int / 16), HexDigit(c as int % 16)] + rest;
      assert Hex4(t) == Some(c as int);
      assert UnicodeEscape(t) == Some((c, 4));
      assert s[6..] == rest;
    } else {
      assert s[1..] == rest;
    }
  }

  lemma {:induction false} ParseEscaped(t: string, rest: string)
    ensures ParseString(Escape(t) + (['"'] + rest)) == Some((t, rest))
  {
    if t == "" {
      assert Escape(t) + (['"'] + rest) == ['"'] + rest;
    } else {
      var tail := Escape(t[1..]) + (['"'] + rest);
      assert Escape(t) + (['"'] + rest) == EscapeChar(t[0]) + tail;
      ParseEscapedChar(t[0], tail);
      ParseEscaped(t[1..], rest);
      assert t == [t[0]] + t[1..];
    }
  }

  lemma ParseQuoted(t: string, rest: string)
    ensures (Quote(t) + rest)[0] == '"'
    ensures ParseString((Quote(t) + rest)[1..]) == Some((t, rest))
  {
    ParseEscaped(t, rest);
    QuoteTail(Escape(t), rest);
  }

  lemma QuoteTail(inner: string, rest: string)
    ensures (['"'] + (inner + ['"']) + rest)[1..] == inner + (['"'] + rest)
    ensures (['"'] + (inner + ['"']) + rest)[0] == '"'
  {
  }

  lemma {:induction false} NumberPrefixAll(t: string, rest: string)
    requires AllNumberChars(t) && (rest == "" || !NumberChar(rest[0]))
    ensures NumberPrefix(t + rest) == |t|
  {
    if t == "" {
      assert t + rest == rest;
    } else {
      assert (t + rest)[1..] == t[1..] + rest;
      NumberPrefixAll(t[1..], rest);
    }
  }

  lemma ParseNumber(t: string, rest: string)
    requires Valid(Num(t)) && Follows(rest)
    ensures ParseValue(t + rest) == Some((Num(t), rest))
  {
    var s := t + rest;
    NumberPrefixAll(t, rest);
    assert s[0] == t[0] && NumberChar(s[0]);
    assert SkipSpace(s) == s;
    assert s[..|t|] == t && s[|t|..] == rest;
  }

  lemma ParseStringValue(t: string, rest: string)
    ensures ParseValue(Quote(t) + rest) == Some((Str(t), rest))
  {
    var s := Quote(t) + rest;
    ParseQuoted(t, rest);
    assert SkipSpace(s) == s;
  }

  predicate Dense(s: string) {
    s != "" && s[0] !in {' ', '\n', '\r', '\t', ']', '}'}
  }

  lemma ParseArrayValue(inner: string, xs: seq<Json>, rest: string)
    requires Dense(inner) && ParseItems(inner) == Some((xs, rest))
    ensures ParseValue(['['] + inner) == Some((Arr(xs), rest))
  {
    var s := ['['] + inner;
    assert s[1..] == inner;
    assert SkipSpace(s) == s && SkipSpace(inner) == inner;
  }

  lemma ParseObjectValue(inner: string, fs: Fields, rest: string)
    requires Dense(inner) && ParseFields(inner) == Some((fs, rest))
    ensures ParseValue(['{'] + inner) == Some((Obj(fs), rest))
  {
    var s := ['{'] + inner;
    assert s[1..] == inner;
    assert SkipSpace(s) == s && SkipSpace(inner) == inner;
  }

  lemma ParseEmptyValue(open: char, close: char, rest: string)
    requires (open == '[' && close == ']') || (open == '{' && close == '}')
    ensures ParseValue([open, close] + rest) == Some((if open == '[' then Arr([]) else Obj([]), rest))
  {
    var s := [open, close] + rest;
    assert s[1..] == [close] + rest;
    assert ([close] + rest)[1..] == rest;
    assert SkipSpace(s) == s && SkipSpace(s[1..]) == s[1..];
  }

  lemma ParseKeywordValue(j: Json, rest: string)
    requires j.Null? || j.Bool?
    ensures ParseValue(Print(j) + rest) == Some((j, rest))
  {
    var w := Print(j);
    var s := w + rest;
    assert s[0] == w[0];
    assert SkipSpace(s) == s;
    assert w <= s && s[|w|..] == rest;
  }

  /** Reading back a printed value gives that value and the text after it. */
  lemma {:induction false} ParsePrinted(j: Json, rest: string)
    requires Valid(j) && Follows(rest)
    ensures ParseValue(Print(j) + rest) == Some((j, rest))
    decreases j, 0
  {
    match j
    case Null => ParseKeywordValue(j, rest);
    case Bool(b) => ParseKeywordValue(j, rest);
    case Num(t) => ParseNumber(t, rest);
    case Str(t) => ParseStringValue(t, rest);
    case Arr(xs) => ParsePrintedArray(xs, rest);
    case Obj(fs) => ParsePrintedObject(fs, rest);
  }

  lemma {:induction false} ParsePrintedArray(xs: seq<Json>, rest: string)
    requires ValidItems(xs)
    ensures ParseValue(Print(Arr(xs)) + rest) == Some((Arr(xs), rest))
    decreases xs, 2
  {
    if xs == [] {
      ParseEmptyValue('[', ']', rest);
    } else {
      assert Valid(xs[0]);
      PrintHead(xs[0]);
      ParsePrintedItems(xs, rest);
      ParseArrayValue(PrintItems(xs) + rest, xs, rest);
      assert Print(Arr(xs)) + rest == ['['] + (PrintItems(xs) + rest);
    }
  }

  lemma {:induction false} ParsePrintedObject(fs: Fields, rest: string)
    requires ValidFields(fs)
    ensures ParseValue(Print(Obj(fs)) + rest) == Some((Obj(fs), rest))
    decreases fs, 2
  {
    if fs == [] {
      ParseEmptyValue('{', '}', rest);
    } else {
      ParsePrintedFields(fs, rest);
      ParseObjectValue(PrintFields(fs) + rest, fs, rest);
      assert Print(Obj(fs)) + rest == ['{'] + (PrintFields(fs) + rest);
    }
  }

  /** A printed value starts with neither white space nor a closing bracket. */
  lemma PrintHead(j: Json)
    requires Valid(j)
    ensures Dense(Print(j))
  {
    match j
    case Num(t) => assert NumberChar(t[0]);
    case _ =>
  }

  lemma {:induction false} ParsePrintedItems(xs: seq<Json>, rest: string)
    requires xs != [] && ValidItems(xs)
    ensures ParseItems(PrintItems(xs) + rest) == Some((xs, rest))
    decreases xs, 1
  {
    assert Valid(xs[0]);
    if |xs| == 1 {
      var after := [']'] + rest;
      assert PrintItems(xs) + rest == Print(xs[0]) + after;
      ParsePrinted(xs[0], after);
      assert after[1..] == rest;
      assert xs == [xs[0]];
    } else {
      var after := [','] + (PrintItems(xs[1..]) + rest);
      assert PrintItems(xs) + rest == Print(xs[0]) + after;
      ParsePrinted(xs[0], after);
      assert after[1..] == PrintItems(xs[1..]) + rest;
      ParsePrintedItems(xs[1..], rest);
      assert xs == [xs[0]] + xs[1..];
    }
  }

  lemma ParseFieldText(s: string, key: string, t: string, v: Json, rest: string)
    requires s != "" && s[0] == '"' && ParseString(s[1..]) == Some((key, [':'] + t))
    requires ParseValue(t) == Some((v, rest))
    ensures ParseField(s) == Some(((key, v), rest))
  {
    assert SkipSpace(s) == s && SkipSpace([':'] + t) == [':'] + t;
    assert ([':'] + t)[1..] == t;
  }

  lemma {:induction false} ParsePrintedField(f: (string, Json), rest: string)
    requires Valid(f.1) && Follows(rest)
    ensures ParseField(PrintField(f) + rest) == Some((f, rest))
    decreases f
  {
    var colon := [':'] + (Print(f.1) + rest);
    assert PrintField(f) + rest == Quote(f.0) + colon;
    ParseQuoted(f.0, colon);
    ParsePrinted(f.1, rest);
    ParseFieldText(Quote(f.0) + colon, f.0, Print(f.1) + rest, f.1, rest);
  }

  lemma ParseLastField(s: string, f: (string, Json), rest: string)
    requires ParseField(s) == Some((f, ['}'] + rest))
    ensures ParseFields(s) == Some(([f], rest))
  {
    assert SkipSpace(['}'] + rest) == ['}'] + rest;
    assert (['}'] + rest)[1..] == rest;
  }

  lemma ParseMoreFields(s: string, f: (string, Json), t: string, fs: Fields, rest: string)
    requires ParseField(s) == Some((f, [','] + t))
    requires ParseFields(t) == Some((fs, rest)) && !Has(fs, f.0)
    ensures ParseFields(s) == Some(([f] + fs, rest))
  {
    assert SkipSpace([','] + t) == [','] + t;
    assert ([','] + t)[1..] == t;
  }

  lemma {:induction false} FieldsCons(fs: Fields, rest: string)
    requires |fs| > 1 && ValidFields(fs)
    ensures ValidFields(fs[1..]) && !Has(fs[1..], fs[0].0) && fs == [fs[0]] + fs[1..]
    ensures PrintFields(fs) + rest == PrintField(fs[0]) + ([','] + (PrintFields(fs[1..]) + rest))
  {
  }

  lemma {:induction false} ParsePrintedFields(fs: Fields, rest: string)
    requires fs != [] && ValidFields(fs)
    ensures ParseFields(PrintFields(fs) + rest) == Some((fs, rest))
    decreases fs, 1
  {
    assert ValidField(fs[0]);
    if |fs| == 1 {
      assert fs == [fs[0]];
      var s := PrintField(fs[0]) + (['}'] + rest);
      assert PrintFields(fs) + rest == s;
      ParsePrintedField(fs[0], ['}'] + rest);
      ParseLastField(s, fs[0], rest);
    } else {
      FieldsCons(fs, rest);
      var t := PrintFields(fs[1..]) + rest;
      ParsePrintedField(fs[0], [','] + t);
      ParsePrintedFields(fs[1..], rest);
      ParseMoreFields(PrintField(fs[0]) + ([','] + t), fs[0], t, fs[1..], rest);
    }
  }

  /** Parsing inverts printing on every well-formed value. */
  lemma ParsePrint(j: Json)
    requires Valid(j)
    ensures Parse(Print(j)) == Some(j)
  {
    ParsePrinted(j, "");
    assert Print(j) + "" == Print(j);
  }

  // ----- parsed values are well formed, printed ones are one line -----

  lemma {:induction false} NumberPrefixChars(s: string)
    ensures AllNumberChars(s[..NumberPrefix(s)])
  {
    if s != "" && NumberChar(s[0]) {
      NumberPrefixChars(s[1..]);
      assert s[..NumberPrefix(s)] == [s[0]] + s[1..][..NumberPrefix(s[1..])];
    }
  }

  lemma {:induction false} ParseValueValid(text: string)
    requires ParseValue(text).Some?
    ensures Valid(ParseValue(text).value.0)
    decreases |text|, 1
  {
    var s := SkipSpace(text);
    if s[0] == '[' {
      if ParseItems(s[1..]).Some? { ParseItemsValid(s[1..]); }
    } else if s[0] == '{' {
      if ParseFields(s[1..]).Some? { ParseFieldsValid(s[1..]); }
    } else {
      NumberPrefixChars(s);
    }
  }

  lemma {:induction false} ParseItemsValid(text: string)
    requires ParseItems(text).Some?
    ensures ValidItems(ParseItems(text).value.0)
    decreases |text|, 2
  {
    ParseValueValid(text);
    var s := SkipSpace(ParseValue(text).value.1);
    if s[0] == ',' { ParseItemsValid(s[1..]); }
  }

  lemma {:induction false} ParseFieldsValid(text: string)
    requires ParseFields(text).Some?
    ensures ValidFields(ParseFields(text).value.0)
    decreases |text|, 3
  {
    var f := ParseField(text).value;
    ParseFieldValid(text);
    var s := SkipSpace(f.1);
    if s[0] == ',' {
      ParseFieldsValid(s[1..]);
      var r := ParseFields(s[1..]).value;
      if !Has(r.0, f.0.0) {
        var fs := [f.0] + r.0;
        assert fs[1..] == r.0;
      }
    }
  }

  lemma {:induction false} ParseFieldValid(text: string)
    requires ParseField(text).Some?
    ensures ValidField(ParseField(text).value.0)
    decreases |text|, 2
  {
    var key := ParseString(SkipSpace(text)[1..]).value;
    ParseValueValid(SkipSpace(key.1)[1..]);
  }

  lemma ParseValid(text: string)
    requires Parse(text).Some?
    ensures Valid(Parse(text).value)
  {
    ParseValueValid(text);
  }

  lemma {:induction false} EscapeOneLine(s: string)
    ensures Free(Escape(s), '\n')
  {
    if s != "" { EscapeOneLine(s[1..]); }
  }

  /** Printed text has no newline, so it is one line of NDJSON. */
  lemma {:induction false} PrintOneLine(j: Json)
    requires Valid(j)
    ensures Free(Print(j), '\n')
    decreases j, 0
  {
    match j
    case Null | Bool(_) =>
    case Num(t) =>
    case Str(s) => EscapeOneLine(s);
    case Arr(xs) => if xs != [] { PrintItemsOneLine(xs); }
    case Obj(fs) => if fs != [] { PrintFieldsOneLine(fs); }
  }

  lemma {:induction false} PrintItemsOneLine(xs: seq<Json>)
    requires xs != [] && ValidItems(xs)
    ensures Free(PrintItems(xs), '\n')
    decreases xs, 0
  {
    assert Valid(xs[0]);
    PrintOneLine(xs[0]);
    if |xs| > 1 { PrintItemsOneLine(xs[1..]); }
  }

  lemma {:induction false} PrintFieldsOneLine(fs: Fields)
    requires fs != [] && ValidFields(fs)
    ensures Free(PrintFields(fs), '\n')
    decreases fs, 1
  {
    PrintFieldOneLine(fs[0]);
    if |fs| > 1 { PrintFieldsOneLine(fs[1..]); }
  }

  lemma {:induction false} PrintFieldOneLine(f: (string, Json))
    requires ValidField(f)
    ensures Free(PrintField(f), '\n')
    decreases f
  {
    EscapeOneLine(f.0);
    PrintOneLine(f.1);
  }

  // ----- laws of object updates -----

  lemma {:induction false} GetInsert(fs: Fields, k: string, v: Json, key: string)
    ensures Get(Insert(fs, k, v), key) == if key == k then Some(v) else Get(fs, key)
  {
    if fs != [] && fs[0].0 != k { GetInsert(fs[1..], k, v, key); }
  }

  lemma {:induction false} GetConcat(a: Fields, b: Fields, key: string)
    ensures Get(a + b, key) == if Has(a, key) then Get(a, key) else Get(b, key)
  {
    if a == [] {
      assert a + b == b;
    } else {
      assert (a + b)[1..] == a[1..] + b;
      GetConcat(a[1..], b, key);
    }
  }

  /** A well-formed object with one more field in front. */
  lemma ConsValid(f: (string, Json), fs: Fields)
    requires Valid(f.1) && ValidFields(fs) && !Has(fs, f.0)
    ensures ValidFields([f] + fs)
    ensures forall key :: Get([f] + fs, key) == if key == f.0 then Some(f.1) else Get(fs, key)
  {
    assert ([f] + fs)[1..] == fs;
    assert ValidField(f);
  }

  lemma OneField(f: (string, Json))
    requires Valid(f.1)
    ensures ValidFields([f])
    ensures forall key :: Get([f], key) == if key == f.0 then Some(f.1) else None
  {
    ConsValid(f, []);
    assert [f] + [] == [f];
  }

  lemma OptionalValid(key: string, v: Option<string>)
    ensures ValidFields(Optional(key, v))
    ensures forall k :: Get(Optional(key, v), k) == if k == key && v.Some? then Some(Str(v.value)) else None
  {
    if v.Some? { OneField((key, Str(v.value))); }
  }

  lemma {:induction false} GetValid(fs: Fields, key: string)
    requires ValidFields(fs) && Has(fs, key)
    ensures Valid(Get(fs, key).value)
  {
    assert ValidField(fs[0]);
    if fs[0].0 != key { GetValid(fs[1..], key); }
  }

  lemma {:induction false} InsertNew(fs: Fields, k: string, v: Json)
    requires !Has(fs, k)
    ensures Insert(fs, k, v) == fs + [(k, v)]
  {
    if fs != [] {
      InsertNew(fs[1..], k, v);
      assert fs == [fs[0]] + fs[1..];
    }
  }

  lemma {:induction false} InsertValid(fs: Fields, k: string, v: Json)
    requires ValidFields(fs) && Valid(v)
    ensures ValidFields(Insert(fs, k, v))
  {
    if fs != [] {
      assert ValidField(fs[0]);
      if fs[0].0 != k {
        InsertValid(fs[1..], k, v);
        GetInsert(fs[1..], k, v, fs[0].0);
      }
    }
  }

  lemma {:induction false} RemoveAbsent(fs: Fields, k: string)
    requires !Has(fs, k)
    ensures Remove(fs, k) == fs
  {
    if fs != [] { RemoveAbsent(fs[1..], k); }
  }
}
