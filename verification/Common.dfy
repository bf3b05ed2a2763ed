/** Outcome datatypes, and the string operations of the Rust standard library that the
    request path uses: prefix and suffix tests, splitting, trimming, case folding. */
module Common {

  datatype Option<+T> = None | Some(value: T)

  datatype Result<+T, +E> = Ok(value: T) | Err(error: E) {
    predicate IsFailure() {
      Err?
    }

    function PropagateFailure<U>(): Result<U, E>
      requires Err?
    {
      Err(error)
    }

    function Extract(): T
      requires Ok?
    {
      value
    }
  }

  /** What a loop has collected, followed by what is still to come; an error ends it all. */
  function After<T, E>(done: seq<T>, rest: Result<seq<T>, E>): Result<seq<T>, E> {
    if rest.Err? then rest else Ok(done + rest.value)
  }

  lemma AfterCons<T, E>(done: seq<T>, more: seq<T>, rest: Result<seq<T>, E>)
    ensures After(done, After(more, rest)) == After(done + more, rest)
    ensures After([], rest) == rest
  {
    if rest.Ok? {
      assert done + (more + rest.value) == done + more + rest.value;
      assert [] + rest.value == rest.value;
    }
  }

  predicate HasSuffix(s: string, suffix: string) {
    |suffix| <= |s| && s[|s| - |suffix|..] == suffix
  }

  /** No character of `s` is `c`. */
  predicate Free(s: string, c: char) {
    c !in s
  }

  /** The text before and after the first `c`, or None when `c` does not occur. */
  function SplitOnce(s: string, c: char): (r: Option<(string, string)>)
    ensures r.Some? ==> s == r.value.0 + [c] + r.value.1 && Free(r.value.0, c)
    ensures r.None? <==> Free(s, c)
  {
    if s == "" then None
    else if s[0] == c then Some(("", s[1..]))
    else
      var r := SplitOnce(s[1..], c);
      if r.None? then None else Some(([s[0]] + r.value.0, r.value.1))
  }

  /** The first `c` is where the text without a `c` ends. */
  lemma {:induction false} SplitOnceAt(a: string, c: char, b: string)
    requires Free(a, c)
    ensures SplitOnce(a + [c] + b, c) == Some((a, b))
  {
    var s := a + [c] + b;
    if a == "" {
      assert s[1..] == b;
    } else {
      SplitOnceAt(a[1..], c, b);
      assert s[1..] == a[1..] + [c] + b;
      assert a == [a[0]] + a[1..];
    }
  }

  /** Every piece between occurrences of `c`; an empty input has one empty piece. */
  function Split(s: string, c: char): (parts: seq<string>)
    ensures |parts| >= 1
    decreases |s|
  {
    var r := SplitOnce(s, c);
    if r.None? then [s] else [r.value.0] + Split(r.value.1, c)
  }

  lemma SplitAt(a: string, c: char, b: string)
    requires Free(a, c)
    ensures Split(a + [c] + b, c) == [a] + Split(b, c)
  {
    SplitOnceAt(a, c, b);
  }

  lemma SplitFree(a: string, c: char)
    requires Free(a, c)
    ensures Split(a, c) == [a]
  {
    assert SplitOnce(a, c).None?;
  }

  function LowerChar(c: char): char {
    if 'A' <= c <= 'Z' then c - 'A' + 'a' else c
  }

  /** ASCII lower-casing; other characters are kept. */
  function Lower(s: string): (r: string)
    ensures |r| == |s|
    ensures forall i :: 0 <= i < |s| ==> r[i] == LowerChar(s[i])
  {
    seq(|s|, i requires 0 <= i < |s| => LowerChar(s[i]))
  }

  predicate EqIgnoreCase(a: string, b: string) {
    Lower(a) == Lower(b)
  }

  /** Unicode White_Space, as Rust's `char::is_whitespace`. */
  predicate IsSpace(c: char) {
    || '\U{0009}' <= c <= '\U{000D}' || c == ' ' || c == '\U{0085}' || c == '\U{00A0}'
    || c == '\U{1680}' || '\U{2000}' <= c <= '\U{200A}' || c == '\U{2028}'
    || c == '\U{2029}' || c == '\U{202F}' || c == '\U{205F}' || c == '\U{3000}'
  }

  function TrimStart(s: string): string {
    if s != "" && IsSpace(s[0]) then TrimStart(s[1..]) else s
  }

  function TrimEnd(s: string): string {
    if s != "" && IsSpace(s[|s| - 1]) then TrimEnd(s[..|s| - 1]) else s
  }

  function Trim(s: string): string {
    TrimEnd(TrimStart(s))
  }

  /** The value of the first header whose name matches in any case. */
  function HeaderValue(headers: seq<(string, string)>, name: string): Option<string> {
    if headers == [] then None
    else if EqIgnoreCase(headers[0].0, name) then Some(headers[0].1)
    else HeaderValue(headers[1..], name)
  }

  /** The i-th header is the first of this name. */
  predicate FirstNamed(headers: seq<(string, string)>, name: string, i: nat) {
    i < |headers| && EqIgnoreCase(headers[i].0, name) && forall j :: 0 <= j < i ==> !EqIgnoreCase(headers[j].0, name)
  }

  lemma {:induction false} HeaderValueAt(headers: seq<(string, string)>, name: string, i: nat)
    requires FirstNamed(headers, name, i)
    ensures HeaderValue(headers, name) == Some(headers[i].1)
  {
    if i > 0 {
      assert !EqIgnoreCase(headers[0].0, name);
      assert FirstNamed(headers[1..], name, i - 1);
      HeaderValueAt(headers[1..], name, i - 1);
    }
  }

  lemma {:induction false} FirstOf(headers: seq<(string, string)>, name: string) returns (i: nat)
    requires HeaderValue(headers, name).Some?
    ensures FirstNamed(headers, name, i) && HeaderValue(headers, name) == Some(headers[i].1)
  {
    i := 0;
    if !EqIgnoreCase(headers[0].0, name) {
      i := FirstOf(headers[1..], name);
      assert forall j :: 0 < j < |headers| ==> headers[j] == headers[1..][j - 1];
      i := i + 1;
    }
  }

  lemma {:induction false} HeaderValueNone(headers: seq<(string, string)>, name: string)
    ensures HeaderValue(headers, name) == None <==>
            forall i :: 0 <= i < |headers| ==> !EqIgnoreCase(headers[i].0, name)
  {
    if headers != [] {
      HeaderValueNone(headers[1..], name);
      assert forall i :: 0 <= i < |headers| - 1 ==> headers[1..][i] == headers[i + 1];
      assert forall i :: 0 < i < |headers| ==> headers[i] == headers[1..][i - 1];
    }
  }

  /** The two letters are one letter, upper and lower case. */
  predicate CasePair(upper: char, lower: char) {
    'A' <= upper <= 'Z' && lower as int == upper as int + 32
  }

  /** Names are equal in any case exactly when they are equal letter by letter up to the case of
      ASCII letters. */
  lemma EqIgnoreCaseIff(a: string, b: string)
    ensures EqIgnoreCase(a, b) <==>
            |a| == |b| && forall i :: 0 <= i < |a| ==> a[i] == b[i] || CasePair(a[i], b[i]) || CasePair(b[i], a[i])
  {
    if EqIgnoreCase(a, b) {
      assert |Lower(a)| == |Lower(b)|;
      forall i | 0 <= i < |a| ensures a[i] == b[i] || CasePair(a[i], b[i]) || CasePair(b[i], a[i]) {
        assert Lower(a)[i] == Lower(b)[i];
      }
    }
  }

  // ----- decimal numbers -----

  predicate IsDigits(s: string) {
    forall i :: 0 <= i < |s| ==> '0' <= s[i] <= '9'
  }

  function Value(digits: string): nat
    requires IsDigits(digits)
  {
    if digits == "" then 0
    else Value(digits[..|digits| - 1]) * 10 + (digits[|digits| - 1] - '0') as nat
  }

  function Decimal(n: nat): (r: string)
    ensures r != "" && IsDigits(r)
  {
    if n < 10 then ['0' + n as char] else Decimal(n / 10) + ['0' + (n % 10) as char]
  }

  lemma {:induction false} ValueDecimal(n: nat)
    ensures Value(Decimal(n)) == n
  {
    var d := Decimal(n);
    if n < 10 {
      assert d[..0] == "";
    } else {
      ValueDecimal(n / 10);
      assert d[..|d| - 1] == Decimal(n / 10);
    }
  }
}
