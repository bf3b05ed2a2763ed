/** The `x-forwarded-client-cert` header (crates/evoxy-abi/src/xfcc.rs): a quote-aware split
    into chain elements and key-value pairs, and the identity read from the first element. */
module Xfcc {
  import opened Common
  import opened Adapter

  // ----- scanning -----

  datatype Scan = Scan(quoted: bool, escaped: bool) {
    function Next(ch: char): Scan {
      if escaped then Scan(quoted, false)
      else if ch == '\\' then Scan(quoted, true)
      else if ch == '"' then Scan(!quoted, false)
      else this
    }

    /** Whether the scan cuts at this character. */
    predicate Cuts(ch: char, delim: char) {
      !escaped && ch != '\\' && ch != '"' && ch == delim && !quoted
    }
  }

  const Fresh := Scan(false, false)

  function ScanOver(s: string, scan: Scan): Scan {
    if s == "" then scan else ScanOver(s[1..], scan.Next(s[0]))
  }

  /** No cut falls inside `s`. */
  predicate Uncut(s: string, delim: char, scan: Scan) {
    s == "" || (!scan.Cuts(s[0], delim) && Uncut(s[1..], delim, scan.Next(s[0])))
  }

  lemma {:induction false} ScanConcat(a: string, b: string, delim: char, scan: Scan)
    ensures ScanOver(a + b, scan) == ScanOver(b, ScanOver(a, scan))
    ensures Uncut(a + b, delim, scan) <==> Uncut(a, delim, scan) && Uncut(b, delim, ScanOver(a, scan))
  {
    if a == "" {
      assert a + b == b;
    } else {
      ScanConcat(a[1..], b, delim, scan.Next(a[0]));
      assert (a + b)[1..] == a[1..] + b;
    }
  }

  // ----- splitting at top level -----

  function Prepend(head: string, pieces: seq<string>): (r: seq<string>)
    requires pieces != []
    ensures |r| == |pieces|
  {
    [head + pieces[0]] + pieces[1..]
  }

  function Pieces(s: string, delim: char, scan: Scan): (r: seq<string>)
    ensures r != []
  {
    if s == "" then [""]
    else if scan.Cuts(s[0], delim) then [""] + Pieces(s[1..], delim, scan)
    else Prepend([s[0]], Pieces(s[1..], delim, scan.Next(s[0])))
  }

  lemma PrependTwice(a: string, b: string, pieces: seq<string>)
    requires pieces != []
    ensures Prepend(a, Prepend(b, pieces)) == Prepend(a + b, pieces)
    ensures Prepend("", pieces) == pieces
  {
    assert a + (b + pieces[0]) == a + b + pieces[0];
    assert "" + pieces[0] == pieces[0];
  }

  lemma CutHead(a: string, rest: seq<string>)
    ensures Prepend(a, [""] + rest) == [a] + rest
  {
    assert a + "" == a && ([""] + rest)[1..] == rest;
  }

  /** What a scan has collected up to `i`, with the pieces still to come. */
  function Collected(input: string, delim: char, parts: seq<string>, start: nat, i: nat, scan: Scan): seq<string>
    requires start <= i <= |input|
  {
    parts + Prepend(input[start..i], Pieces(input[i..], delim, scan))
  }

  lemma NextChar(input: string, i: nat)
    requires i < |input|
    ensures input[i..] != "" && input[i..][0] == input[i] && input[i..][1..] == input[i + 1..]
  {
  }

  lemma KeepStep(input: string, delim: char, parts: seq<string>, start: nat, i: nat, scan: Scan)
    requires start <= i < |input| && !scan.Cuts(input[i], delim)
    ensures Collected(input, delim, parts, start, i, scan)
            == Collected(input, delim, parts, start, i + 1, scan.Next(input[i]))
  {
    NextChar(input, i);
    PrependTwice(input[start..i], [input[i]], Pieces(input[i + 1..], delim, scan.Next(input[i])));
    assert input[start..i] + [input[i]] == input[start..i + 1];
  }

  lemma CutStep(input: string, delim: char, parts: seq<string>, start: nat, i: nat, scan: Scan)
    requires start <= i < |input| && scan.Cuts(input[i], delim)
    ensures Collected(input, delim, parts, start, i, scan)
            == Collected(input, delim, parts + [input[start..i]], i + 1, i + 1, scan)
  {
    var rest := Pieces(input[i + 1..], delim, scan);
    NextChar(input, i);
    CutHead(input[start..i], rest);
    PrependTwice("", "", rest);
    assert input[i + 1..i + 1] == "";
  }

  lemma CollectedEnds(input: string, delim: char, parts: seq<string>, start: nat, scan: Scan)
    requires start <= |input|
    ensures Collected(input, delim, parts, start, |input|, scan) == parts + [input[start..]]
    ensures Collected(input, delim, [], 0, 0, scan) == Pieces(input, delim, scan)
  {
    assert input[|input|..] == "" && input[start..|input|] == input[start..];
    CutHead(input[start..], []);
    assert [""] + [] == [""];
    PrependTwice("", "", Pieces(input, delim, scan));
    assert input[0..0] == "" && input[0..] == input;
  }

  method SplitTopLevel(input: string, delim: char) returns (parts: seq<string>)
    ensures parts == Pieces(input, delim, Fresh)
  {
    parts := [];
    var start, quoted, escaped := 0, false, false;
    CollectedEnds(input, delim, parts, start, Fresh);
    for i := 0 to |input|
      invariant 0 <= start <= i
      invariant Pieces(input, delim, Fresh) == Collected(input, delim, parts, start, i, Scan(quoted, escaped))
    {
      var ch := input[i];
      ghost var scan := Scan(quoted, escaped);
      if scan.Cuts(ch, delim) {
        CutStep(input, delim, parts, start, i, scan);
      } else {
        KeepStep(input, delim, parts, start, i, scan);
      }
      if escaped {
        escaped := false;
      } else if ch == '\\' {
        escaped := true;
      } else if ch == '"' {
        quoted := !quoted;
      } else if ch == delim && !quoted {
        parts := parts + [input[start..i]];
        start := i + 1;
      }
    }
    CollectedEnds(input, delim, parts, start, Scan(quoted, escaped));
    parts := parts + [input[start..]];
  }

  function Join(pieces: seq<string>, delim: char): string
    requires pieces != []
  {
    if |pieces| == 1 then pieces[0] else pieces[0] + ([delim] + Join(pieces[1..], delim))
  }

  /** A proper cut of a text: no cut falls inside a piece, and every piece but the last ends
      outside quotes and escapes. */
  predicate Proper(pieces: seq<string>, delim: char, scan: Scan)
    requires pieces != []
  {
    && Uncut(pieces[0], delim, scan)
    && (|pieces| == 1 || (ScanOver(pieces[0], scan) == Fresh && Proper(pieces[1..], delim, Fresh)))
  }

  lemma {:induction false} PiecesProper(s: string, delim: char, scan: Scan)
    ensures Join(Pieces(s, delim, scan), delim) == s
    ensures Proper(Pieces(s, delim, scan), delim, scan)
  {
    if s != "" {
      if scan.Cuts(s[0], delim) {
        PiecesProper(s[1..], delim, scan);
        assert s == [delim] + s[1..];
        assert "" + ([delim] + s[1..]) == s;
      } else {
        var rest := Pieces(s[1..], delim, scan.Next(s[0]));
        PiecesProper(s[1..], delim, scan.Next(s[0]));
        assert ([s[0]] + rest[0])[1..] == rest[0];
        assert s == [s[0]] + s[1..];
        if |rest| > 1 {
          assert [s[0]] + rest[0] + ([delim] + Join(rest[1..], delim))
              == [s[0]] + (rest[0] + ([delim] + Join(rest[1..], delim)));
        }
      }
    }
  }

  lemma {:induction false} UncutPiece(a: string, delim: char, scan: Scan)
    requires Uncut(a, delim, scan)
    ensures Pieces(a, delim, scan) == [a]
  {
    if a != "" {
      UncutPiece(a[1..], delim, scan.Next(a[0]));
      assert [a[0]] + a[1..] == a;
    }
  }

  /** A piece that ends outside quotes is cut off by the delimiter that follows it. */
  lemma {:induction false} FirstPiece(a: string, delim: char, b: string, scan: Scan)
    requires delim != '\\' && delim != '"'
    requires Uncut(a, delim, scan) && ScanOver(a, scan) == Fresh
    ensures Pieces(a + ([delim] + b), delim, scan) == [a] + Pieces(b, delim, Fresh)
  {
    var s := a + ([delim] + b);
    if a == "" {
      assert s[1..] == b;
    } else {
      FirstPiece(a[1..], delim, b, scan.Next(a[0]));
      assert s[1..] == a[1..] + ([delim] + b);
      assert [a[0]] + a[1..] == a;
    }
  }

  lemma {:induction false} ProperPieces(pieces: seq<string>, delim: char, scan: Scan)
    requires delim != '\\' && delim != '"'
    requires pieces != [] && Proper(pieces, delim, scan)
    ensures Pieces(Join(pieces, delim), delim, scan) == pieces
  {
    if |pieces| == 1 {
      UncutPiece(pieces[0], delim, scan);
    } else {
      ProperPieces(pieces[1..], delim, Fresh);
      FirstPiece(pieces[0], delim, Join(pieces[1..], delim), scan);
    }
  }

  /** Splitting is the only proper cut: a list of pieces is what the split returns exactly
      when rejoining it gives the text back and every cut it makes is at top level. */
  lemma SplitIff(s: string, delim: char, pieces: seq<string>)
    requires delim != '\\' && delim != '"'
    ensures Pieces(s, delim, Fresh) == pieces <==>
            pieces != [] && Join(pieces, delim) == s && Proper(pieces, delim, Fresh)
  {
    PiecesProper(s, delim, Fresh);
    if pieces != [] && Proper(pieces, delim, Fresh) { ProperPieces(pieces, delim, Fresh); }
  }

  // ----- quoting -----

  function StripQuotes(value: string): string {
    if |value| >= 2 && value[0] == '"' && value[|value| - 1] == '"' then value[1..|value| - 1] else value
  }

  /** A backslash stands for the character after it; one at the very end is dropped. */
  function Unescaped(s: string, escaped: bool): (r: string)
    ensures |r| <= |s|
  {
    if s == "" then ""
    else if escaped then [s[0]] + Unescaped(s[1..], false)
    else if s[0] == '\\' then Unescaped(s[1..], true)
    else [s[0]] + Unescaped(s[1..], false)
  }

  method Unquote(value: string) returns (out: string)
    ensures out == Unescaped(StripQuotes(value), false)
  {
    var inner := StripQuotes(value);
    out := "";
    var escaped := false;
    assert inner[0..] == inner;
    for i := 0 to |inner|
      invariant Unescaped(inner, false) == out + Unescaped(inner[i..], escaped)
    {
      var ch := inner[i];
      assert inner[i..][0] == ch && inner[i..][1..] == inner[i + 1..];
      if escaped {
        out := out + [ch];
        escaped := false;
      } else if ch == '\\' {
        escaped := true;
      } else {
        out := out + [ch];
      }
    }
    assert inner[|inner|..] == "";
  }

  /** Quotes and backslashes behind a backslash. */
  function Escaped(s: string): string {
    if s == "" then ""
    else (if s[0] == '"' || s[0] == '\\' then ['\\', s[0]] else [s[0]]) + Escaped(s[1..])
  }

  function Quoted(s: string): string {
    "\"" + (Escaped(s) + "\"")
  }

  lemma {:induction false} UnescapeEscape(s: string)
    ensures Unescaped(Escaped(s), false) == s
  {
    if s != "" {
      UnescapeEscape(s[1..]);
      var e := Escaped(s);
      if s[0] == '"' || s[0] == '\\' {
        assert e[1..] == [s[0]] + Escaped(s[1..]);
        assert e[1..][1..] == Escaped(s[1..]);
      } else {
        assert e[1..] == Escaped(s[1..]);
      }
    }
  }

  lemma UnquoteQuoted(s: string)
    ensures Unescaped(StripQuotes(Quoted(s)), false) == s
  {
    var q := Quoted(s);
    assert q[1..|q| - 1] == Escaped(s);
    UnescapeEscape(s);
  }

  lemma {:induction false} UnescapedSame(s: string)
    ensures Unescaped(s, false) == s <==> Free(s, '\\')
  {
    if s != "" {
      UnescapedSame(s[1..]);
      if s[0] != '\\' { assert s == [s[0]] + s[1..]; }
    }
  }

  /** A bare value is kept as it is exactly when it holds no backslash: the unescaping is not
      confined to quoted values. */
  lemma UnquoteBareIff(value: string)
    requires StripQuotes(value) == value
    ensures Unescaped(StripQuotes(value), false) == value <==> Free(value, '\\')
  {
    UnescapedSame(value);
  }

  // ----- the identity -----

  function TakePair(pair: string, id: Identity): Identity {
    match SplitOnce(Trim(pair), '=')
    case None => id
    case Some(kv) =>
      var value := Unescaped(StripQuotes(Trim(kv.1)), false);
      if EqIgnoreCase(kv.0, "Subject") then id.(subject := value)
      else if EqIgnoreCase(kv.0, "URI") && value != "" then id.(uriSans := id.uriSans + [value])
      else id
  }

  function TakePairs(pairs: seq<string>, id: Identity): Identity {
    if pairs == [] then id else TakePairs(pairs[1..], TakePair(pairs[0], id))
  }

  const Presented := Identity(true, "", [])

  function Parsed(header: string): Identity {
    if Trim(header) == "" then NoIdentity
    else TakePairs(Pieces(Trim(Pieces(header, ',', Fresh)[0]), ';', Fresh), Presented)
  }

  method FromXfcc(header: string) returns (identity: Identity)
    ensures identity == Parsed(header)
  {
    if Trim(header) == "" {
      return NoIdentity;
    }
    var elements := SplitTopLevel(header, ',');
    var pairs := SplitTopLevel(Trim(elements[0]), ';');
    identity := Presented;
    assert pairs[0..] == pairs;
    for i := 0 to |pairs|
      invariant TakePairs(pairs, Presented) == TakePairs(pairs[i..], identity)
    {
      assert pairs[i..][0] == pairs[i] && pairs[i..][1..] == pairs[i + 1..];
      var kv := SplitOnce(Trim(pairs[i]), '=');
      if kv.Some? {
        var value := Unquote(Trim(kv.value.1));
        if EqIgnoreCase(kv.value.0, "Subject") {
          identity := identity.(subject := value);
        } else if EqIgnoreCase(kv.value.0, "URI") {
          if value != "" {
            identity := identity.(uriSans := identity.uriSans + [value]);
          }
        }
      }
    }
  }

  /** Only the first chain element is read, whatever follows it. */
  lemma OnlyPeerRead(header: string, peer: string)
    requires Trim(header) != "" && Pieces(header, ',', Fresh)[0] == peer
    ensures Parsed(header) == if Trim(peer) == "" then Presented else Parsed(peer)
  {
    PiecesProper(header, ',', Fresh);
    UncutPiece(peer, ',', Fresh);
    if Trim(peer) == "" {
      assert Pieces("", ';', Fresh) == [""];
      assert [""][1..] == [];
      assert SplitOnce("", '=').None?;
    }
  }

  // ----- printing and parsing back -----

  type Pairs = seq<(string, string)>

  /** A key that needs no quoting and no trimming. */
  predicate PlainKey(key: string) {
    forall c :: c in key ==> c != '=' && c != ',' && c != ';' && c != '"' && c != '\\' && !IsSpace(c)
  }

  function PrintPair(pair: (string, string)): string {
    pair.0 + (['='] + Quoted(pair.1))
  }

  function PrintEach(pairs: Pairs): (r: seq<string>)
    ensures |r| == |pairs|
  {
    if pairs == [] then [] else [PrintPair(pairs[0])] + PrintEach(pairs[1..])
  }

  function PrintPairs(pairs: Pairs): string
    requires pairs != []
  {
    Join(PrintEach(pairs), ';')
  }

  /** The identity a list of pairs says: the last subject, the non-empty URIs in order. */
  function Subject(pairs: Pairs): string {
    if pairs == [] then ""
    else if EqIgnoreCase(pairs[|pairs| - 1].0, "Subject") then pairs[|pairs| - 1].1
    else Subject(pairs[..|pairs| - 1])
  }

  function Uris(pairs: Pairs): seq<string> {
    if pairs == [] then []
    else if EqIgnoreCase(pairs[|pairs| - 1].0, "URI") && pairs[|pairs| - 1].1 != ""
    then Uris(pairs[..|pairs| - 1]) + [pairs[|pairs| - 1].1]
    else Uris(pairs[..|pairs| - 1])
  }

  lemma {:induction false} ScanEscaped(s: string, delim: char)
    ensures ScanOver(Escaped(s), Scan(true, false)) == Scan(true, false)
    ensures Uncut(Escaped(s), delim, Scan(true, false))
  {
    if s != "" {
      var e, open := Escaped(s), Scan(true, false);
      ScanEscaped(s[1..], delim);
      if s[0] == '"' || s[0] == '\\' {
        assert e[1..] == [s[0]] + Escaped(s[1..]);
        assert e[1..][1..] == Escaped(s[1..]);
        assert open.Next('\\').Next(s[0]) == open;
      } else {
        assert e[1..] == Escaped(s[1..]);
      }
    }
  }

  lemma ScanQuoted(s: string, delim: char)
    ensures ScanOver(Quoted(s), Fresh) == Fresh && Uncut(Quoted(s), delim, Fresh)
  {
    var q, open := Quoted(s), Scan(true, false);
    ScanEscaped(s, delim);
    ScanConcat(Escaped(s), "\"", delim, open);
    assert "\""[1..] == "";
    assert q[1..] == Escaped(s) + "\"";
    assert Fresh.Next('"') == open && open.Next('"') == Fresh;
  }

  lemma {:induction false} ScanKey(key: string, delim: char)
    requires PlainKey(key) && (delim == ',' || delim == ';')
    ensures ScanOver(key, Fresh) == Fresh && Uncut(key, delim, Fresh)
  {
    if key != "" {
      assert key[0] in key;
      assert forall c :: c in key[1..] ==> c in key;
      ScanKey(key[1..], delim);
    }
  }

  lemma ScanPair(pair: (string, string), delim: char)
    requires PlainKey(pair.0) && (delim == ',' || delim == ';')
    ensures ScanOver(PrintPair(pair), Fresh) == Fresh && Uncut(PrintPair(pair), delim, Fresh)
  {
    var value := ['='] + Quoted(pair.1);
    ScanKey(pair.0, delim);
    ScanQuoted(pair.1, delim);
    assert value[1..] == Quoted(pair.1);
    ScanConcat(pair.0, value, delim, Fresh);
  }

  ghost predicate PlainKeys(pairs: Pairs) {
    forall i :: 0 <= i < |pairs| ==> PlainKey(pairs[i].0)
  }

  lemma {:induction false} ScanPairs(pairs: Pairs)
    requires pairs != [] && PlainKeys(pairs)
    ensures Proper(PrintEach(pairs), ';', Fresh)
    ensures ScanOver(PrintPairs(pairs), Fresh) == Fresh && Uncut(PrintPairs(pairs), ',', Fresh)
  {
    ScanPair(pairs[0], ',');
    ScanPair(pairs[0], ';');
    if |pairs| > 1 {
      ScanPairs(pairs[1..]);
      var rest := [';'] + PrintPairs(pairs[1..]);
      assert rest[1..] == PrintPairs(pairs[1..]);
      ScanConcat(PrintPair(pairs[0]), rest, ',', Fresh);
      assert PrintEach(pairs)[1..] == PrintEach(pairs[1..]);
    }
  }

  lemma TrimTight(s: string)
    requires s != "" && !IsSpace(s[0]) && !IsSpace(s[|s| - 1])
    ensures Trim(s) == s
  {
  }

  lemma PairTight(pair: (string, string))
    requires PlainKey(pair.0)
    ensures var s := PrintPair(pair); s != "" && !IsSpace(s[0]) && !IsSpace(s[|s| - 1])
  {
    var s := PrintPair(pair);
    assert s[|s| - 1] == '"';
    if pair.0 != "" { assert s[0] == pair.0[0] && pair.0[0] in pair.0; }
  }

  lemma {:induction false} PairsTight(pairs: Pairs)
    requires pairs != [] && PlainKeys(pairs)
    ensures var s := PrintPairs(pairs); s != "" && !IsSpace(s[0]) && !IsSpace(s[|s| - 1])
  {
    PairTight(pairs[0]);
    if |pairs| > 1 {
      PairsTight(pairs[1..]);
      var s, rest := PrintPairs(pairs), PrintPairs(pairs[1..]);
      assert s == PrintPair(pairs[0]) + ([';'] + rest);
      assert s[|s| - 1] == rest[|rest| - 1];
      assert s[0] == PrintPair(pairs[0])[0];
    }
  }

  lemma TakePrinted(pair: (string, string), id: Identity)
    requires PlainKey(pair.0)
    ensures TakePair(PrintPair(pair), id) ==
            if EqIgnoreCase(pair.0, "Subject") then id.(subject := pair.1)
            else if EqIgnoreCase(pair.0, "URI") && pair.1 != "" then id.(uriSans := id.uriSans + [pair.1])
            else id
  {
    PairTight(pair);
    TrimTight(PrintPair(pair));
    assert PrintPair(pair) == pair.0 + ['='] + Quoted(pair.1);
    SplitOnceAt(pair.0, '=', Quoted(pair.1));
    var q := Quoted(pair.1);
    assert q[0] == '"' && q[|q| - 1] == '"';
    TrimTight(q);
    UnquoteQuoted(pair.1);
  }

  lemma {:induction false} TakeSnoc(parts: seq<string>, last: string, id: Identity)
    ensures TakePairs(parts + [last], id) == TakePair(last, TakePairs(parts, id))
  {
    if parts == [] {
      assert [] + [last] == [last] && [last][1..] == [];
    } else {
      assert (parts + [last])[1..] == parts[1..] + [last];
      TakeSnoc(parts[1..], last, TakePair(parts[0], id));
    }
  }

  lemma {:induction false} PrintSnoc(pairs: Pairs, last: (string, string))
    ensures PrintEach(pairs + [last]) == PrintEach(pairs) + [PrintPair(last)]
  {
    if pairs == [] {
      assert [] + [last] == [last] && [last][1..] == [];
    } else {
      assert (pairs + [last])[1..] == pairs[1..] + [last];
      PrintSnoc(pairs[1..], last);
    }
  }

  lemma {:induction false} TakeAll(pairs: Pairs)
    requires PlainKeys(pairs)
    ensures TakePairs(PrintEach(pairs), Presented) == Identity(true, Subject(pairs), Uris(pairs))
  {
    if pairs != [] {
      var front, last := pairs[..|pairs| - 1], pairs[|pairs| - 1];
      assert pairs == front + [last];
      TakeAll(front);
      PrintSnoc(front, last);
      TakeSnoc(PrintEach(front), PrintPair(last), Presented);
      TakePrinted(last, Identity(true, Subject(front), Uris(front)));
    }
  }

  /** Printing then parsing: every list of pairs, quoted and escaped, reads back as its last
      subject and its non-empty URIs in order, whatever values they hold and whatever further
      chain elements follow. */
  lemma ParsePrinted(pairs: Pairs, chain: string)
    requires pairs != [] && PlainKeys(pairs)
    requires chain == "" || chain[0] == ','
    ensures Parsed(PrintPairs(pairs) + chain) == Identity(true, Subject(pairs), Uris(pairs))
  {
    var peer := PrintPairs(pairs);
    ScanPairs(pairs);
    PairsTight(pairs);
    if chain == "" {
      assert peer + chain == peer;
      UncutPiece(peer, ',', Fresh);
    } else {
      assert chain == [','] + chain[1..];
      FirstPiece(peer, ',', chain[1..], Fresh);
    }
    assert TrimStart(peer + chain) == peer + chain;
    NotBlank(peer + chain);
    TrimTight(peer);
    ProperPieces(PrintEach(pairs), ';', Fresh);
    TakeAll(pairs);
  }

  lemma {:induction false} NotBlank(s: string)
    requires s != "" && !IsSpace(s[0])
    ensures Trim(s) != ""
  {
    EndNotBlank(s);
  }

  lemma {:induction false} EndNotBlank(s: string)
    requires s != "" && !IsSpace(s[0])
    ensures TrimEnd(s) != ""
    decreases |s|
  {
    if IsSpace(s[|s| - 1]) { EndNotBlank(s[..|s| - 1]); }
  }

  // ----- the identity round trip -----

  function UriPairs(uris: seq<string>): (r: Pairs)
    ensures |r| == |uris| && forall i :: 0 <= i < |uris| ==> r[i] == ("URI", uris[i])
  {
    if uris == [] then [] else [("URI", uris[0])] + UriPairs(uris[1..])
  }

  /** The pairs say this subject and these URIs. */
  predicate Says(pairs: Pairs, subject: string, uris: seq<string>) {
    Subject(pairs) == subject && Uris(pairs) == uris
  }

  lemma {:induction false} UriPairsRead(pairs: Pairs, subject: string, before: seq<string>, uris: seq<string>)
    requires Says(pairs, subject, before) && NonEmptyUris(uris)
    ensures Says(pairs + UriPairs(uris), subject, before + uris)
    decreases uris
  {
    if uris == [] {
      assert pairs + [] == pairs && before + [] == before;
    } else {
      UriSnoc(pairs, subject, before, uris[0]);
      UriPairsRead(pairs + [("URI", uris[0])], subject, before + [uris[0]], uris[1..]);
      UriPairsShift(pairs, uris);
      SnocCons(before, uris[0], uris[1..]);
    }
  }

  predicate NonEmptyUris(uris: seq<string>) {
    forall i :: 0 <= i < |uris| ==> uris[i] != ""
  }

  lemma UriPairsShift(pairs: Pairs, uris: seq<string>)
    requires uris != []
    ensures pairs + UriPairs(uris) == pairs + [("URI", uris[0])] + UriPairs(uris[1..])
    ensures [uris[0]] + uris[1..] == uris
  {
    SnocCons(pairs, ("URI", uris[0]), UriPairs(uris[1..]));
  }

  lemma SnocCons<T>(a: seq<T>, x: T, b: seq<T>)
    ensures a + [x] + b == a + ([x] + b)
  {
  }

  lemma UriSnoc(pairs: Pairs, subject: string, uris: seq<string>, uri: string)
    requires Says(pairs, subject, uris) && uri != ""
    ensures Says(pairs + [("URI", uri)], subject, uris + [uri])
  {
    NamesDiffer();
    assert (pairs + [("URI", uri)])[..|pairs|] == pairs;
  }

  lemma PlainNames()
    ensures PlainKey("URI") && PlainKey("Subject")
  {
  }

  lemma NamesDiffer()
    ensures !EqIgnoreCase("URI", "Subject") && !EqIgnoreCase("Subject", "URI")
    ensures EqIgnoreCase("URI", "URI") && EqIgnoreCase("Subject", "Subject")
  {
    assert |Lower("URI")| != |Lower("Subject")|;
  }

  lemma SubjectPair(subject: string)
    ensures Says([("Subject", subject)], subject, [])
  {
    NamesDiffer();
    var pairs := [("Subject", subject)];
    assert pairs[..0] == [] && pairs[|pairs| - 1] == ("Subject", subject);
  }

  function IdentityPairs(subject: string, uris: seq<string>): (r: Pairs)
    ensures r != []
  {
    [("Subject", subject)] + UriPairs(uris)
  }

  lemma IdentityPairsRead(subject: string, uris: seq<string>)
    requires NonEmptyUris(uris)
    ensures Says(IdentityPairs(subject, uris), subject, uris) && PlainKeys(IdentityPairs(subject, uris))
  {
    SubjectPair(subject);
    UriPairsRead([("Subject", subject)], subject, [], uris);
    assert [] + uris == uris;
    PlainNames();
  }

  /** A subject and any list of non-empty URIs come back exactly, in order. */
  lemma IdentityRoundTrip(subject: string, uris: seq<string>, chain: string)
    requires NonEmptyUris(uris)
    requires chain == "" || chain[0] == ','
    ensures Parsed(PrintPairs(IdentityPairs(subject, uris)) + chain) == Identity(true, subject, uris)
  {
    IdentityPairsRead(subject, uris);
    ParsePrinted(IdentityPairs(subject, uris), chain);
  }
}
