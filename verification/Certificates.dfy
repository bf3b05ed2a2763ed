/** Certificate headers as proxies really write them: values quoted or bare, blanks around pairs and
    behind the equals sign, keys in any case, keys this service does not know, a chain behind. */
module Certificates {
  import opened Common
  import opened Adapter
  import opened Xfcc

  predicate Blank(s: string) {
    forall i :: 0 <= i < |s| ==> IsSpace(s[i])
  }

  /** No character means anything to the scan. */
  predicate Calm(s: string) {
    forall c :: c in s ==> c != ',' && c != ';' && c != '"' && c != '\\'
  }

  /** A value that needs no quotes. */
  predicate Bare(value: string) {
    Calm(value) && (value != "" ==> !IsSpace(value[0]) && !IsSpace(value[|value| - 1]))
  }

  /** One pair as it is written. */
  datatype Written = Written(before: string, key: string, gap: string, value: string, quoted: bool, behind: string)

  predicate WellWritten(w: Written) {
    && Blank(w.before) && Blank(w.gap) && Blank(w.behind)
    && w.key != "" && PlainKey(w.key) && (!w.quoted ==> Bare(w.value))
  }

  function ValueText(w: Written): string {
    if w.quoted then Quoted(w.value) else w.value
  }

  function Text(w: Written): string {
    w.before + (w.key + (['='] + (w.gap + (ValueText(w) + w.behind))))
  }

  function Texts(ws: seq<Written>): (r: seq<string>)
    ensures |r| == |ws| && forall i :: 0 <= i < |ws| ==> r[i] == Text(ws[i])
  {
    if ws == [] then [] else [Text(ws[0])] + Texts(ws[1..])
  }

  /** What the pairs say, whatever the writing. */
  function Meant(ws: seq<Written>): (r: Pairs)
    ensures |r| == |ws| && forall i :: 0 <= i < |ws| ==> r[i] == (ws[i].key, ws[i].value)
  {
    if ws == [] then [] else [(ws[0].key, ws[0].value)] + Meant(ws[1..])
  }

  // ----- trimming -----

  lemma {:induction false} TrimStartBlank(pad: string, s: string)
    requires Blank(pad)
    ensures TrimStart(pad + s) == TrimStart(s)
  {
    if pad == "" {
      assert pad + s == s;
    } else {
      assert (pad + s)[1..] == pad[1..] + s;
      TrimStartBlank(pad[1..], s);
    }
  }

  lemma {:induction false} TrimEndBlank(s: string, pad: string)
    requires Blank(pad)
    ensures TrimEnd(s + pad) == TrimEnd(s)
    decreases |pad|
  {
    if pad == "" {
      assert s + pad == s;
    } else {
      assert (s + pad)[..|s + pad| - 1] == s + pad[..|pad| - 1];
      TrimEndBlank(s, pad[..|pad| - 1]);
    }
  }

  predicate Tight(s: string) {
    s != "" && !IsSpace(s[0]) && !IsSpace(s[|s| - 1])
  }

  lemma TrimPads(before: string, s: string, behind: string)
    requires Blank(before) && Blank(behind) && Tight(s)
    ensures Trim(before + (s + behind)) == s
  {
    TrimStartBlank(before, s + behind);
    assert TrimStart(s + behind) == s + behind;
    TrimEndBlank(s, behind);
    assert TrimEnd(s) == s;
  }

  lemma TrimBlank(pad: string)
    requires Blank(pad)
    ensures Trim(pad) == ""
  {
    TrimStartBlank(pad, "");
    assert pad + "" == pad;
  }

  // ----- one pair -----

  /** A value behind its gap, its own blanks trimmed, is what it says. */
  lemma ValueRead(w: Written)
    requires WellWritten(w)
    ensures Unescaped(StripQuotes(Trim(w.gap + (ValueText(w) + w.behind))), false) == w.value
  {
    if w.quoted {
      var q := Quoted(w.value);
      assert q[0] == '"' && q[|q| - 1] == '"';
      TrimPads(w.gap, q, w.behind);
      UnquoteQuoted(w.value);
    } else if w.value == "" {
      assert w.gap + ("" + w.behind) == w.gap + w.behind;
      TrimBlank(w.gap + w.behind);
    } else {
      TrimPads(w.gap, w.value, w.behind);
      assert w.value[0] in w.value;
      UnescapedSame(w.value);
    }
  }

  /** What stands before and behind the pair's own text. */
  lemma Regrouped(w: Written)
    ensures w.key + (['='] + (w.gap + (ValueText(w) + w.behind))) == w.key + ['='] + (w.gap + ValueText(w)) + w.behind
    ensures ValueText(w) == "" ==>
              w.key + ['='] + (w.gap + ValueText(w)) + w.behind == w.key + ['='] + (w.gap + w.behind)
  {
  }

  lemma LastOf(a: string, b: string)
    requires b != ""
    ensures (a + b)[|a + b| - 1] == b[|b| - 1]
  {
  }

  /** The text of a pair without the blanks at its ends, and what stands behind its equals sign. */
  function Rest(w: Written): string {
    if ValueText(w) == "" then "" else w.gap + ValueText(w)
  }

  lemma TextTrimmed(w: Written)
    requires WellWritten(w)
    ensures Trim(Text(w)) == w.key + ['='] + Rest(w)
  {
    assert w.key[0] in w.key;
    var whole := w.key + ['='];
    TrimStartBlank(w.before, w.key + (['='] + (w.gap + (ValueText(w) + w.behind))));
    Regrouped(w);
    if ValueText(w) == "" {
      TrimEndBlank(whole, w.gap + w.behind);
      assert whole + "" == whole;
    } else {
      ValueTight(w);
      LastOf(whole, w.gap + ValueText(w));
      LastOf(w.gap, ValueText(w));
      TrimEndBlank(whole + (w.gap + ValueText(w)), w.behind);
    }
  }

  lemma RestTrimmed(w: Written)
    requires WellWritten(w)
    ensures Trim(Rest(w)) == Trim(w.gap + (ValueText(w) + w.behind))
  {
    if ValueText(w) == "" {
      assert w.gap + ("" + w.behind) == w.gap + w.behind;
      TrimBlank(w.gap + w.behind);
    } else {
      ValueTight(w);
      TrimPads(w.gap, ValueText(w), "");
      TrimPads(w.gap, ValueText(w), w.behind);
      assert ValueText(w) + "" == ValueText(w);
    }
  }

  lemma ValueTight(w: Written)
    requires WellWritten(w) && ValueText(w) != ""
    ensures Tight(ValueText(w))
  {
    if w.quoted {
      var q := Quoted(w.value);
      assert q[0] == '"' && q[|q| - 1] == '"';
    }
  }

  /** So a written pair is taken as the pair it means. */
  lemma TakeWritten(w: Written, id: Identity)
    requires WellWritten(w)
    ensures TakePair(Text(w), id) == TakePair(PrintPair((w.key, w.value)), id)
  {
    TextTrimmed(w);
    RestTrimmed(w);
    assert Free(w.key, '=');
    SplitOnceAt(w.key, '=', Rest(w));
    ValueRead(w);
    TakePrinted((w.key, w.value), id);
  }

  // ----- the scan -----

  lemma {:induction false} ScanCalm(s: string, delim: char)
    requires Calm(s) && (delim == ',' || delim == ';')
    ensures ScanOver(s, Fresh) == Fresh && Uncut(s, delim, Fresh)
  {
    if s != "" {
      assert s[0] in s;
      assert forall c :: c in s[1..] ==> c in s;
      ScanCalm(s[1..], delim);
    }
  }

  lemma BlankCalm(s: string)
    requires Blank(s)
    ensures Calm(s)
  {
    forall c | c in s ensures c != ',' && c != ';' && c != '"' && c != '\\' {
      var i :| 0 <= i < |s| && s[i] == c;
    }
  }

  /** Two texts that leave the scan fresh and uncut, one behind the other. */
  lemma ScanBoth(a: string, b: string, delim: char)
    requires ScanOver(a, Fresh) == Fresh && Uncut(a, delim, Fresh)
    requires ScanOver(b, Fresh) == Fresh && Uncut(b, delim, Fresh)
    ensures ScanOver(a + b, Fresh) == Fresh && Uncut(a + b, delim, Fresh)
  {
    ScanConcat(a, b, delim, Fresh);
  }

  lemma ScanValue(w: Written, delim: char)
    requires WellWritten(w) && (delim == ',' || delim == ';')
    ensures ScanOver(ValueText(w), Fresh) == Fresh && Uncut(ValueText(w), delim, Fresh)
  {
    if w.quoted { ScanQuoted(w.value, delim); } else { ScanCalm(w.value, delim); }
  }

  lemma ScanWritten(w: Written, delim: char)
    requires WellWritten(w) && (delim == ',' || delim == ';')
    ensures ScanOver(Text(w), Fresh) == Fresh && Uncut(Text(w), delim, Fresh)
  {
    BlankCalm(w.before);
    BlankCalm(w.gap);
    BlankCalm(w.behind);
    ScanCalm(w.before, delim);
    ScanKey(w.key, delim);
    ScanCalm(['='], delim);
    ScanCalm(w.gap, delim);
    ScanValue(w, delim);
    ScanCalm(w.behind, delim);
    ScanBoth(ValueText(w), w.behind, delim);
    ScanBoth(w.gap, ValueText(w) + w.behind, delim);
    ScanBoth(['='], w.gap + (ValueText(w) + w.behind), delim);
    ScanBoth(w.key, ['='] + (w.gap + (ValueText(w) + w.behind)), delim);
    ScanBoth(w.before, w.key + (['='] + (w.gap + (ValueText(w) + w.behind))), delim);
  }

  predicate AllWritten(ws: seq<Written>) {
    forall i :: 0 <= i < |ws| ==> WellWritten(ws[i])
  }

  lemma {:induction false} ScanAll(ws: seq<Written>)
    requires ws != [] && AllWritten(ws)
    ensures Proper(Texts(ws), ';', Fresh)
    ensures ScanOver(Join(Texts(ws), ';'), Fresh) == Fresh && Uncut(Join(Texts(ws), ';'), ',', Fresh)
  {
    ScanWritten(ws[0], ',');
    ScanWritten(ws[0], ';');
    if |ws| > 1 {
      ScanAll(ws[1..]);
      assert Texts(ws)[1..] == Texts(ws[1..]);
      var rest := [';'] + Join(Texts(ws[1..]), ';');
      assert rest[1..] == Join(Texts(ws[1..]), ';');
      ScanConcat(Text(ws[0]), rest, ',', Fresh);
    }
  }

  // ----- the whole header -----

  lemma {:induction false} TakeMeant(ws: seq<Written>, id: Identity)
    requires AllWritten(ws)
    ensures TakePairs(Texts(ws), id) == TakePairs(PrintEach(Meant(ws)), id)
    decreases ws
  {
    if ws != [] {
      TakeWritten(ws[0], id);
      assert Texts(ws)[1..] == Texts(ws[1..]);
      assert Meant(ws)[1..] == Meant(ws[1..]);
      assert PrintEach(Meant(ws))[1..] == PrintEach(Meant(ws[1..]));
      TakeMeant(ws[1..], TakePair(Text(ws[0]), id));
    }
  }

  lemma MeantPlain(ws: seq<Written>)
    requires AllWritten(ws)
    ensures PlainKeys(Meant(ws))
  {
    forall i | 0 <= i < |ws| ensures PlainKey(Meant(ws)[i].0) { assert WellWritten(ws[i]); }
  }

  lemma JoinMore(ws: seq<Written>)
    requires |ws| > 1
    ensures Join(Texts(ws), ';') == Text(ws[0]) + ([';'] + Join(Texts(ws[1..]), ';'))
  {
    assert Texts(ws)[1..] == Texts(ws[1..]);
  }

  lemma JoinEnds(ws: seq<Written>)
    requires ws != [] && AllWritten(ws)
    requires ws[0].before == "" && ws[|ws| - 1].behind == "" && ValueText(ws[|ws| - 1]) != ""
    ensures Tight(Join(Texts(ws), ';'))
  {
    FirstTight(ws[0]);
    LastOfJoin(ws);
    if |ws| > 1 { JoinMore(ws); }
  }

  lemma FirstTight(w: Written)
    requires WellWritten(w) && w.before == ""
    ensures Text(w) != "" && !IsSpace(Text(w)[0])
  {
    assert w.key[0] in w.key;
    assert Text(w)[0] == w.key[0];
  }

  lemma LastTight(w: Written)
    requires WellWritten(w) && w.behind == "" && ValueText(w) != ""
    ensures Text(w) != "" && !IsSpace(Text(w)[|Text(w)| - 1])
  {
    ValueTight(w);
    assert Text(w)[|Text(w)| - 1] == ValueText(w)[|ValueText(w)| - 1];
  }

  lemma {:induction false} LastOfJoin(ws: seq<Written>)
    requires ws != [] && AllWritten(ws) && ws[|ws| - 1].behind == "" && ValueText(ws[|ws| - 1]) != ""
    ensures var s := Join(Texts(ws), ';'); s != "" && !IsSpace(s[|s| - 1])
  {
    if |ws| == 1 {
      LastTight(ws[0]);
    } else {
      LastOfJoin(ws[1..]);
      JoinMore(ws);
      LastOf([';'], Join(Texts(ws[1..]), ';'));
      LastOf(Text(ws[0]), [';'] + Join(Texts(ws[1..]), ';'));
    }
  }

  /** The peer's element: its pairs, with blanks around the whole. */
  function Element(pad: string, ws: seq<Written>, tail: string): string
    requires ws != []
  {
    pad + (Join(Texts(ws), ';') + tail)
  }

  lemma PeerPiece(pad: string, ws: seq<Written>, tail: string, chain: string)
    requires ws != [] && AllWritten(ws) && Blank(pad) && Blank(tail) && (chain == "" || chain[0] == ',')
    ensures Pieces(Element(pad, ws, tail) + chain, ',', Fresh)[0] == Element(pad, ws, tail)
  {
    var peer := Element(pad, ws, tail);
    ScanAll(ws);
    BlankCalm(pad);
    BlankCalm(tail);
    ScanCalm(pad, ',');
    ScanCalm(tail, ',');
    ScanBoth(Join(Texts(ws), ';'), tail, ',');
    ScanBoth(pad, Join(Texts(ws), ';') + tail, ',');
    if chain == "" {
      assert peer + chain == peer;
      UncutPiece(peer, ',', Fresh);
    } else {
      assert chain == [','] + chain[1..];
      FirstPiece(peer, ',', chain[1..], Fresh);
    }
  }

  lemma {:induction false} NotAllBlank(a: string, b: string, c: char)
    requires !IsSpace(c)
    ensures Trim(a + ([c] + b)) != ""
  {
    if a == "" {
      assert a + ([c] + b) == [c] + b;
      TrimEndKeepsHead([c] + b);
    } else if IsSpace(a[0]) {
      assert (a + ([c] + b))[1..] == a[1..] + ([c] + b);
      NotAllBlank(a[1..], b, c);
    } else {
      TrimEndKeepsHead(a + ([c] + b));
    }
  }

  lemma {:induction false} TrimEndKeepsHead(s: string)
    requires s != "" && !IsSpace(s[0])
    ensures TrimEnd(s) != ""
    decreases |s|
  {
    if IsSpace(s[|s| - 1]) { TrimEndKeepsHead(s[..|s| - 1]); }
  }

  lemma {:induction false} UrisNotEmpty(pairs: Pairs)
    ensures NonEmptyUris(Uris(pairs))
  {
    if pairs != [] { UrisNotEmpty(pairs[..|pairs| - 1]); }
  }

  /** The header is this first element and a chain behind it; blanks at the element's ends are its
      own. */
  predicate IsWritten(header: string, pad: string, ws: seq<Written>, tail: string, chain: string) {
    && ws != [] && AllWritten(ws) && Blank(pad) && Blank(tail) && (chain == "" || chain[0] == ',')
    && ws[0].before == "" && ws[|ws| - 1].behind == "" && ValueText(ws[|ws| - 1]) != ""
    && header == Element(pad, ws, tail) + chain
  }

  /** Every header whose first element is written like this says the last subject and the non-empty
      URIs in order, whatever the writing, the keys it does not know and the chain behind. */
  lemma WrittenRead(header: string, pad: string, ws: seq<Written>, tail: string, chain: string)
    requires IsWritten(header, pad, ws, tail, chain)
    ensures Parsed(header) == Identity(true, Subject(Meant(ws)), Uris(Meant(ws)))
  {
    var peer := Join(Texts(ws), ';');
    JoinEnds(ws);
    PeerPiece(pad, ws, tail, chain);
    TrimPads(pad, peer, tail);
    ElementNotBlank(pad, peer, tail, chain);
    ScanAll(ws);
    ProperPieces(Texts(ws), ';', Fresh);
    TakeMeant(ws, Presented);
    MeantPlain(ws);
    TakeAll(Meant(ws));
  }

  lemma ElementNotBlank(pad: string, peer: string, tail: string, chain: string)
    requires Tight(peer)
    ensures Trim(pad + (peer + tail) + chain) != ""
  {
    NotAllBlank(pad, peer[1..] + tail + chain, peer[0]);
    assert pad + (peer + tail) + chain == pad + ([peer[0]] + (peer[1..] + tail + chain));
  }
}
