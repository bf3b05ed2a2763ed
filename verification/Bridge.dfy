/** The capture bridge (examples/capture-bridge/src/main.rs): it reads one mirrored HTTP/1.1
    request from a socket that delivers it in arbitrary pieces, and forwards its path and
    body. Bytes are characters here. */
module Bridge {
  import opened Common

  const BLANK := "\r\n\r\n"

  /** The pieces a reader still gets, one a read; an empty read means the peer has closed. */
  class Socket {
    var chunks: seq<string>

    constructor (chunks: seq<string>)
      ensures this.chunks == chunks
    {
      this.chunks := chunks;
    }

    method Read() returns (data: string)
      requires NonEmptyChunks(chunks)
      modifies this
      ensures old(chunks) == [] ==> data == "" && chunks == []
      ensures old(chunks) != [] ==> data == old(chunks)[0] && chunks == old(chunks)[1..]
    {
      if chunks == [] {
        data := "";
      } else {
        data := chunks[0];
        chunks := chunks[1..];
      }
    }
  }

  predicate NonEmptyChunks(chunks: seq<string>) {
    forall i :: 0 <= i < |chunks| ==> chunks[i] != ""
  }

  function Concat(chunks: seq<string>): string {
    if chunks == [] then "" else Concat(chunks[..|chunks| - 1]) + chunks[|chunks| - 1]
  }

  /** What the first n reads deliver. */
  function Read(chunks: seq<string>, n: nat): string
    requires n <= |chunks|
  {
    Concat(chunks[..n])
  }

  lemma ReadNext(chunks: seq<string>, n: nat)
    requires n < |chunks|
    ensures Read(chunks, n + 1) == Read(chunks, n) + chunks[n]
  {
    assert chunks[..n + 1][..n] == chunks[..n];
  }

  lemma {:induction false} ReadPrefix(chunks: seq<string>, m: nat, n: nat)
    requires m <= n <= |chunks|
    ensures Read(chunks, m) <= Read(chunks, n)
  {
    if m < n {
      ReadPrefix(chunks, m, n - 1);
      ReadNext(chunks, n - 1);
    }
  }

  lemma ReadAll(chunks: seq<string>)
    ensures Read(chunks, |chunks|) == Concat(chunks)
  {
    assert chunks[..|chunks|] == chunks;
  }

  // ----- finding the end of the head -----

  predicate At(s: string, needle: string, i: nat) {
    i + |needle| <= |s| && s[i..i + |needle|] == needle
  }

  /** `i` is the first place the needle stands at. */
  predicate First(s: string, needle: string, i: nat) {
    At(s, needle, i) && forall k :: 0 <= k < i ==> !At(s, needle, k)
  }

  function Find(s: string, needle: string): (r: Option<nat>)
    ensures r.Some? ==> First(s, needle, r.value)
    ensures r.None? ==> forall k :: 0 <= k ==> !At(s, needle, k)
  {
    FindFrom(s, needle, 0)
  }

  function FindFrom(s: string, needle: string, i: nat): (r: Option<nat>)
    requires i <= |s| && forall k :: 0 <= k < i ==> !At(s, needle, k)
    ensures r.Some? ==> First(s, needle, r.value)
    ensures r.None? ==> forall k :: 0 <= k ==> !At(s, needle, k)
    decreases |s| - i
  {
    if At(s, needle, i) then Some(i) else if i == |s| then None else FindFrom(s, needle, i + 1)
  }

  /** More bytes never move a marker that was found, and one found in the longer text that
      ends inside the shorter is found there. */
  lemma FindPrefix(s: string, t: string, needle: string)
    requires s <= t
    ensures Find(s, needle).Some? ==> Find(t, needle) == Find(s, needle)
    ensures Find(t, needle).Some? && Find(t, needle).value + |needle| <= |s| ==> Find(s, needle) == Find(t, needle)
  {
    if Find(s, needle).Some? {
      var i := Find(s, needle).value;
      AtPrefix(s, t, needle, i);
      var j := Find(t, needle).value;
      if j < i { AtPrefix(s, t, needle, j); }
    } else if Find(t, needle).Some? && Find(t, needle).value + |needle| <= |s| {
      AtPrefix(s, t, needle, Find(t, needle).value);
    }
  }

  lemma AtPrefix(s: string, t: string, needle: string, i: nat)
    requires s <= t && i + |needle| <= |s|
    ensures At(s, needle, i) <==> At(t, needle, i)
  {
    assert s[i..i + |needle|] == t[i..i + |needle|];
  }

  // ----- the head -----

  function StripCr(line: string): string {
    if line != "" && line[|line| - 1] == '\r' then line[..|line| - 1] else line
  }

  /** The lines of a text; an unterminated last line counts, an empty one does not. */
  function TextLines(s: string): seq<string>
    decreases |s|
  {
    match SplitOnce(s, '\n')
    case None => if s == "" then [] else [s]
    case Some(r) => [StripCr(r.0)] + TextLines(r.1)
  }

  function UntilSpace(s: string): (r: string)
    ensures r <= s
  {
    if s == "" || IsSpace(s[0]) then "" else [s[0]] + UntilSpace(s[1..])
  }

  /** The second white-space separated word. */
  function SecondWord(line: string): Option<string> {
    var first := TrimStart(line);
    var rest := TrimStart(first[|UntilSpace(first)|..]);
    if rest == "" then None else Some(UntilSpace(rest))
  }

  function RequestPath(head: string): string {
    var lines := TextLines(head);
    if lines == [] then "/" else
      var word := SecondWord(lines[0]);
      if word.Some? then word.value else "/"
  }

  const USIZE_LIMIT := 0x1_0000_0000_0000_0000

  /** A 64-bit unsigned number with an optional plus sign. */
  function ParseUsize(s: string): Option<nat> {
    var digits := if s != "" && s[0] == '+' then s[1..] else s;
    if digits == "" || !IsDigits(digits) || Value(digits) >= USIZE_LIMIT then None else Some(Value(digits))
  }

  /** The first content-length line that holds a number; zero when there is none. */
  function ContentLength(lines: seq<string>): nat {
    var n := FirstSome(Lengths(lines));
    if n.Some? then n.value else 0
  }

  function Lengths(lines: seq<string>): seq<Option<nat>> {
    if lines == [] then [] else [LengthLine(lines[0])] + Lengths(lines[1..])
  }

  function FirstSome<T>(xs: seq<Option<T>>): Option<T> {
    if xs == [] then None else if xs[0].Some? then xs[0] else FirstSome(xs[1..])
  }

  function LengthLine(line: string): Option<nat> {
    match SplitOnce(line, ':')
    case None => None
    case Some(kv) => if EqIgnoreCase(kv.0, "content-length") then ParseUsize(Trim(kv.1)) else None
  }

  function BodyLength(head: string): nat {
    ContentLength(TextLines(head))
  }

  /** A 64-bit number in decimal digits, behind at most one plus sign. */
  ghost predicate IsNumber(s: string, n: nat) {
    exists digits :: (s == digits || s == ['+'] + digits) && digits != "" && IsDigits(digits)
                     && Value(digits) == n && n < USIZE_LIMIT
  }

  lemma NumberIff(s: string, n: nat)
    ensures ParseUsize(s) == Some(n) <==> IsNumber(s, n)
  {
    if digits :| (s == digits || s == ['+'] + digits) && digits != "" && IsDigits(digits)
                 && Value(digits) == n && n < USIZE_LIMIT
    {
      if s == digits { assert s[0] != '+'; } else { assert s[1..] == digits; }
    }
    if ParseUsize(s) == Some(n) && s[0] == '+' { assert s == ['+'] + s[1..]; }
  }

  /** A header line declares a length exactly when its name, up to the first colon, is this one in
      any case and its trimmed value is a number. */
  lemma LengthLineIff(line: string, n: nat)
    ensures LengthLine(line) == Some(n) <==>
            exists key, value :: Free(key, ':') && line == key + [':'] + value
                                 && EqIgnoreCase(key, "content-length") && IsNumber(Trim(value), n)
  {
    if key, value :| Free(key, ':') && line == key + [':'] + value
                     && EqIgnoreCase(key, "content-length") && IsNumber(Trim(value), n)
    {
      SplitOnceAt(key, ':', value);
      NumberIff(Trim(value), n);
    }
    if LengthLine(line) == Some(n) {
      var kv := SplitOnce(line, ':').value;
      NumberIff(Trim(kv.1), n);
      assert line == kv.0 + [':'] + kv.1;
    }
  }

  /** The first line that declares a length counts; without one the length is zero. */
  lemma {:induction false} FirstLengthCounts(lines: seq<string>, i: nat)
    requires i <= |lines| && forall j :: 0 <= j < i ==> LengthLine(lines[j]).None?
    ensures i < |lines| && LengthLine(lines[i]).Some? ==> ContentLength(lines) == LengthLine(lines[i]).value
    ensures i == |lines| ==> ContentLength(lines) == 0
  {
    if i > 0 {
      FirstLengthCounts(lines[1..], i - 1);
      assert ([None] + Lengths(lines[1..]))[1..] == Lengths(lines[1..]);
    }
  }

  // ----- one connection -----

  /** The record of one connection: path and body. */
  type Record = (string, string)

  /** After `n` reads the head is complete, and the body is complete or the peer has closed;
      after fewer reads it was not so. */
  ghost predicate ReadsNeeded(chunks: seq<string>, n: nat, pos: nat, length: nat) {
    && n <= |chunks| && First(Read(chunks, n), BLANK, pos)
    && (|Read(chunks, n)| >= pos + 4 + length || n == |chunks|)
    && forall m :: 0 <= m < n ==> |Read(chunks, m)| < pos + 4 + length
  }

  /** Reads until the head is complete; None when the peer closes before. */
  method ReadHead(sock: Socket) returns (buf: string, found: Option<nat>, ghost n: nat)
    requires NonEmptyChunks(sock.chunks)
    modifies sock
    ensures n <= |old(sock.chunks)| && sock.chunks == old(sock.chunks)[n..]
    ensures buf == Read(old(sock.chunks), n) && found == Find(buf, BLANK)
    ensures found.None? ==> n == |old(sock.chunks)|
    ensures forall m :: 0 <= m < n ==> Find(Read(old(sock.chunks), m), BLANK).None?
  {
    ghost var all := sock.chunks;
    n := 0;
    buf := "";
    found := Find(buf, BLANK);
    while found.None?
      invariant n <= |all| && sock.chunks == all[n..] && NonEmptyChunks(sock.chunks)
      invariant buf == Read(all, n) && found == Find(buf, BLANK)
      invariant forall m :: 0 <= m < n ==> Find(Read(all, m), BLANK).None?
      decreases |all| - n
    {
      var data := sock.Read();
      if data == "" {
        return;
      }
      ReadNext(all, n);
      buf := buf + data;
      n := n + 1;
      found := Find(buf, BLANK);
    }
  }

  /** Reads until the body has the declared length or the peer closes. */
  method ReadBody(sock: Socket, start: string, length: nat, ghost all: seq<string>, ghost before: nat, ghost pos: nat)
    returns (body: string, ghost n: nat)
    requires before <= |all| && sock.chunks == all[before..] && NonEmptyChunks(sock.chunks)
    requires pos + 4 <= |Read(all, before)| && start == Read(all, before)[pos + 4..]
    requires forall m :: 0 <= m < before ==> |Read(all, m)| < pos + 4 + length
    modifies sock
    ensures before <= n <= |all| && pos + 4 <= |Read(all, n)| && body == Read(all, n)[pos + 4..]
    ensures |Read(all, n)| >= pos + 4 + length || n == |all|
    ensures forall m :: 0 <= m < n ==> |Read(all, m)| < pos + 4 + length
  {
    body := start;
    n := before;
    while |body| < length
      invariant before <= n <= |all| && sock.chunks == all[n..] && NonEmptyChunks(sock.chunks)
      invariant pos + 4 <= |Read(all, n)| && body == Read(all, n)[pos + 4..]
      invariant forall m :: 0 <= m < n ==> |Read(all, m)| < pos + 4 + length
      decreases |all| - n
    {
      var data := sock.Read();
      if data == "" {
        break;
      }
      ReadNext(all, n);
      body := body + data;
      n := n + 1;
    }
  }

  /** What one connection forwards of everything its socket delivers. */
  ghost predicate Forwards(chunks: seq<string>, record: Option<Record>) {
    match Find(Concat(chunks), BLANK)
    case None => record == None
    case Some(pos) =>
      && pos + 4 <= |Concat(chunks)| && record.Some?
      && record.value.0 == RequestPath(Concat(chunks)[..pos])
      && exists n :: ReadsNeeded(chunks, n, pos, BodyLength(Concat(chunks)[..pos]))
                     && record.value.1 == Read(chunks, n)[pos + 4..]
  }

  method Handle(sock: Socket) returns (record: Option<Record>)
    requires NonEmptyChunks(sock.chunks)
    modifies sock
    ensures Forwards(old(sock.chunks), record)
  {
    ghost var all := sock.chunks;
    var buf, found, before := ReadHead(sock);
    HeadStable(all, before);
    if found.None? {
      return None;
    }
    var path := RequestPath(buf[..found.value]);
    var length := BodyLength(buf[..found.value]);
    HeadsUnread(all, before, found.value, length);
    var body, n := ReadBody(sock, buf[found.value + 4..], length, all, before, found.value);
    FirstGrows(all, before, n, found.value);
    assert ReadsNeeded(all, n, found.value, length);
    record := Some((path, body));
  }

  /** The head ends where the whole stream's first blank line is. */
  lemma HeadStable(chunks: seq<string>, n: nat)
    requires n <= |chunks|
    ensures n == |chunks| ==> Read(chunks, n) == Concat(chunks)
    ensures Find(Read(chunks, n), BLANK).Some? ==>
              var pos := Find(Read(chunks, n), BLANK).value;
              && Find(Concat(chunks), BLANK) == Some(pos)
              && pos + 4 <= |Concat(chunks)| && Concat(chunks)[..pos] == Read(chunks, n)[..pos]
  {
    ReadAll(chunks);
    ReadPrefix(chunks, n, |chunks|);
    FindPrefix(Read(chunks, n), Concat(chunks), BLANK);
  }

  lemma HeadsUnread(chunks: seq<string>, n: nat, pos: nat, length: nat)
    requires n <= |chunks| && Find(Concat(chunks), BLANK) == Some(pos)
    requires forall m :: 0 <= m < n ==> Find(Read(chunks, m), BLANK).None?
    ensures forall m :: 0 <= m < n ==> |Read(chunks, m)| < pos + 4 + length
  {
    forall m | 0 <= m < n ensures |Read(chunks, m)| < pos + 4 + length {
      HeadUnread(chunks, m, pos);
    }
  }

  lemma FirstGrows(chunks: seq<string>, m: nat, n: nat, pos: nat)
    requires m <= n <= |chunks| && First(Read(chunks, m), BLANK, pos)
    ensures First(Read(chunks, n), BLANK, pos)
  {
    ReadPrefix(chunks, m, n);
    forall k | 0 <= k <= pos ensures At(Read(chunks, n), BLANK, k) <==> At(Read(chunks, m), BLANK, k) {
      AtPrefix(Read(chunks, m), Read(chunks, n), BLANK, k);
    }
  }

  lemma HeadUnread(chunks: seq<string>, m: nat, pos: nat)
    requires m <= |chunks| && Find(Read(chunks, m), BLANK).None? && Find(Concat(chunks), BLANK) == Some(pos)
    ensures |Read(chunks, m)| < pos + 4
  {
    ReadAll(chunks);
    ReadPrefix(chunks, m, |chunks|);
    FindPrefix(Read(chunks, m), Concat(chunks), BLANK);
  }

  // ----- what the pieces do not change -----

  /** A complete request with a correct length: however the stream is cut, the connection
      forwards everything after the first blank line as the body. */
  lemma ChunkingIndependent(chunks: seq<string>, n: nat, pos: nat, length: nat)
    requires Find(Concat(chunks), BLANK) == Some(pos) && |Concat(chunks)| == pos + 4 + length
    requires ReadsNeeded(chunks, n, pos, length)
    ensures Read(chunks, n)[pos + 4..] == Concat(chunks)[pos + 4..]
  {
    ReadAll(chunks);
    ReadPrefix(chunks, n, |chunks|);
  }

  /** With further bytes behind the request, the body is exactly the declared bytes if and only
      if some read ends where the request ends. */
  lemma ExactBodyIff(chunks: seq<string>, n: nat, pos: nat, length: nat)
    requires Find(Concat(chunks), BLANK) == Some(pos) && |Concat(chunks)| >= pos + 4 + length
    requires ReadsNeeded(chunks, n, pos, length)
    ensures Read(chunks, n)[pos + 4..] == Concat(chunks)[pos + 4..pos + 4 + length]
            <==> exists k :: 0 <= k <= |chunks| && |Read(chunks, k)| == pos + 4 + length
  {
    ReadAll(chunks);
    ReadPrefix(chunks, n, |chunks|);
    forall k | 0 <= k <= |chunks| && |Read(chunks, k)| == pos + 4 + length
      ensures |Read(chunks, n)| == pos + 4 + length
    {
      ReadPrefix(chunks, if n <= k then n else k, if n <= k then k else n);
    }
    assert Read(chunks, n) == Concat(chunks)[..|Read(chunks, n)|];
  }

  // ----- a printed request -----

  /** A line of the head: it is not empty and holds no line break. */
  predicate HeadLine(line: string) {
    line != "" && Free(line, '\r') && Free(line, '\n')
  }

  /** Lines joined by CRLF, ended by a blank line, and the body. */
  function PrintLines(lines: seq<string>, body: string): string {
    if lines == [] then "\r\n" + body else lines[0] + ("\r\n" + PrintLines(lines[1..], body))
  }

  function HeadText(lines: seq<string>): string
    requires lines != []
  {
    if |lines| == 1 then lines[0] else lines[0] + ("\r\n" + HeadText(lines[1..]))
  }

  lemma {:induction false} PrintSplit(lines: seq<string>, body: string)
    requires lines != []
    ensures PrintLines(lines, body) == HeadText(lines) + BLANK + body
  {
    if |lines| == 1 {
      assert "\r\n" + ("\r\n" + body) == BLANK + body;
    } else {
      PrintSplit(lines[1..], body);
    }
  }

  lemma NotAt(s: string, k: nat, j: nat)
    requires j < 4 && k + j < |s| && s[k + j] != BLANK[j]
    ensures !At(s, BLANK, k)
  {
    if k + 4 <= |s| { assert s[k..k + 4][j] == s[k + j]; }
  }

  /** No blank line starts inside a line that is followed by another. */
  lemma LineNoBlank(line: string, rest: string, k: nat)
    requires HeadLine(line) && rest != "" && rest[0] != '\r' && k < |line| + 2
    ensures !At(line + ("\r\n" + rest), BLANK, k)
  {
    var s := line + ("\r\n" + rest);
    if k < |line| {
      assert s[k] == line[k] && line[k] in line;
      NotAt(s, k, 0);
    } else if k == |line| {
      assert s[k + 2] == rest[0];
      NotAt(s, k, 2);
    } else {
      NotAt(s, k, 0);
    }
  }

  lemma LastNoBlank(line: string, body: string, k: nat)
    requires HeadLine(line) && k < |line|
    ensures !At(line + (BLANK + body), BLANK, k)
  {
    var s := line + (BLANK + body);
    assert s[k] == line[k] && line[k] in line;
    NotAt(s, k, 0);
  }

  lemma AtShift(a: string, s: string, k: nat)
    requires k >= |a|
    ensures At(a + s, BLANK, k) <==> At(s, BLANK, k - |a|)
  {
    if k + 4 <= |a| + |s| {
      assert (a + s)[k..k + 4] == s[k - |a|..k - |a| + 4];
    }
  }

  lemma {:induction false} HeadFound(lines: seq<string>, body: string)
    requires lines != [] && HeadLines(lines)
    ensures First(HeadText(lines) + (BLANK + body), BLANK, |HeadText(lines)|)
  {
    var s := HeadText(lines) + (BLANK + body);
    if |lines| == 1 {
      assert s[|lines[0]|..|lines[0]| + 4] == BLANK;
      forall k | 0 <= k < |lines[0]| ensures !At(s, BLANK, k) { LastNoBlank(lines[0], body, k); }
    } else {
      var rest := HeadText(lines[1..]) + (BLANK + body);
      HeadFound(lines[1..], body);
      assert s == lines[0] + ("\r\n" + rest) && s == lines[0] + "\r\n" + rest;
      assert rest[0] == lines[1][0] && lines[1][0] in lines[1];
      AtShift(lines[0] + "\r\n", rest, |HeadText(lines)|);
      forall k | 0 <= k < |HeadText(lines)| ensures !At(s, BLANK, k) {
        if k < |lines[0]| + 2 {
          LineNoBlank(lines[0], rest, k);
        } else {
          AtShift(lines[0] + "\r\n", rest, k);
        }
      }
    }
  }

  lemma {:induction false} HeadLinesRead(lines: seq<string>)
    requires lines != [] && HeadLines(lines)
    ensures TextLines(HeadText(lines)) == lines
  {
    var head := HeadText(lines);
    if |lines| == 1 {
      assert SplitOnce(head, '\n').None?;
    } else {
      var line := lines[0] + ['\r'];
      HeadLinesRead(lines[1..]);
      assert head == line + ['\n'] + HeadText(lines[1..]);
      SplitOnceAt(line, '\n', HeadText(lines[1..]));
      assert StripCr(line) == lines[0];
    }
  }

  predicate Word(s: string) {
    s != "" && forall c :: c in s ==> !IsSpace(c)
  }

  lemma {:induction false} UntilSpaceWord(w: string, rest: string)
    requires Word(w) && IsSpace(' ')
    ensures UntilSpace(w + (" " + rest)) == w
  {
    var s := w + (" " + rest);
    assert s[0] == w[0] && w[0] in w;
    if |w| > 1 {
      assert forall c :: c in w[1..] ==> c in w;
      UntilSpaceWord(w[1..], rest);
      assert s[1..] == w[1..] + (" " + rest);
    } else {
      assert s[1..] == " " + rest;
    }
    assert w == [w[0]] + w[1..];
  }

  lemma RequestLineRead(verb: string, path: string)
    requires Word(verb) && Word(path)
    ensures SecondWord(RequestLine(verb, path)) == Some(path)
  {
    var rest := path + (" " + "HTTP/1.1");
    var line := verb + (" " + rest);
    assert line[0] == verb[0] && verb[0] in verb;
    assert TrimStart(line) == line;
    UntilSpaceWord(verb, rest);
    assert line[|verb|..] == " " + rest;
    assert (" " + rest)[1..] == rest && rest[0] == path[0] && path[0] in path;
    assert TrimStart(" " + rest) == rest;
    UntilSpaceWord(path, "HTTP/1.1");
  }

  lemma {:induction false} TrimStartKeeps(s: string, c: char)
    requires c in s && !IsSpace(c)
    ensures c in TrimStart(s)
  {
    if IsSpace(s[0]) { TrimStartKeeps(s[1..], c); }
  }

  lemma {:induction false} TrimEndKeeps(s: string, c: char)
    requires c in s && !IsSpace(c)
    ensures c in TrimEnd(s)
  {
    if IsSpace(s[|s| - 1]) {
      assert s == s[..|s| - 1] + [s[|s| - 1]];
      TrimEndKeeps(s[..|s| - 1], c);
    }
  }

  lemma NotANumber(s: string, c: char)
    requires c in s && !IsSpace(c) && c != '+' && !('0' <= c <= '9')
    ensures ParseUsize(Trim(s)).None?
  {
    TrimStartKeeps(s, c);
    TrimEndKeeps(TrimStart(s), c);
    var t := Trim(s);
    if t[0] == '+' { assert t == ['+'] + t[1..]; }
  }

  lemma NoColon(i: nat)
    requires i < 8
    ensures "HTTP/1.1"[i] != ':'
  {
  }

  /** A request line is never taken for a length header. */
  lemma RequestLineNoLength(verb: string, path: string)
    ensures LengthLine(RequestLine(verb, path)).None?
  {
    var line := RequestLine(verb, path);
    var kv := SplitOnce(line, ':');
    if kv.Some? {
      var key, value := kv.value.0, kv.value.1;
      var last := verb + (" " + (path + " "));
      assert line == last + "HTTP/1.1" && line[|last|..] == "HTTP/1.1";
      assert line[|key|] == ':';
      if |key| >= |last| {
        NoColon(|key| - |last|);
        assert false;
      } else {
        assert value[|last| - |key| - 1] == line[|last|] == 'H';
        NotANumber(value, 'H');
      }
    }
  }

  function RequestLine(verb: string, path: string): string {
    verb + (" " + (path + (" " + "HTTP/1.1")))
  }

  function LengthHeader(n: nat): string {
    "content-length" + [':'] + (" " + Decimal(n))
  }

  lemma LengthHeaderRead(n: nat)
    requires n < USIZE_LIMIT
    ensures LengthLine(LengthHeader(n)) == Some(n)
  {
    var name, value := "content-length", " " + Decimal(n);
    assert Free(name, ':');
    SplitOnceAt(name, ':', value);
    assert LengthHeader(n) == name + [':'] + value;
    DecimalRead(n);
  }

  lemma DecimalRead(n: nat)
    requires n < USIZE_LIMIT
    ensures ParseUsize(Trim(" " + Decimal(n))) == Some(n)
  {
    var value := " " + Decimal(n);
    assert value[1..] == Decimal(n);
    DigitsTight(Decimal(n));
    assert TrimStart(value) == TrimStart(value[1..]);
    ValueDecimal(n);
  }

  lemma DigitsTight(d: string)
    requires d != "" && IsDigits(d)
    ensures TrimStart(d) == d && TrimEnd(d) == d && d[0] != '+'
  {
    assert d[0] in d && d[|d| - 1] in d;
  }

  /** A request as a client writes it: request line, headers, content-length, body. */
  function RequestLines(verb: string, path: string, headers: seq<string>, length: nat): (r: seq<string>)
    ensures r != []
  {
    [RequestLine(verb, path)] + (headers + [LengthHeader(length)])
  }

  predicate NoneOf<T>(xs: seq<Option<T>>) {
    xs == [] || (xs[0].None? && NoneOf(xs[1..]))
  }

  lemma {:induction false} FirstSomeLast<T>(xs: seq<Option<T>>, last: Option<T>)
    requires NoneOf(xs)
    ensures FirstSome(xs + [last]) == last
  {
    if xs == [] {
      assert [] + [last] == [last];
    } else {
      FirstSomeLast(xs[1..], last);
      assert (xs + [last])[1..] == xs[1..] + [last];
    }
  }

  lemma {:induction false} LengthsSnoc(lines: seq<string>, last: string)
    ensures Lengths(lines + [last]) == Lengths(lines) + [LengthLine(last)]
  {
    if lines == [] {
      assert [] + [last] == [last];
    } else {
      LengthsSnoc(lines[1..], last);
      assert (lines + [last])[1..] == lines[1..] + [last];
    }
  }

  /** None of these headers names a length. */
  predicate NoLengths(headers: seq<string>) {
    NoneOf(Lengths(headers))
  }

  lemma LengthSkips(first: string, headers: seq<string>, last: string, n: nat)
    requires LengthLine(first).None? && NoLengths(headers) && LengthLine(last) == Some(n)
    ensures ContentLength([first] + (headers + [last])) == n
  {
    var rest := headers + [last];
    assert ([first] + rest)[1..] == rest;
    LengthsSnoc(headers, last);
    FirstSomeLast(Lengths(headers), LengthLine(last));
    assert ([None] + Lengths(rest))[1..] == Lengths(rest);
  }

  ghost predicate HeadLines(lines: seq<string>) {
    forall i :: 0 <= i < |lines| ==> HeadLine(lines[i])
  }

  /** Printing then reading: every request whose other headers name no length comes out of the
      bridge with its path and its exact body, however the stream is cut. */
  lemma RequestRoundTrip(verb: string, path: string, headers: seq<string>, body: string, chunks: seq<string>,
                         record: Option<Record>)
    requires Word(verb) && Word(path) && |body| < USIZE_LIMIT
    requires HeadLines(headers) && NoLengths(headers)
    requires Concat(chunks) == PrintLines(RequestLines(verb, path, headers, |body|), body)
    requires Forwards(chunks, record)
    ensures record == Some((path, body))
  {
    var lines := RequestLines(verb, path, headers, |body|);
    var head := HeadText(lines);
    LinesPlain(verb, path, headers, |body|);
    StreamHead(lines, body);
    HeadRead(verb, path, headers, |body|);
    CompleteForwarded(chunks, record, head, body);
  }

  /** A complete stream of a head, the blank line and a body of the length the head declares
      is forwarded as the head's path and the body. */
  lemma CompleteForwarded(chunks: seq<string>, record: Option<Record>, head: string, body: string)
    requires Forwards(chunks, record) && Find(Concat(chunks), BLANK) == Some(|head|)
    requires |Concat(chunks)| == |head| + 4 + |body| && BodyLength(head) == |body|
    requires Concat(chunks)[..|head|] == head && Concat(chunks)[|head| + 4..] == body
    ensures record == Some((RequestPath(head), body))
  {
    var n :| ReadsNeeded(chunks, n, |head|, |body|) && record.value.1 == Read(chunks, n)[|head| + 4..];
    ChunkingIndependent(chunks, n, |head|, |body|);
  }

  lemma StreamHead(lines: seq<string>, body: string)
    requires lines != [] && HeadLines(lines)
    ensures var s, head := PrintLines(lines, body), HeadText(lines);
            && Find(s, BLANK) == Some(|head|) && |s| == |head| + 4 + |body|
            && s[..|head|] == head && s[|head| + 4..] == body
  {
    PrintSplit(lines, body);
    HeadFound(lines, body);
    assert HeadText(lines) + BLANK + body == HeadText(lines) + (BLANK + body);
  }

  lemma HeadRead(verb: string, path: string, headers: seq<string>, length: nat)
    requires Word(verb) && Word(path) && length < USIZE_LIMIT
    requires HeadLines(headers) && NoLengths(headers)
    ensures var head := HeadText(RequestLines(verb, path, headers, length));
            RequestPath(head) == path && BodyLength(head) == length
  {
    var lines := RequestLines(verb, path, headers, length);
    LinesPlain(verb, path, headers, length);
    HeadLinesRead(lines);
    RequestLineRead(verb, path);
    RequestLineNoLength(verb, path);
    LengthHeaderRead(length);
    LengthSkips(RequestLine(verb, path), headers, LengthHeader(length), length);
  }

  lemma LinesPlain(verb: string, path: string, headers: seq<string>, length: nat)
    requires Word(verb) && Word(path)
    requires HeadLines(headers)
    ensures HeadLines(RequestLines(verb, path, headers, length))
  {
    WordPlain(verb);
    WordPlain(path);
    assert IsDigits(Decimal(length));
  }

  lemma WordPlain(w: string)
    requires Word(w)
    ensures HeadLine(w)
  {
    assert IsSpace('\r') && IsSpace('\n');
  }
}
