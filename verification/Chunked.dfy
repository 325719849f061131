/** Decoding of an HTTP/1.1 chunked body, and the conforming encoder it undoes
    (section 7.1 of RFC 9112). */
module Chunked {
  import opened Text

  type byte = x: int | 0 <= x < 256

  const CR: byte := 13
  const LF: byte := 10
  const SEMICOLON: byte := 59

  /** `usize::MAX` of the 64-bit target. */
  const USIZE_MAX: nat := 0xFFFF_FFFF_FFFF_FFFF

  datatype Error = MalformedHeader | NonUtf8Size | BadSize | TruncatedBody | MissingCrlf

  datatype Result<+T> = Ok(value: T) | Err(error: Error)

  // ---------------------------------------------------------------- finding the line

  predicate CrlfAt(data: seq<byte>, i: int) {
    0 <= i && i + 1 < |data| && data[i] == CR && data[i + 1] == LF
  }

  /** First CRLF, or -1. */
  function FindCrlf(data: seq<byte>): (i: int)
    ensures -1 <= i && i + 1 <= |data|
    ensures i >= 0 ==> CrlfAt(data, i)
    ensures forall k :: 0 <= k < |data| && (i < 0 || k < i) ==> !CrlfAt(data, k)
  {
    FindCrlfFrom(data, 0)
  }

  function FindCrlfFrom(data: seq<byte>, from: nat): (i: int)
    requires from <= |data|
    ensures i == -1 || from <= i
    ensures i >= 0 ==> CrlfAt(data, i)
    ensures forall k :: from <= k < |data| && (i < 0 || k < i) ==> !CrlfAt(data, k)
    decreases |data| - from
  {
    if from == |data| then -1
    else if CrlfAt(data, from) then from
    else FindCrlfFrom(data, from + 1)
  }

  // ---------------------------------------------------------------- the size line

  /** Strict UTF-8 decoding to code points (section 4 of RFC 3629): shortest forms only,
      no surrogates, nothing above U+10FFFF. */
  function Utf8(b: seq<byte>): Option<seq<nat>> {
    if |b| == 0 then Some([])
    else if b[0] < 0x80 then Prepend(b[0], Utf8(b[1..]))
    else if 0xC2 <= b[0] <= 0xDF && |b| >= 2 && Tail(b[1]) then
      Prepend(Bits(b, 1, 0xC0), Utf8(b[2..]))
    else if 0xE0 <= b[0] <= 0xEF && |b| >= 3 && Tail(b[1]) && Tail(b[2])
         && (b[0] == 0xE0 ==> b[1] >= 0xA0) && (b[0] == 0xED ==> b[1] < 0xA0) then
      Prepend(Bits(b, 2, 0xE0), Utf8(b[3..]))
    else if 0xF0 <= b[0] <= 0xF4 && |b| >= 4 && Tail(b[1]) && Tail(b[2]) && Tail(b[3])
         && (b[0] == 0xF0 ==> b[1] >= 0x90) && (b[0] == 0xF4 ==> b[1] < 0x90) then
      Prepend(Bits(b, 3, 0xF0), Utf8(b[4..]))
    else None
  }

  /** The code point of a lead byte with marker `mark` and its `n` continuation bytes. */
  function Bits(b: seq<byte>, n: nat, mark: int): nat
    requires n < |b| && b[0] >= mark && forall k :: 1 <= k <= n ==> Tail(b[k])
  {
    var x: int := b[n];
    if n == 0 then x - mark
    else
      assert Tail(b[n]);
      Bits(b, n - 1, mark) * 64 + (x - 0x80)
  }

  predicate Tail(x: byte) { 0x80 <= x < 0xC0 }

  function Prepend(c: nat, rest: Option<seq<nat>>): Option<seq<nat>> {
    match rest
    case None => None
    case Some(s) => Some([c] + s)
  }

  predicate Blank(c: nat) { WhiteSpace(c) }

  function Trim(s: seq<nat>): seq<nat> { TrimBlank(Blank, s) }

  /** The part before the first `;`. */
  function BeforeSemicolon(s: seq<nat>): seq<nat> {
    if |s| == 0 || s[0] == 59 then [] else [s[0]] + BeforeSemicolon(s[1..])
  }

  function HexDigit(c: nat): Option<nat> {
    if 48 <= c <= 57 then Some(c - 48)
    else if 65 <= c <= 70 then Some(c - 55)
    else if 97 <= c <= 102 then Some(c - 87)
    else None
  }

  predicate AllHex(s: seq<nat>) {
    forall i :: 0 <= i < |s| ==> HexDigit(s[i]).Some?
  }

  function HexValue(s: seq<nat>): nat
    requires AllHex(s)
  {
    if |s| == 0 then 0 else HexValue(s[..|s| - 1]) * 16 + HexDigit(s[|s| - 1]).value
  }

  /** `usize::from_str_radix(s, 16)`: an optional `+`, at least one digit, no overflow. */
  function ParseHex(s: seq<nat>): Option<nat> {
    var digits := if |s| > 1 && s[0] == 43 then s[1..] else s;
    if |digits| > 0 && AllHex(digits) && HexValue(digits) <= USIZE_MAX then Some(HexValue(digits)) else None
  }

  /** The chunk size a header line announces. */
  function ChunkSize(line: seq<byte>): Result<nat> {
    match Utf8(line)
    case None => Err(NonUtf8Size)
    case Some(chars) =>
      match ParseHex(Trim(BeforeSemicolon(chars)))
      case None => Err(BadSize)
      case Some(n) => Ok(n)
  }

  // ---------------------------------------------------------------- the decoder

  /** What the decoder answers on `data`, chunk by chunk. */
  function Decoded(data: seq<byte>): Result<seq<byte>>
    decreases |data|
  {
    var nl := FindCrlf(data);
    if nl < 0 then Err(MalformedHeader)
    else
      match ChunkSize(data[..nl])
      case Err(e) => Err(e)
      case Ok(size) =>
        var rest := data[nl + 2..];
        if size == 0 then Ok([])
        else if |rest| < size then Err(TruncatedBody)
        else if !CrlfAt(rest, size) then Err(MissingCrlf)
        else
          Prefixed(rest[..size], Decoded(rest[size + 2..]))
  }

  method Dechunk(data0: seq<byte>) returns (r: Result<seq<byte>>)
    ensures r == Decoded(data0)
    ensures r.Ok? ==> |r.value| <= |data0|
  {
    hide FindCrlf, ChunkSize;
    var data := data0;
    var out: seq<byte> := [];
    NothingBefore(Decoded(data));
    while true
      invariant Decoded(data0) == Prefixed(out, Decoded(data))
      invariant |out| + |data| <= |data0|
      decreases |data|
    {
      var nl := FindCrlf(data);
      if nl < 0 {
        return Err(MalformedHeader);
      }
      var size;
      match ChunkSize(data[..nl]) {
        case Err(e) => return Err(e);
        case Ok(n) => size := n;
      }
      ghost var rest := data[nl + 2..];
      data := data[nl + 2..];
      if size == 0 {
        assert out + [] == out;
        break;
      }
      if |data| < size {
        return Err(TruncatedBody);
      }
      ghost var out0 := out;
      out := out + data[..size];
      data := data[size..];
      assert CrlfAt(data, 0) == CrlfAt(rest, size);
      if !CrlfAt(data, 0) {
        return Err(MissingCrlf);
      }
      data := data[2..];
      assert data == rest[size + 2..];
      PrefixedTwice(out0, rest[..size], Decoded(data));
    }
    return Ok(out);
  }

  /** A decoded remainder, put behind what was decoded before it. */
  function Prefixed(out: seq<byte>, r: Result<seq<byte>>): Result<seq<byte>> {
    match r
    case Err(e) => Err(e)
    case Ok(more) => Ok(out + more)
  }

  lemma PrefixedTwice(a: seq<byte>, b: seq<byte>, r: Result<seq<byte>>)
    ensures Prefixed(a, Prefixed(b, r)) == Prefixed(a + b, r)
  {
    if r.Ok? {
      assert a + (b + r.value) == a + b + r.value;
    }
  }

  lemma NothingBefore(r: Result<seq<byte>>)
    ensures Prefixed([], r) == r
  {
    if r.Ok? {
      assert [] + r.value == r.value;
    }
  }

  // ---------------------------------------------------------------- the encoder

  /** One chunk: its size in hexadecimal as written, its extensions, its data. */
  datatype Chunk = Chunk(size: seq<byte>, ext: seq<byte>, data: seq<byte>)

  ghost predicate NoCrLf(b: seq<byte>) {
    forall i :: 0 <= i < |b| ==> b[i] != CR && b[i] != LF
  }

  /** Optional blanks, a semicolon, and anything but line ends: what may follow a size. */
  ghost predicate Extension(ext: seq<byte>) {
    && NoCrLf(ext)
    && (ext == [] || exists k :: 0 <= k < |ext| && ext[k] == SEMICOLON && Blanks(ext[..k]))
  }

  ghost predicate Blanks(b: seq<byte>) {
    forall i :: 0 <= i < |b| ==> b[i] == 0x20 || b[i] == 0x09
  }

  /** A size line that announces `n`, in any digits and letter case. */
  ghost predicate Announces(size: seq<byte>, n: nat) {
    |size| > 0 && AllHex(size) && HexValue(size) == n
  }

  ghost predicate Conforming(c: Chunk) {
    && Announces(c.size, |c.data|) && Extension(c.ext)
    && 0 < |c.data| <= USIZE_MAX
  }

  const CRLF: seq<byte> := [CR, LF]

  function Encoded(chunks: seq<Chunk>, last: Chunk, trailer: seq<byte>): seq<byte> {
    if |chunks| == 0 then last.size + last.ext + CRLF + trailer
    else chunks[0].size + chunks[0].ext + CRLF + (chunks[0].data + CRLF + Encoded(chunks[1..], last, trailer))
  }

  function Payload(chunks: seq<Chunk>): seq<byte> {
    if |chunks| == 0 then [] else chunks[0].data + Payload(chunks[1..])
  }

  ghost predicate ConformingBody(chunks: seq<Chunk>, last: Chunk) {
    && (forall i :: 0 <= i < |chunks| ==> Conforming(chunks[i]))
    && Announces(last.size, 0) && Extension(last.ext)
  }

  /** Every extension is well-formed UTF-8. */
  ghost predicate Utf8Extensions(chunks: seq<Chunk>, last: Chunk) {
    && (forall i :: 0 <= i < |chunks| ==> Utf8(chunks[i].ext).Some?)
    && Utf8(last.ext).Some?
  }

  // ---------------------------------------------------------------- one header line

  lemma FirstLine(line: seq<byte>, rest: seq<byte>)
    requires NoCrLf(line)
    ensures FindCrlf(line + CRLF + rest) == |line|
    ensures (line + CRLF + rest)[..|line|] == line && (line + CRLF + rest)[|line| + 2..] == rest
  {
    var data := line + CRLF + rest;
    assert CrlfAt(data, |line|);
    assert forall k :: 0 <= k < |line| ==> data[k] == line[k];
  }

  lemma HexIsAscii(size: seq<byte>)
    requires AllHex(size)
    ensures NoCrLf(size)
    ensures forall i :: 0 <= i < |size| ==> size[i] < 0x80 && !Blank(size[i]) && size[i] != 59 && size[i] != 43
  {
    assert forall i :: 0 <= i < |size| ==> HexDigit(size[i]).Some?;
  }

  /** ASCII bytes decode to themselves in front of anything. */
  lemma {:induction false} Utf8Ascii(a: seq<byte>, b: seq<byte>)
    requires forall i :: 0 <= i < |a| ==> a[i] < 0x80
    ensures Utf8(a + b) == match Utf8(b) case None => None case Some(s) => Some(a + s)
  {
    if |a| == 0 {
      assert a + b == b;
      if Utf8(b).Some? {
        assert a + Utf8(b).value == Utf8(b).value;
      }
    } else {
      assert (a + b)[1..] == a[1..] + b;
      Utf8Ascii(a[1..], b);
      if Utf8(b).Some? {
        assert [a[0]] + (a[1..] + Utf8(b).value) == a + Utf8(b).value;
      }
    }
  }

  lemma {:induction false} BeforeSemicolonOf(a: seq<nat>, b: seq<nat>)
    requires forall i :: 0 <= i < |a| ==> a[i] != 59
    requires |b| == 0 || b[0] == 59
    ensures BeforeSemicolon(a + b) == a
  {
    if |a| == 0 {
      assert a + b == b;
    } else {
      assert (a + b)[1..] == a[1..] + b;
      BeforeSemicolonOf(a[1..], b);
    }
  }

  lemma {:induction false} TrimBlanks(a: seq<nat>, blanks: seq<nat>)
    requires |a| > 0 && forall i :: 0 <= i < |a| ==> !Blank(a[i])
    requires forall i :: 0 <= i < |blanks| ==> Blank(blanks[i])
    ensures Trim(a + blanks) == a
    decreases |blanks|
  {
    if |blanks| == 0 {
      assert a + blanks == a;
    } else {
      var s := a + blanks;
      assert s[0] == a[0] && s[|s| - 1] == blanks[|blanks| - 1];
      assert s[..|s| - 1] == a + blanks[..|blanks| - 1];
      TrimBlanks(a, blanks[..|blanks| - 1]);
    }
  }

  /** A conforming header line is read as its size if its extension is UTF-8, and is an
      error otherwise. */
  lemma SizeOfLine(size: seq<byte>, ext: seq<byte>, n: nat)
    requires Announces(size, n) && Extension(ext) && n <= USIZE_MAX
    ensures ChunkSize(size + ext) == if Utf8(ext).Some? then Ok(n) else Err(NonUtf8Size)
  {
    HexIsAscii(size);
    Utf8Ascii(size, ext);
    hide Utf8, Trim, BeforeSemicolon, ParseHex, AllHex;
    if Utf8(ext).Some? {
      var blanks, tail := SplitExtension(ext);
      SizeText(size, blanks, tail, n);
    }
  }

  lemma SizeText(size: seq<byte>, blanks: seq<nat>, tail: seq<nat>, n: nat)
    requires Announces(size, n) && n <= USIZE_MAX
    requires forall i :: 0 <= i < |blanks| ==> Blank(blanks[i]) && blanks[i] != 59
    requires |tail| == 0 || tail[0] == 59
    ensures ParseHex(Trim(BeforeSemicolon(size + (blanks + tail)))) == Some(n)
  {
    HexIsAscii(size);
    hide Trim, BeforeSemicolon, HexDigit, HexValue, AllHex;
    var digits: seq<nat> := size;
    assert ParseHex(digits) == Some(n);
    var chars := digits + blanks;
    assert size + (blanks + tail) == chars + tail;
    hide Blank, ParseHex;
    BeforeSemicolonOf(chars, tail);
    TrimBlanks(digits, blanks);
  }

  lemma SplitExtension(ext: seq<byte>) returns (blanks: seq<nat>, tail: seq<nat>)
    requires Extension(ext) && Utf8(ext).Some?
    ensures Utf8(ext) == Some(blanks + tail)
    ensures forall i :: 0 <= i < |blanks| ==> Blank(blanks[i]) && blanks[i] != 59
    ensures |tail| == 0 || tail[0] == 59
  {
    if ext == [] {
      blanks, tail := [], [];
      assert blanks + tail == [];
    } else {
      var k :| 0 <= k < |ext| && ext[k] == SEMICOLON && Blanks(ext[..k]);
      assert ext == ext[..k] + ext[k..];
      Utf8Ascii(ext[..k], ext[k..]);
      blanks, tail := ext[..k], Utf8(ext[k..]).value;
      assert ext[k..][0] == SEMICOLON;
    }
  }

  // ---------------------------------------------------------------- main result

  lemma ChunkRead(c: Chunk, more: seq<byte>)
    requires Conforming(c)
    ensures Decoded(c.size + c.ext + CRLF + (c.data + CRLF + more))
         == if Utf8(c.ext).Some? then Prefixed(c.data, Decoded(more)) else Err(NonUtf8Size)
  {
    hide FindCrlf, ChunkSize, Utf8, Announces;
    var rest := c.data + CRLF + more;
    LineRead(c.size, c.ext, |c.data|, rest);
    assert rest[..|c.data|] == c.data && rest[|c.data| + 2..] == more && CrlfAt(rest, |c.data|);
  }

  lemma LastRead(last: Chunk, trailer: seq<byte>)
    requires Announces(last.size, 0) && Extension(last.ext)
    ensures Decoded(last.size + last.ext + CRLF + trailer) == if Utf8(last.ext).Some? then Ok([]) else Err(NonUtf8Size)
  {
    hide FindCrlf, ChunkSize, Utf8, Announces;
    LineRead(last.size, last.ext, 0, trailer);
  }


  /** Decoding undoes every conforming encoding whose extensions are UTF-8, whatever the
      chunks hold and whatever follows the last one; one extension that is not UTF-8,
      which the grammar permits inside quotes, makes the decoder fail. */
  lemma {:induction false} DecodeEncoded(chunks: seq<Chunk>, last: Chunk, trailer: seq<byte>)
    requires ConformingBody(chunks, last)
    ensures Decoded(Encoded(chunks, last, trailer))
         == if Utf8Extensions(chunks, last) then Ok(Payload(chunks)) else Err(NonUtf8Size)
  {
    hide Decoded, Utf8, Conforming, Announces, Extension;
    if |chunks| == 0 {
      LastRead(last, trailer);
    } else {
      ChunkRead(chunks[0], Encoded(chunks[1..], last, trailer));
      DecodeEncoded(chunks[1..], last, trailer);
      assert Utf8Extensions(chunks, last) <==> Utf8(chunks[0].ext).Some? && Utf8Extensions(chunks[1..], last);
    }
  }

  /** One byte behind a quoted extension value that is not UTF-8: conforming, and refused. */
  lemma QuotedByteRefused()
    ensures var ext := [SEMICOLON, 0x61, 0x3D, 0x22, 0xFF, 0x22]; var chunks := [Chunk([0x31], ext, [0x78])]; var last := Chunk([0x30], [], []);
      ConformingBody(chunks, last) && Decoded(Encoded(chunks, last, CRLF)) == Err(NonUtf8Size)
  {
    var ext: seq<byte> := [SEMICOLON, 0x61, 0x3D, 0x22, 0xFF, 0x22];
    var c, last := Chunk([0x31], ext, [0x78]), Chunk([0x30], [], []);
    QuotedNotUtf8();
    assert ext[..0] == [] && ext[0] == SEMICOLON && Extension(ext);
    assert HexValue([]) == 0 && [0x31][..0] == [] && [0x30][..0] == [];
    assert HexValue([0x31]) == 1 && HexValue([0x30]) == 0;
    assert Announces(c.size, |c.data|) && Announces(last.size, 0);
    hide Decoded, Utf8, Encoded;
    assert ConformingBody([c], last);
    assert !Utf8Extensions([c], last) by { assert [c][0] == c; }
    DecodeEncoded([c], last, CRLF);
  }

  lemma QuotedNotUtf8()
    ensures Utf8([SEMICOLON, 0x61, 0x3D, 0x22, 0xFF, 0x22]) == None
  {
    var a: seq<byte>, b: seq<byte> := [SEMICOLON, 0x61, 0x3D, 0x22], [0xFF, 0x22];
    assert a + b == [SEMICOLON, 0x61, 0x3D, 0x22, 0xFF, 0x22];
    Utf8Ascii(a, b);
  }

  lemma LineRead(size: seq<byte>, ext: seq<byte>, n: nat, rest: seq<byte>)
    requires Announces(size, n) && Extension(ext) && n <= USIZE_MAX
    ensures var data := size + ext + CRLF + rest; var nl := FindCrlf(data);
      && nl >= 0 && data[nl + 2..] == rest
      && ChunkSize(data[..nl]) == if Utf8(ext).Some? then Ok(n) else Err(NonUtf8Size)
  {
    HexIsAscii(size);
    assert NoCrLf(size + ext);
    FirstLine(size + ext, rest);
    SizeOfLine(size, ext, n);
  }
}
