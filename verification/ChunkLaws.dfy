/** Exactly which bodies the chunk decoder accepts and why it refuses the others, on a grammar
    of its own: UTF-8 from an encoder, size lines from their characters, bodies from chunks. */
module ChunkLaws {
  import opened Text
  import opened Chunked

  // ---------------------------------------------------------------- UTF-8

  /** A Unicode scalar value: no surrogate. */
  predicate Scalar(c: nat) { c < 0xD800 || 0xE000 <= c < 0x11_0000 }

  /** The shortest encoding of a scalar value (section 3 of RFC 3629). */
  function EncodedChar(c: nat): (b: seq<byte>)
    requires Scalar(c)
    ensures 1 <= |b| <= 4
  {
    if c < 0x80 then [c]
    else if c < 0x800 then [0xC0 + c / 0x40, 0x80 + c % 0x40]
    else if c < 0x1_0000 then [0xE0 + c / 0x1000, 0x80 + c / 0x40 % 0x40, 0x80 + c % 0x40]
    else [0xF0 + c / 0x4_0000, 0x80 + c / 0x1000 % 0x40, 0x80 + c / 0x40 % 0x40, 0x80 + c % 0x40]
  }

  predicate Scalars(s: seq<nat>) { forall i :: 0 <= i < |s| ==> Scalar(s[i]) }

  function EncodedText(s: seq<nat>): seq<byte>
    requires Scalars(s)
  {
    if |s| == 0 then [] else EncodedChar(s[0]) + EncodedText(s[1..])
  }

  /** The bytes are the encoding of the text. */
  ghost predicate Encodes(s: seq<nat>, b: seq<byte>) { Scalars(s) && EncodedText(s) == b }

  /** One more six-bit group behind a number. */
  lemma SixBits(x: nat, y: nat)
    requires y < 0x40
    ensures (x * 0x40 + y) / 0x40 == x && (x * 0x40 + y) % 0x40 == y
  {
  }

  lemma Grouped(c: nat)
    ensures c / 0x1000 == c / 0x40 / 0x40 && c / 0x4_0000 == c / 0x40 / 0x40 / 0x40
  {
  }

  /** The bytes of a scalar value by its six-bit groups. */
  lemma ThreeGroups(x: nat, y: nat, z: nat)
    requires y < 0x40 && z < 0x40
    ensures var c := (x * 0x40 + y) * 0x40 + z; c / 0x1000 == x && c / 0x40 % 0x40 == y && c % 0x40 == z
  {
    var d := x * 0x40 + y;
    SixBits(d, z);
    SixBits(x, y);
    Grouped(d * 0x40 + z);
  }

  lemma FourGroups(x: nat, y: nat, z: nat, w: nat)
    requires y < 0x40 && z < 0x40 && w < 0x40
    ensures var c := ((x * 0x40 + y) * 0x40 + z) * 0x40 + w;
      c / 0x4_0000 == x && c / 0x1000 % 0x40 == y && c / 0x40 % 0x40 == z && c % 0x40 == w
  {
    var e := (x * 0x40 + y) * 0x40 + z;
    SixBits(e, w);
    ThreeGroups(x, y, z);
    Grouped(e);
    Grouped(e * 0x40 + w);
  }

  lemma BitsStep(b: seq<byte>, n: nat, mark: int)
    requires 1 <= n < |b| && b[0] >= mark && forall k :: 1 <= k <= n ==> Tail(b[k])
    ensures Bits(b, n, mark) == Bits(b, n - 1, mark) * 0x40 + (b[n] - 0x80) && Bits(b, 0, mark) == b[0] - mark
  {
  }

  lemma EncodedAt(c: nat, x: nat, y: nat, z: nat, w: nat)
    requires Scalar(c) && y < 0x40 && z < 0x40 && w < 0x40
    ensures c == z * 0x40 + w && 0x80 <= c < 0x800 ==> EncodedChar(c) == [0xC0 + z, 0x80 + w]
    ensures c == (y * 0x40 + z) * 0x40 + w && 0x800 <= c < 0x1_0000 ==> EncodedChar(c) == [0xE0 + y, 0x80 + z, 0x80 + w]
    ensures c == ((x * 0x40 + y) * 0x40 + z) * 0x40 + w && c >= 0x1_0000 ==> EncodedChar(c) == [0xF0 + x, 0x80 + y, 0x80 + z, 0x80 + w]
  {
    SixBits(z, w);
    ThreeGroups(y, z, w);
    FourGroups(x, y, z, w);
  }

  lemma TwoValue(b: seq<byte>, x: nat, y: nat)
    requires |b| >= 2 && Tail(b[1]) && b[0] == 0xC0 + x && b[1] == 0x80 + y
    ensures Bits(b, 1, 0xC0) == x * 0x40 + y
  {
    BitsStep(b, 1, 0xC0);
    hide Bits;
  }

  lemma ThreeValue(b: seq<byte>, x: nat, y: nat, z: nat)
    requires |b| >= 3 && Tail(b[1]) && Tail(b[2]) && b[0] == 0xE0 + x && b[1] == 0x80 + y && b[2] == 0x80 + z
    ensures Bits(b, 2, 0xE0) == (x * 0x40 + y) * 0x40 + z
  {
    BitsStep(b, 1, 0xE0);
    BitsStep(b, 2, 0xE0);
    hide Bits;
  }

  lemma TwoBytes(b: seq<byte>)
    requires |b| >= 2 && 0xC2 <= b[0] <= 0xDF && Tail(b[1])
    ensures var c := Bits(b, 1, 0xC0); Scalar(c) && b == EncodedChar(c) + b[2..]
  {
    var x: int, y: int := b[0] - 0xC0, b[1] - 0x80;
    TwoValue(b, x, y);
    var c := Bits(b, 1, 0xC0);
    hide Bits, EncodedChar;
    EncodedAt(c, 0, 0, x, y);
    Fronted(b, EncodedChar(c));
  }

  lemma Fronted(b: seq<byte>, front: seq<byte>)
    requires |b| >= |front| && forall k :: 0 <= k < |front| ==> b[k] == front[k]
    ensures b == front + b[|front|..]
  {
  }

  lemma ThreeBytes(b: seq<byte>)
    requires |b| >= 3 && 0xE0 <= b[0] <= 0xEF && Tail(b[1]) && Tail(b[2])
    requires (b[0] == 0xE0 ==> b[1] >= 0xA0) && (b[0] == 0xED ==> b[1] < 0xA0)
    ensures var c := Bits(b, 2, 0xE0); Scalar(c) && b == EncodedChar(c) + b[3..]
  {
    var x: int, y: int, z: int := b[0] - 0xE0, b[1] - 0x80, b[2] - 0x80;
    ThreeValue(b, x, y, z);
    var c := Bits(b, 2, 0xE0);
    hide Bits, EncodedChar;
    EncodedAt(c, 0, x, y, z);
    Fronted(b, EncodedChar(c));
  }

  lemma FourRange(x: nat, y: nat, z: nat, w: nat)
    requires x <= 4 && y < 0x40 && z < 0x40 && w < 0x40 && (x == 0 ==> y >= 0x10) && (x == 4 ==> y < 0x10)
    ensures 0x1_0000 <= ((x * 0x40 + y) * 0x40 + z) * 0x40 + w < 0x11_0000
  {
  }

  lemma FourValue(b: seq<byte>, x: nat, y: nat, z: nat, w: nat)
    requires |b| >= 4 && Tail(b[1]) && Tail(b[2]) && Tail(b[3])
    requires b[0] == 0xF0 + x && b[1] == 0x80 + y && b[2] == 0x80 + z && b[3] == 0x80 + w
    ensures Bits(b, 3, 0xF0) == ((x * 0x40 + y) * 0x40 + z) * 0x40 + w
  {
    BitsStep(b, 1, 0xF0);
    BitsStep(b, 2, 0xF0);
    BitsStep(b, 3, 0xF0);
    hide Bits;
  }

  lemma FourBytes(b: seq<byte>)
    requires |b| >= 4 && 0xF0 <= b[0] <= 0xF4 && Tail(b[1]) && Tail(b[2]) && Tail(b[3])
    requires (b[0] == 0xF0 ==> b[1] >= 0x90) && (b[0] == 0xF4 ==> b[1] < 0x90)
    ensures var c := Bits(b, 3, 0xF0); Scalar(c) && b == EncodedChar(c) + b[4..]
  {
    var x: int, y: int, z: int, w: int := b[0] - 0xF0, b[1] - 0x80, b[2] - 0x80, b[3] - 0x80;
    FourValue(b, x, y, z, w);
    var c := Bits(b, 3, 0xF0);
    hide Bits, EncodedChar;
    FourRange(x, y, z, w);
    EncodedAt(c, x, y, z, w);
    Fronted(b, EncodedChar(c));
  }

  lemma CharTwo(c: nat, rest: seq<byte>)
    requires 0x80 <= c < 0x800
    ensures Utf8(EncodedChar(c) + rest) == Prepend(c, Utf8(rest))
  {
    var z, w := c / 0x40, c % 0x40;
    EncodedAt(c, 0, 0, z, w);
    var b := EncodedChar(c) + rest;
    hide EncodedChar;
    assert b[2..] == rest && b[0] == 0xC0 + z && b[1] == 0x80 + w;
    BitsStep(b, 1, 0xC0);
    hide Bits;
  }

  lemma CharThree(c: nat, rest: seq<byte>)
    requires 0x800 <= c < 0x1_0000 && Scalar(c)
    ensures Utf8(EncodedChar(c) + rest) == Prepend(c, Utf8(rest))
  {
    var y, z, w := c / 0x1000, c / 0x40 % 0x40, c % 0x40;
    Grouped(c);
    EncodedAt(c, 0, y, z, w);
    var b := EncodedChar(c) + rest;
    hide EncodedChar;
    assert b[3..] == rest && b[0] == 0xE0 + y && b[1] == 0x80 + z && b[2] == 0x80 + w;
    BitsStep(b, 1, 0xE0);
    BitsStep(b, 2, 0xE0);
    hide Bits;
  }

  lemma CharFour(c: nat, rest: seq<byte>)
    requires 0x1_0000 <= c < 0x11_0000
    ensures Utf8(EncodedChar(c) + rest) == Prepend(c, Utf8(rest))
  {
    var x, y, z, w := c / 0x4_0000, c / 0x1000 % 0x40, c / 0x40 % 0x40, c % 0x40;
    Grouped(c);
    EncodedAt(c, x, y, z, w);
    var b := EncodedChar(c) + rest;
    hide EncodedChar;
    assert b[4..] == rest && b[0] == 0xF0 + x && b[1] == 0x80 + y && b[2] == 0x80 + z && b[3] == 0x80 + w;
    BitsStep(b, 1, 0xF0);
    BitsStep(b, 2, 0xF0);
    BitsStep(b, 3, 0xF0);
    hide Bits;
  }

  lemma CharRead(c: nat, rest: seq<byte>)
    requires Scalar(c)
    ensures Utf8(EncodedChar(c) + rest) == Prepend(c, Utf8(rest))
  {
    if c < 0x80 {
      assert (EncodedChar(c) + rest)[1..] == rest;
    } else if c < 0x800 {
      CharTwo(c, rest);
    } else if c < 0x1_0000 {
      CharThree(c, rest);
    } else {
      CharFour(c, rest);
    }
  }

  /** Bytes decode exactly to the text they encode, and to nothing if they encode none. */
  lemma {:induction false} Utf8Exactly(b: seq<byte>, s: seq<nat>)
    ensures Utf8(b) == Some(s) <==> Encodes(s, b)
    decreases |b| + |s|
  {
    hide EncodedChar, Bits;
    if Encodes(s, b) && |s| > 0 {
      CharRead(s[0], EncodedText(s[1..]));
      Utf8Exactly(EncodedText(s[1..]), s[1..]);
      assert [s[0]] + s[1..] == s;
    }
    if Utf8(b) == Some(s) {
      DecodedEncodes(b, s);
    }
  }

  lemma {:induction false} DecodedEncodes(b: seq<byte>, s: seq<nat>)
    requires Utf8(b) == Some(s)
    ensures Encodes(s, b)
  {
    if |b| > 0 {
      var n := LeadRead(b, s);
      hide Utf8, EncodedChar, Bits;
      DecodedEncodes(b[n..], s[1..]);
      assert Scalars(s) by {
        assert forall i :: 1 <= i < |s| ==> s[i] == s[1..][i - 1];
      }
    }
  }

  lemma LeadRead(b: seq<byte>, s: seq<nat>) returns (n: nat)
    requires |b| > 0 && Utf8(b) == Some(s)
    ensures 1 <= n <= |b| && |s| > 0 && Scalar(s[0]) && Utf8(b[n..]) == Some(s[1..]) && b == EncodedChar(s[0]) + b[n..]
  {
    hide Bits;
    if b[0] < 0x80 {
      n := 1;
      assert EncodedChar(s[0]) == [b[0]];
    } else if b[0] <= 0xDF {
      n := 2;
      TwoBytes(b);
    } else if b[0] <= 0xEF {
      n := 3;
      ThreeBytes(b);
    } else {
      n := 4;
      FourBytes(b);
    }
    hide EncodedChar;
  }

  // ---------------------------------------------------------------- size lines

  /** The digit characters, in order, in either letter case. */
  lemma DigitChars(c: nat, v: nat)
    ensures HexDigit(c) == Some(v) <==> v < 16 && (c == "0123456789abcdef"[v] as nat || c == "0123456789ABCDEF"[v] as nat)
  {
  }

  function Pow16(n: nat): nat { if n == 0 then 1 else 16 * Pow16(n - 1) }

  lemma OnePlaceMore(h: nat, p: nat, r: nat, d: nat)
    ensures (h * p + r) * 16 + d == h * (16 * p) + (r * 16 + d)
  {
  }

  lemma HexSplit(s: seq<nat>, front: seq<nat>)
    requires AllHex(s) && |s| > 1 && front == s[..|s| - 1]
    ensures AllHex(front) && AllHex(s[1..]) && AllHex(front[1..])
    ensures HexValue(s) == HexValue(front) * 16 + HexDigit(s[|s| - 1]).value
    ensures HexValue(s[1..]) == HexValue(front[1..]) * 16 + HexDigit(s[|s| - 1]).value
  {
    assert s[1..][..|s| - 2] == front[1..] && s[1..][|s| - 2] == s[|s| - 1];
  }

  /** A number by its places: the leading digit counts sixteen to the number of those behind. */
  lemma {:induction false} HexPlaces(s: seq<nat>)
    requires AllHex(s) && |s| > 0
    ensures HexValue(s) == HexDigit(s[0]).value * Pow16(|s| - 1) + HexValue(s[1..])
  {
    if |s| > 1 {
      var front := s[..|s| - 1];
      HexSplit(s, front);
      HexPlaces(front);
      hide HexDigit, AllHex, HexValue;
      OnePlaceMore(HexDigit(s[0]).value, Pow16(|s| - 2), HexValue(front[1..]), HexDigit(s[|s| - 1]).value);
    } else {
      assert s[..0] == [] && s[1..] == [];
      assert HexValue([]) == 0;
    }
  }

  ghost predicate Spaces(s: seq<nat>) { forall i :: 0 <= i < |s| ==> WhiteSpace(s[i]) }

  /** A size line by its characters: white space, perhaps a plus, hexadecimal digits, white
      space, and anything from a semicolon on. */
  ghost predicate SizeChars(chars: seq<nat>, n: nat, pre: seq<nat>, plus: seq<nat>, digits: seq<nat>, post: seq<nat>, tail: seq<nat>) {
    && chars == (pre + (plus + digits) + post) + tail && Spaces(pre) && Spaces(post)
    && (plus == [] || plus == [43]) && (tail == [] || tail[0] == 59)
    && |digits| > 0 && AllHex(digits) && HexValue(digits) == n <= USIZE_MAX
  }

  ghost predicate SizeText(chars: seq<nat>, n: nat) {
    exists pre, plus, digits, post, tail :: SizeChars(chars, n, pre, plus, digits, post, tail)
  }

  /** The line announces a chunk of `n` bytes. */
  ghost predicate SizeLine(line: seq<byte>, n: nat) {
    exists chars :: Encodes(chars, line) && SizeText(chars, n)
  }

  lemma {:induction false} SemicolonSplit(s: seq<nat>) returns (tail: seq<nat>)
    ensures s == BeforeSemicolon(s) + tail && (tail == [] || tail[0] == 59)
    ensures forall i :: 0 <= i < |BeforeSemicolon(s)| ==> BeforeSemicolon(s)[i] != 59
  {
    if |s| == 0 || s[0] == 59 {
      tail := s;
    } else {
      tail := SemicolonSplit(s[1..]);
      assert s == [s[0]] + s[1..];
    }
  }

  lemma HexNotSpace(s: seq<nat>)
    requires AllHex(s)
    ensures forall i :: 0 <= i < |s| ==> !WhiteSpace(s[i]) && s[i] != 59 && s[i] != 43
  {
    assert forall i :: 0 <= i < |s| ==> HexDigit(s[i]).Some?;
  }

  lemma SizeTextRead(chars: seq<nat>, n: nat, pre: seq<nat>, plus: seq<nat>, digits: seq<nat>, post: seq<nat>, tail: seq<nat>)
    requires SizeChars(chars, n, pre, plus, digits, post, tail)
    ensures ParseHex(Trim(BeforeSemicolon(chars))) == Some(n)
  {
    HexNotSpace(digits);
    var mid := plus + digits;
    var a := pre + mid + post;
    assert !WhiteSpace(43) && !WhiteSpace(59);
    hide AllHex, HexValue, BeforeSemicolon, TrimBlank, WhiteSpace;
    assert forall i :: 0 <= i < |pre| ==> pre[i] != 59;
    assert forall i :: 0 <= i < |post| ==> post[i] != 59;
    BeforeSemicolonOf(a, tail);
    TrimAround(Blank, pre, mid, post);
    assert plus == [43] ==> mid[1..] == digits;
    assert plus == [] ==> mid == digits;
  }

  lemma HexParts(mid: seq<nat>, n: nat) returns (plus: seq<nat>, digits: seq<nat>)
    requires ParseHex(mid) == Some(n)
    ensures mid == plus + digits && (plus == [] || plus == [43])
    ensures |digits| > 0 && AllHex(digits) && HexValue(digits) == n <= USIZE_MAX
  {
    hide AllHex, HexValue;
    if |mid| > 1 && mid[0] == 43 {
      plus, digits := [43], mid[1..];
    } else {
      plus, digits := [], mid;
    }
  }

  lemma Trimmed(a: seq<nat>) returns (pre: seq<nat>, post: seq<nat>)
    ensures a == pre + Trim(a) + post && Spaces(pre) && Spaces(post)
  {
    var from, to := TrimBlankExact(Blank, a);
    pre, post := a[..from], a[to..];
    hide TrimBlank, WhiteSpace;
    assert a == pre + a[from..to] + post;
  }

  lemma TextSizeRead(chars: seq<nat>, n: nat)
    requires ParseHex(Trim(BeforeSemicolon(chars))) == Some(n)
    ensures SizeText(chars, n)
  {
    hide ParseHex, Trim, BeforeSemicolon, AllHex, HexValue, Spaces;
    var tail := SemicolonSplit(chars);
    var pre, post := Trimmed(BeforeSemicolon(chars));
    var plus, digits := HexParts(Trim(BeforeSemicolon(chars)), n);
    assert SizeChars(chars, n, pre, plus, digits, post, tail);
  }

  /** The header lines that are read, and as what size; the others, by what is wrong. */
  lemma SizeExactly(line: seq<byte>, n: nat)
    ensures ChunkSize(line) == Ok(n) <==> SizeLine(line, n)
    ensures ChunkSize(line) == Err(NonUtf8Size) <==> forall chars :: !Encodes(chars, line)
    ensures ChunkSize(line).Ok? || ChunkSize(line) == Err(NonUtf8Size) || ChunkSize(line) == Err(BadSize)
  {
    forall chars ensures Utf8(line) == Some(chars) <==> Encodes(chars, line) {
      Utf8Exactly(line, chars);
    }
    hide Utf8, Encodes, ParseHex, Trim, BeforeSemicolon;
    if ChunkSize(line) == Ok(n) {
      TextSizeRead(Utf8(line).value, n);
    }
    if chars :| Encodes(chars, line) && SizeText(chars, n) {
      var pre, plus, digits, post, tail :| SizeChars(chars, n, pre, plus, digits, post, tail);
      SizeTextRead(chars, n, pre, plus, digits, post, tail);
    }
  }

  // ---------------------------------------------------------------- bodies

  /** A header line and the data it announces. */
  datatype Piece = Piece(line: seq<byte>, data: seq<byte>)

  ghost predicate LineFree(line: seq<byte>) { forall k :: 0 <= k < |line| ==> !CrlfAt(line, k) }

  /** A line up to the first line end, and what follows it. */
  ghost predicate LineOf(b: seq<byte>, line: seq<byte>, more: seq<byte>) { LineFree(line) && b == line + CRLF + more }

  ghost predicate GoodPiece(p: Piece) { LineFree(p.line) && |p.data| > 0 && SizeLine(p.line, |p.data|) }

  ghost predicate GoodPieces(ps: seq<Piece>) { forall i :: 0 <= i < |ps| ==> GoodPiece(ps[i]) }

  function Framed(ps: seq<Piece>, rest: seq<byte>): seq<byte> {
    if |ps| == 0 then rest else ps[0].line + CRLF + (ps[0].data + CRLF + Framed(ps[1..], rest))
  }

  function DataOf(ps: seq<Piece>): seq<byte> {
    if |ps| == 0 then [] else ps[0].data + DataOf(ps[1..])
  }

  /** The body: its pieces, a last line that announces nothing, and whatever follows that. */
  ghost predicate Whole(b: seq<byte>, ps: seq<Piece>, last: seq<byte>, trailer: seq<byte>) {
    GoodPieces(ps) && LineFree(last) && SizeLine(last, 0) && b == Framed(ps, last + CRLF + trailer)
  }

  /** Why no piece, and no end, stands at the front. */
  ghost predicate Fails(b: seq<byte>, e: Error) {
    match e
    case MalformedHeader => LineFree(b)
    case NonUtf8Size => exists line, more :: LineOf(b, line, more) && !AnyText(line)
    case BadSize => exists line, more :: LineOf(b, line, more) && AnyText(line) && forall n :: !SizeLine(line, n)
    case TruncatedBody => exists line, more, n: nat :: LineOf(b, line, more) && SizeLine(line, n) && |more| < n
    case MissingCrlf => exists line, more, n: nat :: LineOf(b, line, more) && SizeLine(line, n) && 0 < n <= |more| && !CrlfAt(more, n)
  }

  ghost predicate AnyText(line: seq<byte>) { exists chars :: Encodes(chars, line) }

  lemma LineFound(b: seq<byte>, line: seq<byte>, more: seq<byte>)
    requires LineOf(b, line, more)
    ensures FindCrlf(b) == |line| && b[..|line|] == line && b[|line| + 2..] == more
  {
    assert CrlfAt(b, |line|);
    forall k | 0 <= k < |line| ensures !CrlfAt(b, k) {
      assert b[k] == line[k];
      assert !CrlfAt(line, k);
      assert k + 1 < |line| ==> b[k + 1] == line[k + 1];
    }
  }

  lemma FoundLine(b: seq<byte>)
    ensures FindCrlf(b) < 0 <==> LineFree(b)
    ensures FindCrlf(b) >= 0 ==> LineOf(b, b[..FindCrlf(b)], b[FindCrlf(b) + 2..])
  {
    var nl := FindCrlf(b);
    hide FindCrlf;
    if nl >= 0 {
      assert CrlfAt(b, nl);
      assert b == b[..nl] + CRLF + b[nl + 2..];
      assert forall k :: 0 <= k < nl ==> CrlfAt(b[..nl], k) ==> CrlfAt(b, k);
    }
  }

  /** Reading one line: an end, a piece, or the reason for a failure. */
  lemma LineStep(b: seq<byte>, line: seq<byte>, more: seq<byte>, n: nat)
    requires LineOf(b, line, more) && SizeLine(line, n)
    ensures Decoded(b) == if n == 0 then Ok([]) else if |more| < n then Err(TruncatedBody) else if !CrlfAt(more, n) then Err(MissingCrlf) else Prefixed(more[..n], Decoded(more[n + 2..]))
  {
    hide FindCrlf, ChunkSize, SizeLine, CrlfAt, LineOf, Prefixed;
    LineFound(b, line, more);
    SizeExactly(line, n);
  }

  lemma BadLineStep(b: seq<byte>, line: seq<byte>, more: seq<byte>)
    requires LineOf(b, line, more) && forall n :: !SizeLine(line, n)
    ensures Decoded(b) == Err(if AnyText(line) then BadSize else NonUtf8Size)
  {
    LineFound(b, line, more);
    SizeExactly(line, if ChunkSize(line).Ok? then ChunkSize(line).value else 0);
    hide FindCrlf, ChunkSize, SizeLine, Encodes;
  }

  lemma NoText(line: seq<byte>)
    requires !AnyText(line)
    ensures forall n :: !SizeLine(line, n)
  {
    hide Encodes;
  }

  lemma FailStep(b: seq<byte>, e: Error)
    requires Fails(b, e)
    ensures Decoded(b) == Err(e)
  {
    hide SizeLine, AnyText, LineOf, Decoded, LineFree;
    match e
    case MalformedHeader =>
      NoLineStep(b);
    case NonUtf8Size =>
      var line, more :| LineOf(b, line, more) && !AnyText(line);
      NoText(line);
      BadLineStep(b, line, more);
    case BadSize =>
      var line, more :| LineOf(b, line, more) && AnyText(line) && forall n :: !SizeLine(line, n);
      BadLineStep(b, line, more);
    case TruncatedBody =>
      var line, more, n: nat :| LineOf(b, line, more) && SizeLine(line, n) && |more| < n;
      LineStep(b, line, more, n);
    case MissingCrlf =>
      var line, more, n: nat :| LineOf(b, line, more) && SizeLine(line, n) && 0 < n <= |more| && !CrlfAt(more, n);
      LineStep(b, line, more, n);
  }

  lemma NoLineStep(b: seq<byte>)
    requires LineFree(b)
    ensures Decoded(b) == Err(MalformedHeader)
  {
    FoundLine(b);
    hide FindCrlf;
  }

  lemma {:induction false} FramedRead(ps: seq<Piece>, rest: seq<byte>)
    requires GoodPieces(ps)
    ensures Decoded(Framed(ps, rest)) == Prefixed(DataOf(ps), Decoded(rest))
  {
    hide SizeLine, Decoded, LineFree, CrlfAt;
    if |ps| == 0 {
      NothingBefore(Decoded(rest));
    } else {
      var p, tail := ps[0], Framed(ps[1..], rest);
      assert GoodPiece(p);
      FramedRead(ps[1..], rest);
      PieceStep(p, tail);
      PrefixedTwice(p.data, DataOf(ps[1..]), Decoded(rest));
    }
  }

  lemma PieceStep(p: Piece, tail: seq<byte>)
    requires GoodPiece(p)
    ensures Decoded(p.line + CRLF + (p.data + CRLF + tail)) == Prefixed(p.data, Decoded(tail))
  {
    hide SizeLine, Decoded, LineFree;
    var more := p.data + CRLF + tail;
    assert more[..|p.data|] == p.data && more[|p.data| + 2..] == tail && CrlfAt(more, |p.data|);
    LineStep(p.line + CRLF + more, p.line, more, |p.data|);
  }

  /** How far a body reads: pieces, and then an end or a failure. */
  lemma {:induction false} Reading(b: seq<byte>) returns (ps: seq<Piece>, rest: seq<byte>, last: seq<byte>, trailer: seq<byte>)
    ensures GoodPieces(ps) && b == Framed(ps, rest)
    ensures Decoded(rest).Err? ==> Fails(rest, Decoded(rest).error)
    ensures Decoded(rest).Ok? ==> Decoded(rest).value == [] && LineOf(rest, last, trailer) && SizeLine(last, 0)
    decreases |b|
  {
    FoundLine(b);
    var nl := FindCrlf(b);
    hide FindCrlf, Decoded, SizeLine, LineFree, AnyText, CrlfAt;
    if nl < 0 {
      NoLineStep(b);
      ps, rest, last, trailer := [], b, [], [];
    } else {
      ps, rest, last, trailer := ReadingLine(b, b[..nl], b[nl + 2..]);
    }
  }

  lemma NoPieces(b: seq<byte>)
    ensures GoodPieces([]) && Framed([], b) == b
  {
  }

  lemma OnePieceMore(b: seq<byte>, line: seq<byte>, more: seq<byte>, n: nat, ps: seq<Piece>, rest: seq<byte>)
    requires LineOf(b, line, more) && SizeLine(line, n) && 0 < n <= |more| && CrlfAt(more, n)
    requires GoodPieces(ps) && more[n + 2..] == Framed(ps, rest)
    ensures var all := [Piece(line, more[..n])] + ps; GoodPieces(all) && b == Framed(all, rest)
  {
    hide SizeLine, LineFree;
    var p := Piece(line, more[..n]);
    var all := [p] + ps;
    assert more == p.data + CRLF + more[n + 2..];
    assert GoodPiece(p) && all[1..] == ps;
  }

  lemma {:induction false} ReadingLine(b: seq<byte>, line: seq<byte>, more: seq<byte>) returns (ps: seq<Piece>, rest: seq<byte>, last: seq<byte>, trailer: seq<byte>)
    requires LineOf(b, line, more)
    ensures GoodPieces(ps) && b == Framed(ps, rest)
    ensures Decoded(rest).Err? ==> Fails(rest, Decoded(rest).error)
    ensures Decoded(rest).Ok? ==> Decoded(rest).value == [] && LineOf(rest, last, trailer) && SizeLine(last, 0)
    decreases |b|, 0
  {
    hide Decoded, SizeLine, LineFree, AnyText, Framed, GoodPieces, Prefixed;
    assert |b| == |line| + 2 + |more|;
    assert GoodPieces([]) && Framed([], b) == b by { NoPieces(b); }
    ps, rest, last, trailer := [], b, line, more;
    if n: nat :| SizeLine(line, n) {
      LineStep(b, line, more, n);
      if 0 < n <= |more| && CrlfAt(more, n) {
        ps, rest, last, trailer := Reading(more[n + 2..]);
        OnePieceMore(b, line, more, n, ps, rest);
        ps := [Piece(line, more[..n])] + ps;
      }
    } else {
      BadLineStep(b, line, more);
    }
  }

  /** The accepted bodies, and what they decode to: chunks that are all there, each followed by
      its line end, and a last line. */
  lemma AcceptedExactly(b: seq<byte>, out: seq<byte>)
    ensures Decoded(b) == Ok(out) <==> exists ps, last, trailer :: Whole(b, ps, last, trailer) && out == DataOf(ps)
  {
    hide Decoded, SizeLine, LineFree, Framed, DataOf, GoodPiece;
    if ps, last, trailer :| Whole(b, ps, last, trailer) && out == DataOf(ps) {
      var rest := last + CRLF + trailer;
      FramedRead(ps, rest);
      LineStep(rest, last, trailer, 0);
      assert DataOf(ps) + [] == DataOf(ps);
    }
    if Decoded(b) == Ok(out) {
      var ps, rest, last, trailer := Reading(b);
      FramedRead(ps, rest);
      assert DataOf(ps) + [] == DataOf(ps);
      assert Whole(b, ps, last, trailer);
    }
  }

  /** The refused bodies: the pieces that are all there, and behind them the reason. */
  lemma RefusedExactly(b: seq<byte>, e: Error)
    ensures Decoded(b) == Err(e) <==> exists ps, rest :: GoodPieces(ps) && b == Framed(ps, rest) && Fails(rest, e)
  {
    hide Decoded, SizeLine, LineFree, Framed, DataOf, GoodPiece, Fails, GoodPieces;
    if ps, rest :| GoodPieces(ps) && b == Framed(ps, rest) && Fails(rest, e) {
      FramedRead(ps, rest);
      FailStep(rest, e);
    }
    if Decoded(b) == Err(e) {
      var ps, rest, last, trailer := Reading(b);
      FramedRead(ps, rest);
    }
  }
}
