/** The OCaml client's WebSocket framing, after sections 5.2 and 5.3 of RFC 6455. Native integers
    have 63 bits, as on a 64-bit machine. Bits are read arithmetically: `land 0x7f` is the remainder
    by 128, `lsr 8` the quotient by 256, and `lor` of disjoint bits the sum. */
module WsFraming {
  import opened Wrappers

  type Byte = x: int | 0 <= x < 256
  type Bytes = seq<Byte>

  // --------------------------------------------------------------------- masking

  /** Exclusive or of the low `n` bits. */
  function XorBits(a: nat, b: nat, n: nat): nat {
    if n == 0 then 0 else 2 * XorBits(a / 2, b / 2, n - 1) + (a + b) % 2
  }

  function PowerOfTwo(n: nat): nat {
    if n == 0 then 1 else 2 * PowerOfTwo(n - 1)
  }

  lemma {:induction false} XorBitsFits(a: nat, b: nat, n: nat)
    ensures XorBits(a, b, n) < PowerOfTwo(n)
  {
    if n > 0 {
      XorBitsFits(a / 2, b / 2, n - 1);
    }
  }

  function Xor(a: Byte, b: Byte): Byte {
    XorBitsFits(a, b, 8);
    assert PowerOfTwo(8) == 256;
    XorBits(a, b, 8)
  }

  lemma {:induction false} XorBitsUndoes(a: nat, k: nat, n: nat)
    requires a < PowerOfTwo(n)
    ensures XorBits(XorBits(a, k, n), k, n) == a
  {
    if n > 0 {
      var once := XorBits(a, k, n);
      assert once == 2 * XorBits(a / 2, k / 2, n - 1) + (a + k) % 2;
      Halves(once, XorBits(a / 2, k / 2, n - 1), a + k);
      XorBitsUndoes(a / 2, k / 2, n - 1);
      SameBit(once, a, k);
    }
  }

  lemma Halves(once: nat, half: nat, sum: nat)
    requires once == 2 * half + sum % 2
    ensures once / 2 == half && once % 2 == sum % 2
  {
  }

  lemma SameBit(once: nat, a: nat, k: nat)
    requires once % 2 == (a + k) % 2
    ensures (once + k) % 2 == a % 2
  {
  }

  /** The bit of weight 2^i. */
  function Bit(x: nat, i: nat): nat {
    if i == 0 then x % 2 else Bit(x / 2, i - 1)
  }

  /** Each of the low bits is set exactly when it differs in the operands; a byte has no others. */
  lemma {:induction false} XorBitByBit(a: nat, b: nat, n: nat, i: nat)
    requires i < n
    ensures Bit(XorBits(a, b, n), i) == if Bit(a, i) == Bit(b, i) then 0 else 1
  {
    var half := XorBits(a / 2, b / 2, n - 1);
    Halves(2 * half + (a + b) % 2, half, a + b);
    if i == 0 {
      ParityOfSum(a, b);
    } else {
      XorBitByBit(a / 2, b / 2, n - 1, i - 1);
    }
  }

  lemma ParityOfSum(a: nat, b: nat)
    ensures (a + b) % 2 == if a % 2 == b % 2 then 0 else 1
  {
  }

  lemma XorIsBitwise(a: Byte, b: Byte, i: nat)
    requires i < 8
    ensures Bit(Xor(a, b), i) == if Bit(a, i) == Bit(b, i) then 0 else 1
  {
    XorBitByBit(a, b, 8, i);
  }

  function Masked(key: Bytes, s: Bytes): (r: Bytes)
    requires |key| == 4
    ensures |r| == |s| && forall i :: 0 <= i < |s| ==> r[i] == Xor(s[i], key[i % 4])
  {
    if s == [] then [] else Masked(key, s[..|s| - 1]) + [Xor(s[|s| - 1], key[(|s| - 1) % 4])]
  }

  method MaskPayload(key: Bytes, s: Bytes) returns (r: Bytes)
    requires |key| == 4
    ensures r == Masked(key, s)
  {
    var b := new Byte[|s|](i requires 0 <= i < |s| => s[i]);
    for i := 0 to b.Length
      invariant b.Length == |s|
      invariant forall k :: 0 <= k < i ==> b[k] == Xor(s[k], key[k % 4])
      invariant forall k :: i <= k < b.Length ==> b[k] == s[k]
    {
      b[i] := Xor(b[i], key[i % 4]);
    }
    return b[..];
  }

  /** Masking twice with one key is the identity. */
  lemma MaskingUndoesItself(key: Bytes, s: Bytes)
    requires |key| == 4
    ensures Masked(key, Masked(key, s)) == s
  {
    var twice := Masked(key, Masked(key, s));
    forall i | 0 <= i < |s|
      ensures twice[i] == s[i]
    {
      assert PowerOfTwo(8) == 256;
      XorBitsUndoes(s[i], key[i % 4], 8);
    }
  }

  // --------------------------------------------------------------------- lengths

  const LIMIT := 0x4000_0000_0000_0000

  /** A native integer keeps the low 63 bits, read as a signed number. */
  function Wrapped(x: int): (r: int)
    ensures -LIMIT <= r < LIMIT
    ensures 0 <= x < LIMIT ==> r == x
  {
    (x + LIMIT) % (2 * LIMIT) - LIMIT
  }

  /** Shifting right by `8 * k` bits. */
  function ShiftedRight(len: nat, k: nat): nat {
    if k == 0 then len else ShiftedRight(len, k - 1) / 256
  }

  /** The low `n` bytes of a number, most significant first. */
  function BigEndian(len: nat, n: nat): (s: Bytes)
    ensures |s| == n
  {
    if n == 0 then [] else BigEndian(len / 256, n - 1) + [len % 256]
  }

  /** The number some bytes stand for. */
  function Value(s: Bytes): nat {
    if s == [] then 0 else Value(s[..|s| - 1]) * 256 + s[|s| - 1]
  }

  /** What the reader's fold makes of them. */
  function Folded(s: Bytes): int {
    if s == [] then 0 else Wrapped(Wrapped(Folded(s[..|s| - 1]) * 256) + s[|s| - 1])
  }

  function Pow256(n: nat): nat {
    if n == 0 then 1 else 256 * Pow256(n - 1)
  }

  lemma {:induction false} ValueOfBigEndian(len: nat, n: nat)
    requires len < Pow256(n)
    ensures Value(BigEndian(len, n)) == len
  {
    if n > 0 {
      ValueOfBigEndian(len / 256, n - 1);
      assert BigEndian(len, n)[..n - 1] == BigEndian(len / 256, n - 1);
    }
  }

  /** The fold wraps around at every byte, which is the same as wrapping the number once: a length
      is read right exactly when it is below 2^62. */
  lemma {:induction false} FoldedMeaning(s: Bytes)
    ensures Folded(s) == Wrapped(Value(s))
    ensures Folded(s) == Value(s) <==> Value(s) < LIMIT
  {
    if s != [] {
      FoldedMeaning(s[..|s| - 1]);
      WrappedStep(Value(s[..|s| - 1]), s[|s| - 1]);
    }
  }

  lemma WrappedPeriod(x: int, q: int)
    ensures Wrapped(x + 2 * LIMIT * q) == Wrapped(x)
  {
  }

  /** Wrapping takes away a multiple of the period. */
  lemma WrappedBy(x: int) returns (q: int)
    ensures x == Wrapped(x) + 2 * LIMIT * q
  {
    q := (x + LIMIT) / (2 * LIMIT);
  }

  lemma WrappedStep(v: nat, c: nat)
    ensures Wrapped(Wrapped(Wrapped(v) * 256) + c) == Wrapped(v * 256 + c)
  {
    hide Wrapped;
    var q := WrappedBy(v);
    var inner := Wrapped(v) * 256;
    var p := WrappedBy(inner);
    WrappedPeriod(inner + c, 256 * q);
    WrappedPeriod(Wrapped(inner) + c, p);
  }

  /** The extended length after the first two bytes, and what the second byte says of it. */
  function LengthCode(len: nat): (code: Byte)
    ensures code < 128
  {
    if len < 126 then len else if len < 65536 then 126 else 127
  }

  function ExtendedLength(len: nat): Bytes {
    if len < 126 then [] else if len < 65536 then BigEndian(len, 2) else BigEndian(len, 8)
  }

  function ExtendedSize(code: Byte): nat {
    if code < 126 then 0 else if code == 126 then 2 else 8
  }

  function DeclaredLength(code: Byte, extended: Bytes): int {
    if code < 126 then code else Folded(extended)
  }

  lemma LengthRoundTrip(len: nat)
    requires len < LIMIT
    ensures |ExtendedLength(len)| == ExtendedSize(LengthCode(len))
    ensures DeclaredLength(LengthCode(len), ExtendedLength(len)) == len
  {
    assert Pow256(2) == 65536;
    if len < 126 {
    } else if len < 65536 {
      ValueOfBigEndian(len, 2);
      FoldedMeaning(BigEndian(len, 2));
    } else {
      EightBytes();
      ValueOfBigEndian(len, 8);
      FoldedMeaning(BigEndian(len, 8));
    }
  }

  lemma EightBytes()
    ensures Pow256(8) == 0x1_0000_0000_0000_0000
  {
    assert Pow256(4) == 0x1_0000_0000;
    assert Pow256(6) == 0x1_0000_0000_0000;
  }

  lemma {:induction false} ValueBelow(s: Bytes)
    ensures Value(s) < Pow256(|s|)
  {
    if s != [] {
      ValueBelow(s[..|s| - 1]);
    }
  }

  /** No shorter length field says the same (section 5.2 of RFC 6455). */
  lemma LengthIsMinimal(code: Byte, extended: Bytes)
    requires code < 128 && |extended| == ExtendedSize(code) && DeclaredLength(code, extended) >= 0
    ensures |ExtendedLength(DeclaredLength(code, extended))| <= |extended|
  {
    if code == 126 {
      ValueBelow(extended);
      FoldedMeaning(extended);
      assert Pow256(2) == 65536;
    }
  }

  // ---------------------------------------------------------------------- frames

  datatype Frame = Frame(opcode: Byte, payload: Bytes)

  function Body(payload: Bytes, key: Option<Bytes>): Bytes
    requires key.Some? ==> |key.value| == 4
  {
    if key.Some? then key.value + Masked(key.value, payload) else payload
  }

  function FirstByte(opcode: Byte): Byte {
    if opcode < 0x80 then 0x80 + opcode else opcode
  }

  function SecondByte(masked: bool, code: Byte): Byte
    requires code < 128
  {
    if masked then 0x80 + code else code
  }

  /** The bytes of a frame; a client masks with a key, a server does not. */
  function Wire(opcode: Byte, payload: Bytes, key: Option<Bytes>): Bytes
    requires key.Some? ==> |key.value| == 4
  {
    [FirstByte(opcode), SecondByte(key.Some?, LengthCode(|payload|))]
    + ExtendedLength(|payload|)
    + Body(payload, key)
  }

  datatype ReadError = EndOfFile | BadLength

  datatype Parsed = Parsed(frame: Frame, rest: Bytes)

  /** Reading one frame off the front of a stream that ends after `s`. */
  function Parse(s: Bytes): (r: Result<Parsed, ReadError>)
    ensures r.Ok? ==> |r.value.rest| < |s|
  {
    if |s| < 2 then Err(EndOfFile)
    else ParseSized(s[0] % 16, s[1] >= 0x80, s[1] % 128, s[2..])
  }

  function ParseSized(opcode: Byte, masked: bool, code: Byte, s: Bytes): Result<Parsed, ReadError> {
    var size := ExtendedSize(code);
    if |s| < size then Err(EndOfFile)
    else ParseBody(opcode, masked, DeclaredLength(code, s[..size]), s[size..])
  }

  /** A negative length is refused only after the mask key has been read. */
  function ParseBody(opcode: Byte, masked: bool, len: int, s: Bytes): Result<Parsed, ReadError> {
    var skipped := if masked then 4 else 0;
    if |s| < skipped then Err(EndOfFile)
    else if len < 0 then Err(BadLength)
    else if |s| < skipped + len then Err(EndOfFile)
    else
      var payload := s[skipped..skipped + len];
      Ok(Parsed(Frame(opcode, if masked then Masked(s[..4], payload) else payload), s[skipped + len..]))
  }

  method ExtendBig(len: nat) returns (out: Bytes)
    ensures out == BigEndian(len, 8)
  {
    out := [];
    for i := 8 downto 0
      invariant out == BigEndian(ShiftedRight(len, i), 8 - i)
    {
      out := out + [ShiftedRight(len, i) % 256];
      assert ShiftedRight(len, i + 1) == ShiftedRight(len, i) / 256;
    }
  }

  lemma TwoBytes(len: nat)
    ensures BigEndian(len, 2) == [(len / 256) % 256, len % 256]
  {
    assert BigEndian(len / 256, 1) == BigEndian(len / 256 / 256, 0) + [(len / 256) % 256];
  }

  method WriteFrame(opcode: Byte, payload: Bytes, key: Bytes) returns (out: Bytes)
    requires |key| == 4
    ensures out == Wire(opcode, payload, Some(key))
  {
    var len := |payload|;
    out := [FirstByte(opcode)];
    if len < 126 {
      out := out + [0x80 + len];
    } else if len < 65536 {
      out := out + [0x80 + 126];
      out := out + [(len / 256) % 256, len % 256];
      TwoBytes(len);
    } else {
      out := out + [0x80 + 127];
      var extended := ExtendBig(len);
      out := out + extended;
    }
    assert out == [FirstByte(opcode), 0x80 + LengthCode(len)] + ExtendedLength(len);
    var masked := MaskPayload(key, payload);
    assert key + masked == Body(payload, Some(key));
    out := out + (key + masked);
  }

  /** The client's end of the connection: what the server sent and is still unread. */
  class InputChannel {
    var unread: Bytes

    constructor (bytes: Bytes)
      ensures unread == bytes
    {
      unread := bytes;
    }

    /** A read past the end fails and leaves nothing. */
    method ReadExactly(n: nat) returns (bytes: Option<Bytes>)
      modifies this
      ensures bytes.Some? <==> n <= |old(unread)|
      ensures bytes.Some? ==> bytes.value == old(unread)[..n] && unread == old(unread)[n..]
      ensures bytes.None? ==> unread == []
    {
      if n > |unread| {
        unread := [];
        return None;
      }
      bytes := Some(unread[..n]);
      unread := unread[n..];
    }

    method ReadLength(code: Byte) returns (len: Option<int>)
      modifies this
      ensures len.Some? <==> ExtendedSize(code) <= |old(unread)|
      ensures len.Some? ==> len.value == DeclaredLength(code, old(unread)[..ExtendedSize(code)])
      ensures len.Some? ==> unread == old(unread)[ExtendedSize(code)..]
    {
      if code < 126 {
        return Some(code);
      }
      var extended := ReadExactly(if code == 126 then 2 else 8);
      if extended.None? {
        return None;
      }
      var s := extended.value;
      if code == 126 {
        TwoByteFold(s);
        return Some(s[0] as int * 256 + s[1] as int);
      }
      var v := 0;
      for i := 0 to |s|
        invariant v == Folded(s[..i])
      {
        v := Wrapped(Wrapped(v * 256) + s[i]);
        assert s[..i + 1][..i] == s[..i];
      }
      assert s[..|s|] == s;
      return Some(v);
    }

    method ReadBody(opcode: Byte, masked: bool, len: int) returns (r: Result<Frame, ReadError>)
      modifies this
      ensures var parsed := ParseBody(opcode, masked, len, old(unread));
        && (r.Ok? <==> parsed.Ok?)
        && (r.Ok? ==> parsed.value == Parsed(r.value, unread))
        && (r.Err? ==> parsed == Err(r.error))
    {
      var key := ReadExactly(if masked then 4 else 0);
      if key.None? {
        return Err(EndOfFile);
      }
      if len < 0 {
        return Err(BadLength);
      }
      var payload := ReadExactly(len);
      if payload.None? {
        return Err(EndOfFile);
      }
      if masked {
        var plain := MaskPayload(key.value, payload.value);
        return Ok(Frame(opcode, plain));
      }
      return Ok(Frame(opcode, payload.value));
    }

    method ReadFrame() returns (r: Result<Frame, ReadError>)
      modifies this
      ensures var parsed := Parse(old(unread));
        && (r.Ok? <==> parsed.Ok?)
        && (r.Ok? ==> parsed.value == Parsed(r.value, unread))
        && (r.Err? ==> parsed == Err(r.error))
    {
      var b0 := ReadExactly(1);
      if b0.None? {
        return Err(EndOfFile);
      }
      var b1 := ReadExactly(1);
      if b1.None? {
        return Err(EndOfFile);
      }
      assert unread == old(unread)[2..];
      var code := b1.value[0] % 128;
      var len := ReadLength(code);
      if len.None? {
        return Err(EndOfFile);
      }
      r := ReadBody(b0.value[0] % 16, b1.value[0] >= 0x80, len.value);
    }
  }

  lemma TwoByteFold(s: Bytes)
    requires |s| == 2
    ensures Folded(s) == s[0] as int * 256 + s[1] as int
  {
    assert s[..1][..0] == [];
    assert Folded(s[..1]) == s[0];
    assert s[..1][0] == s[0];
  }

  // ------------------------------------------------------------------ round trips

  /** The first byte has the FIN bit and the opcode, the second the mask bit and the length code. */
  lemma FlagBits(opcode: Byte, masked: bool, code: Byte)
    requires code < 128
    ensures FirstByte(opcode) >= 0x80 && (opcode < 0x80 ==> FirstByte(opcode) == 0x80 + opcode)
    ensures FirstByte(opcode) % 16 == opcode % 16
    ensures SecondByte(masked, code) >= 0x80 <==> masked
    ensures SecondByte(masked, code) % 128 == code
  {
  }

  /** Reading a written frame gives it back, with what followed it left unread; only the low four
      bits of the opcode travel. */
  lemma FrameRoundTrip(opcode: Byte, payload: Bytes, key: Option<Bytes>, rest: Bytes)
    requires (key.Some? ==> |key.value| == 4) && |payload| < LIMIT
    ensures Parse(Wire(opcode, payload, key) + rest) == Ok(Parsed(Frame(opcode % 16, payload), rest))
  {
    var b0, b1 := FirstByte(opcode), SecondByte(key.Some?, LengthCode(|payload|));
    var extended, body := ExtendedLength(|payload|), Body(payload, key);
    Regroup([b0, b1], extended, body, rest);
    FlagBits(opcode, key.Some?, LengthCode(|payload|));
    ParseFirstTwo(b0, b1, extended + (body + rest));
    SizedRoundTrip(opcode % 16, payload, key, rest);
  }

  lemma Regroup(a: Bytes, b: Bytes, c: Bytes, d: Bytes)
    ensures a + b + c + d == a + (b + (c + d))
  {
  }

  lemma ParseFirstTwo(b0: Byte, b1: Byte, tail: Bytes)
    ensures Parse([b0, b1] + tail) == ParseSized(b0 % 16, b1 >= 0x80, b1 % 128, tail)
  {
    assert ([b0, b1] + tail)[2..] == tail;
  }

  lemma SizedRoundTrip(opcode: Byte, payload: Bytes, key: Option<Bytes>, rest: Bytes)
    requires (key.Some? ==> |key.value| == 4) && |payload| < LIMIT
    ensures ParseSized(opcode, key.Some?, LengthCode(|payload|), ExtendedLength(|payload|) + (Body(payload, key) + rest))
         == Ok(Parsed(Frame(opcode, payload), rest))
  {
    var extended, after := ExtendedLength(|payload|), Body(payload, key) + rest;
    LengthRoundTrip(|payload|);
    assert (extended + after)[..|extended|] == extended && (extended + after)[|extended|..] == after;
    BodyRoundTrip(opcode, payload, key, rest);
  }

  lemma BodyRoundTrip(opcode: Byte, payload: Bytes, key: Option<Bytes>, rest: Bytes)
    requires key.Some? ==> |key.value| == 4
    ensures ParseBody(opcode, key.Some?, |payload|, Body(payload, key) + rest) == Ok(Parsed(Frame(opcode, payload), rest))
  {
    if key.Some? {
      MaskedBodyRoundTrip(opcode, payload, key.value, rest);
    } else {
      var s := payload + rest;
      assert s[0..|payload|] == payload && s[|payload|..] == rest;
    }
  }

  lemma MaskedBodyRoundTrip(opcode: Byte, payload: Bytes, key: Bytes, rest: Bytes)
    requires |key| == 4
    ensures ParseBody(opcode, true, |payload|, key + Masked(key, payload) + rest) == Ok(Parsed(Frame(opcode, payload), rest))
  {
    var s, n := key + Masked(key, payload) + rest, |payload|;
    assert s[..4] == key;
    assert s[4..4 + n] == Masked(key, payload);
    assert s[4 + n..] == rest;
    MaskingUndoesItself(key, payload);
  }

  /** The examples of section 5.7 of RFC 6455: "Hello" as a single text frame, unmasked, and masked up
      to where its masked payload begins. */
  lemma HelloOnTheWire()
    ensures Wire(1, [0x48, 0x65, 0x6c, 0x6c, 0x6f], None) == [0x81, 0x05, 0x48, 0x65, 0x6c, 0x6c, 0x6f]
    ensures Wire(1, [0x48, 0x65, 0x6c, 0x6c, 0x6f], Some([0x37, 0xfa, 0x21, 0x3d]))[..6]
         == [0x81, 0x85, 0x37, 0xfa, 0x21, 0x3d]
  {
    hide Xor;
  }

  /** A frame announcing 2^62 bytes or more, up to 2^63, is refused: the length reads as negative. */
  lemma HugeLengthIsRefused(b0: Byte, masked: bool, len: nat, key: Bytes, rest: Bytes)
    requires LIMIT <= len < 2 * LIMIT && |key| == 4
    ensures Parse([b0, SecondByte(masked, 127)] + (BigEndian(len, 8) + (key + rest))) == Err(BadLength)
  {
    hide BigEndian, Folded, ParseSized, Parse;
    var extended, after := BigEndian(len, 8), key + rest;
    FlagBits(b0, masked, 127);
    ParseFirstTwo(b0, SecondByte(masked, 127), extended + after);
    HugeLengthFolds(len);
    SizedBadLength(b0 % 16, masked, extended, after);
  }

  lemma HugeLengthFolds(len: nat)
    requires LIMIT <= len < 2 * LIMIT
    ensures Folded(BigEndian(len, 8)) < 0
  {
    hide BigEndian, Folded;
    EightBytes();
    ValueOfBigEndian(len, 8);
    FoldedMeaning(BigEndian(len, 8));
    assert Wrapped(len) < 0;
  }

  lemma SizedBadLength(opcode: Byte, masked: bool, extended: Bytes, after: Bytes)
    requires |extended| == 8 && Folded(extended) < 0 && |after| >= 4
    ensures ParseSized(opcode, masked, 127, extended + after) == Err(BadLength)
  {
    hide Folded;
    assert (extended + after)[..8] == extended && (extended + after)[8..] == after;
  }

  datatype Message = Message(opcode: Byte, payload: Bytes, key: Bytes)

  ghost predicate Sendable(m: Message) {
    m.opcode < 16 && |m.key| == 4 && |m.payload| < LIMIT
  }

  type Outgoing = m: Message | Sendable(m) witness Message(1, [], [0, 0, 0, 0])

  function Encoded(f: Outgoing): Bytes {
    Wire(f.opcode, f.payload, Some(f.key))
  }

  function Stream(frames: seq<Outgoing>): Bytes {
    if frames == [] then [] else Encoded(frames[0]) + Stream(frames[1..])
  }

  function Content(frames: seq<Outgoing>): seq<Frame> {
    if frames == [] then [] else [Frame(frames[0].opcode, frames[0].payload)] + Content(frames[1..])
  }

  /** Every frame that can be read off a stream, and what is left. */
  function ReadAll(s: Bytes): (seq<Frame>, Bytes)
    decreases |s|
  {
    match Parse(s)
    case Err(_) => ([], s)
    case Ok(parsed) =>
      var later := ReadAll(parsed.rest);
      ([parsed.frame] + later.0, later.1)
  }

  lemma ReadAllStep(s: Bytes, frame: Frame, rest: Bytes)
    requires Parse(s) == Ok(Parsed(frame, rest))
    ensures ReadAll(s) == ([frame] + ReadAll(rest).0, ReadAll(rest).1)
  {
  }

  /** Any sequence of frames survives the wire: the stream reads back as those frames, in order. */
  lemma {:induction false} StreamRoundTrip(frames: seq<Outgoing>)
    ensures ReadAll(Stream(frames)) == (Content(frames), [])
  {
    if frames != [] {
      ReadOne(frames[0], Stream(frames[1..]));
      StreamRoundTrip(frames[1..]);
    }
  }

  lemma ReadOne(f: Outgoing, rest: Bytes)
    ensures ReadAll(Encoded(f) + rest) == ([Frame(f.opcode, f.payload)] + ReadAll(rest).0, ReadAll(rest).1)
  {
    hide Parse, Wire, ReadAll;
    FrameRoundTrip(f.opcode, f.payload, Some(f.key), rest);
    ReadAllStep(Encoded(f) + rest, Frame(f.opcode, f.payload), rest);
  }

  /** A read depends on nothing beyond the frame it returns: cut the stream anywhere inside the
      frame and the end of file is reported, never a shorter frame. */
  lemma TruncationIsNoticed(s: Bytes, n: nat)
    requires Parse(s).Ok? && n < |s| - |Parse(s).value.rest|
    ensures Parse(s[..n]) == Err(EndOfFile)
  {
    if n >= 2 {
      var size := ExtendedSize(s[1] % 128);
      var t := s[..n];
      assert t[2..] == s[2..][..n - 2];
      if n >= 2 + size {
        assert t[2..][..size] == s[2..][..size];
      }
    }
  }
}
