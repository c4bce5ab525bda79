/**
  Length-prefixed frames on a byte stream, with optional encryption.
*/
module Framing {
  import opened Options

  type byte = x: int | 0 <= x < 256
  type int32 = x: int | -0x8000_0000 <= x < 0x8000_0000

  const MAX_ALLOWED_READ_BYTES := 1048576

  // ---------------------------------------------------------------- integers

  /** The big-endian value of a byte string. */
  function Unsigned(bs: seq<byte>): nat {
    if bs == [] then 0 else Unsigned(bs[..|bs| - 1]) * 256 + bs[|bs| - 1]
  }

  /** Two's complement reading of a 32-bit value. */
  function Signed(u: nat): int32
    requires u < 0x1_0000_0000
  {
    if u < 0x8000_0000 then u else u - 0x1_0000_0000
  }

  /** The four bytes `(value >> 8 * i) & 0xFF`, high byte first. */
  function Header(value: int32): seq<byte> {
    [(value / 0x100_0000) % 256, (value / 0x1_0000) % 256, (value / 0x100) % 256, value % 256]
  }

  function Weigh(b0: int, b1: int, b2: int, b3: int): int {
    ((b0 * 256 + b1) * 256 + b2) * 256 + b3
  }

  lemma UnsignedOfFour(bs: seq<byte>)
    requires |bs| == 4
    ensures Unsigned(bs) == Weigh(bs[0], bs[1], bs[2], bs[3])
    ensures Unsigned(bs) < 0x1_0000_0000
  {
    var b3, b2, b1 := bs[..3], bs[..2], bs[..1];
    assert b3[..2] == b2 && b2[..1] == b1 && b1[..0] == [];
    assert Unsigned(b1) == b1[0];
    assert Unsigned(b2) == Unsigned(b1) * 256 + b2[1];
    assert Unsigned(b3) == Unsigned(b2) * 256 + b3[2];
  }

  function Int32(bs: seq<byte>): int32
    requires |bs| == 4
  {
    UnsignedOfFour(bs);
    Signed(Unsigned(bs))
  }

  /** Shifting by eight bits at a time. */
  lemma Shifts(x: int)
    ensures x / 0x1_0000 == x / 0x100 / 0x100
    ensures x / 0x100_0000 == x / 0x1_0000 / 0x100
  {
  }

  lemma Digit(x: int)
    ensures x == x / 256 * 256 + x % 256
  {
  }

  /** Reading back what was written, for every int32. */
  lemma HeaderRoundTrip(value: int32)
    ensures Int32(Header(value)) == value
  {
    UnsignedOfFour(Header(value));
    Shifts(value);
    var q1 := value / 0x100;
    var q2 := value / 0x1_0000;
    var q3 := value / 0x100_0000;
    Digit(value);
    Digit(q1);
    Digit(q2);
    assert Weigh(q3, q2 % 256, q1 % 256, value % 256) == value;
    assert q3 % 256 == if value < 0 then q3 + 256 else q3;
  }

  lemma LastDigit(q: int, r: byte, q': int, r': byte)
    requires q * 256 + r == q' * 256 + r'
    ensures q == q' && r == r'
  {
  }

  /** Different byte strings have different values. */
  lemma ValueDetermines(bs: seq<byte>, cs: seq<byte>)
    requires |bs| == |cs| == 4 && Int32(bs) == Int32(cs)
    ensures bs == cs
  {
    UnsignedOfFour(bs);
    UnsignedOfFour(cs);
    var b0: int, b1: int, b2: int := bs[0], bs[1], bs[2];
    var c0: int, c1: int, c2: int := cs[0], cs[1], cs[2];
    LastDigit((b0 * 256 + b1) * 256 + b2, bs[3], (c0 * 256 + c1) * 256 + c2, cs[3]);
    LastDigit(b0 * 256 + b1, bs[2], c0 * 256 + c1, cs[2]);
    LastDigit(b0, bs[1], c0, cs[1]);
  }

  /** Writing again what was read, for every four bytes. */
  lemma BytesRoundTrip(bs: seq<byte>)
    requires |bs| == 4
    ensures Header(Int32(bs)) == bs
  {
    HeaderRoundTrip(Int32(bs));
    ValueDetermines(Header(Int32(bs)), bs);
  }

  method IntToBytes(value: int32) returns (bytes: seq<byte>)
    ensures |bytes| == 4 && bytes == Header(value) && Int32(bytes) == value
  {
    HeaderRoundTrip(value);
    var buffer := new byte[4];
    buffer[0] := (value / 0x100_0000) % 256;
    buffer[1] := (value / 0x1_0000) % 256;
    buffer[2] := (value / 0x100) % 256;
    buffer[3] := value % 256;
    bytes := buffer[..];
  }

  method BytesToInt(bytes: seq<byte>) returns (value: int32)
    requires |bytes| == 4
    ensures value == Int32(bytes)
  {
    UnsignedOfFour(bytes);
    var b0: int, b1: int, b2: int, b3: int := bytes[0], bytes[1], bytes[2], bytes[3];
    var result := b0 * 0x100_0000;
    result := result + b1 * 0x1_0000;
    result := result + b2 * 0x100;
    result := result + b3;
    value := if result < 0x8000_0000 then result else result - 0x1_0000_0000;
  }

  // ---------------------------------------------------------------- channels

  /** An encryption context: a cipher, and how many messages went each way. */
  datatype Cipher = Cipher(encode: (nat, seq<byte>) -> Option<seq<byte>>, decode: (nat, seq<byte>) -> Option<seq<byte>>)

  datatype Context = Context(cipher: Cipher, sent: nat, received: nat)

  /** What one side encodes as its n-th message the other decodes as its n-th. */
  ghost predicate Lawful(c: Cipher) {
    forall n: nat, m :: c.encode(n, m).Some? ==> c.decode(n, c.encode(n, m).value) == Some(m)
  }

  /** The channel's streams: bytes still to be read, bytes written, and whether the
      two streams are still open. */
  datatype Channel = Channel(input: seq<byte>, output: seq<byte>, context: Option<Context>, open: bool)

  datatype Exception = Success | Io | InvalidProtocolBuffer | Failed | Execution

  datatype Parsed = Got(payload: seq<byte>, rest: seq<byte>) | Bad(rest: seq<byte>)

  function Frame(payload: seq<byte>): seq<byte>
    requires |payload| <= MAX_ALLOWED_READ_BYTES
  {
    Header(|payload|) + payload
  }

  /** Take one frame off a byte stream. */
  function TakeFrame(wire: seq<byte>): Parsed {
    if |wire| < 4 then Bad([])
    else
      var n := Int32(wire[..4]);
      if n < 0 || n > MAX_ALLOWED_READ_BYTES then Bad(wire[4..])
      else if |wire| < 4 + n then Bad([])
      else Got(wire[4..4 + n], wire[4 + n..])
  }

  /** Taking a frame off a stream that starts with it. */
  lemma TakeWritten(payload: seq<byte>, rest: seq<byte>)
    requires |payload| <= MAX_ALLOWED_READ_BYTES
    ensures TakeFrame(Frame(payload) + rest) == Got(payload, rest)
  {
    var wire := Frame(payload) + rest;
    HeaderRoundTrip(|payload|);
    assert wire[..4] == Header(|payload|);
    assert wire[4..4 + |payload|] == payload && wire[4 + |payload|..] == rest;
  }

  /** Whatever frame is taken off a stream, the stream started with that frame: the
      reader accepts only what the writer produces. */
  lemma TakenWasWritten(wire: seq<byte>)
    requires TakeFrame(wire).Got?
    ensures var p := TakeFrame(wire); |p.payload| <= MAX_ALLOWED_READ_BYTES && wire == Frame(p.payload) + p.rest
  {
    var p := TakeFrame(wire);
    BytesRoundTrip(wire[..4]);
    assert wire == wire[..4] + wire[4..4 + |p.payload|] + wire[4 + |p.payload|..];
  }

  /** What goes on the wire for `data`, and the context afterwards. */
  function Encode(context: Option<Context>, data: seq<byte>): Option<(seq<byte>, Option<Context>)> {
    if context.None? then Some((data, None))
    else
      var c := context.value;
      match c.cipher.encode(c.sent, data)
      case None => None
      case Some(bytes) => Some((bytes, Some(c.(sent := c.sent + 1))))
  }

  /** Write, behind the pause gate. A message refused for its size, or because the
      stream is closed, was encoded already and uses up its number. */
  function WriteTo(ch: Channel, data: seq<byte>): (Channel, Exception) {
    match Encode(ch.context, data)
    case None => (ch, Io)
    case Some((bytes, context)) =>
      if |bytes| > MAX_ALLOWED_READ_BYTES || !ch.open then (ch.(context := context), Io)
      else (ch.(context := context, output := ch.output + Frame(bytes)), Success)
  }

  /** What an encrypted channel makes of the bytes of one frame: it decodes them, lets
      a plaintext keep-alive through, and erases everything else. */
  function Decode(c: Context, bytes: seq<byte>, isKeepAlive: seq<byte> -> bool): (seq<byte>, Context) {
    match c.cipher.decode(c.received, bytes)
    case Some(m) => (m, c.(received := c.received + 1))
    case None => (if isKeepAlive(bytes) then bytes else [], c)
  }

  function ReadFrom(ch: Channel, isKeepAlive: seq<byte> -> bool): (Channel, Exception, seq<byte>) {
    if !ch.open then (ch, Io, [])
    else
      match TakeFrame(ch.input)
      case Bad(rest) => (ch.(input := rest), Io, [])
      case Got(bytes, rest) =>
        if ch.context.None? then (ch.(input := rest), Success, bytes)
        else
          var (message, context) := Decode(ch.context.value, bytes, isKeepAlive);
          var next := ch.(input := rest, context := Some(context));
          if message == [] then (next, InvalidProtocolBuffer, []) else (next, Success, message)
  }

  // ---------------------------------------------------------------- one message

  /** An open reader that agrees with the writer on the cipher and on the count of
      messages from `w` to `r`. */
  ghost predicate InSync(w: Channel, r: Channel) {
    && r.open
    && (|| (w.context.None? && r.context.None?)
        || (&& w.context.Some? && r.context.Some?
            && w.context.value.cipher == r.context.value.cipher
            && Lawful(w.context.value.cipher)
            && w.context.value.sent == r.context.value.received))
  }

  /** A written message is read back exactly when it is not an empty one on an
      encrypted channel. */
  lemma ReadBack(w: Channel, r: Channel, m: seq<byte>, bytes: seq<byte>, rest: seq<byte>, isKeepAlive: seq<byte> -> bool)
    requires InSync(w, r) && WriteTo(w, m).1 == Success
    requires WriteTo(w, m).0.output == w.output + bytes && r.input == bytes + rest
    ensures var (w', r', e) := (WriteTo(w, m).0, ReadFrom(r, isKeepAlive).0, ReadFrom(r, isKeepAlive).1);
            && InSync(w', r') && r'.input == rest && r'.output == r.output && w'.input == w.input
            && (r'.context.Some? <==> r.context.Some?) && (w'.context.Some? <==> w.context.Some?)
            && (e == Success <==> r.context.None? || m != [])
            && (e == Success ==> ReadFrom(r, isKeepAlive).2 == m)
  {
    var payload := Encode(w.context, m).value.0;
    assert (w.output + bytes)[|w.output|..] == bytes;
    assert (w.output + Frame(payload))[|w.output|..] == Frame(payload);
    TakeWritten(payload, rest);
  }

  /** What an encrypted reader makes of a frame that does not decode: a keep-alive passes,
      everything else is erased, and the context waits for the same number. */
  lemma Undecoded(r: Channel, p: seq<byte>, rest: seq<byte>, isKeepAlive: seq<byte> -> bool)
    requires r.open && r.context.Some? && |p| <= MAX_ALLOWED_READ_BYTES && p != []
    requires r.context.value.cipher.decode(r.context.value.received, p).None? && r.input == Frame(p) + rest
    ensures ReadFrom(r, isKeepAlive) ==
            if isKeepAlive(p) then (r.(input := rest), Success, p) else (r.(input := rest), InvalidProtocolBuffer, [])
  {
    TakeWritten(p, rest);
  }

  /** What it makes of one that does: the message, or an error if it is empty; and the next
      number is due. */
  lemma Decoded(r: Channel, p: seq<byte>, m: seq<byte>, rest: seq<byte>, isKeepAlive: seq<byte> -> bool)
    requires r.open && r.context.Some? && |p| <= MAX_ALLOWED_READ_BYTES && r.input == Frame(p) + rest
    requires r.context.value.cipher.decode(r.context.value.received, p) == Some(m)
    ensures var c := r.context.value;
            var next := r.(input := rest, context := Some(c.(received := c.received + 1)));
            ReadFrom(r, isKeepAlive) == if m == [] then (next, InvalidProtocolBuffer, []) else (next, Success, m)
  {
    TakeWritten(p, rest);
  }

  /** A reader in plaintext takes what is there. */
  lemma PlainRead(r: Channel, p: seq<byte>, rest: seq<byte>, isKeepAlive: seq<byte> -> bool)
    requires r.open && r.context.None? && |p| <= MAX_ALLOWED_READ_BYTES && r.input == Frame(p) + rest
    ensures ReadFrom(r, isKeepAlive) == (r.(input := rest), Success, p)
  {
    TakeWritten(p, rest);
  }

  /** A reader fails for its stream exactly if that is closed or does not begin with a frame
      within the limit; and then it has no message, and the same context. */
  lemma ReadFailsExactly(r: Channel, isKeepAlive: seq<byte> -> bool)
    ensures ReadFrom(r, isKeepAlive).1 == Io <==>
            !r.open || !exists p: seq<byte>, rest: seq<byte> :: BeginsWith(r.input, p, rest)
    ensures ReadFrom(r, isKeepAlive).1 == Io ==>
              ReadFrom(r, isKeepAlive).2 == [] && ReadFrom(r, isKeepAlive).0 == r.(input := ReadFrom(r, isKeepAlive).0.input)
  {
    if r.open && TakeFrame(r.input).Got? {
      TakenWasWritten(r.input);
      assert BeginsWith(r.input, TakeFrame(r.input).payload, TakeFrame(r.input).rest);
    } else if r.open && exists p: seq<byte>, rest: seq<byte> :: BeginsWith(r.input, p, rest) {
      var p: seq<byte>, rest: seq<byte> :| BeginsWith(r.input, p, rest);
      TakeWritten(p, rest);
    }
  }

  ghost predicate BeginsWith(input: seq<byte>, p: seq<byte>, rest: seq<byte>) {
    |p| <= MAX_ALLOWED_READ_BYTES && input == Frame(p) + rest
  }

  /** A message is written exactly if the stream is open, it can be encoded, and what comes
      out is within the limit; otherwise no byte is. Its number is used up as soon as it is
      encoded. */
  lemma WritesExactly(w: Channel, m: seq<byte>)
    ensures var (w', e) := WriteTo(w, m);
            var p := if w.context.None? then Some(m) else w.context.value.cipher.encode(w.context.value.sent, m);
            && (e == Success <==> w.open && p.Some? && |p.value| <= MAX_ALLOWED_READ_BYTES)
            && (e != Success ==> e == Io && w'.output == w.output)
            && (e == Success ==> w'.output == w.output + Header(|p.value|) + p.value)
            && w' == w.(output := w'.output, context := w'.context)
            && w'.context == if w.context.None? || p.None? then w.context
                             else Some(w.context.value.(sent := w.context.value.sent + 1))
  {
    var p := if w.context.None? then Some(m) else w.context.value.cipher.encode(w.context.value.sent, m);
    if p.Some? && |p.value| <= MAX_ALLOWED_READ_BYTES {
      assert w.output + Frame(p.value) == w.output + Header(|p.value|) + p.value;
    }
  }

  /** Write's size bound and Read's agree: a plaintext message is written exactly when
      its frame is one a reader takes. */
  lemma SameBound(ch: Channel, m: seq<byte>)
    requires ch.open && ch.context.None? && |m| < 0x8000_0000
    ensures WriteTo(ch, m).1 == Success <==> TakeFrame(Header(|m|) + m) == Got(m, [])
  {
    if |m| <= MAX_ALLOWED_READ_BYTES {
      TakeWritten(m, []);
      assert Frame(m) + [] == Header(|m|) + m;
    } else {
      HeaderRoundTrip(|m|);
      assert (Header(|m|) + m)[..4] == Header(|m|);
    }
  }

  // ---------------------------------------------------------------- whole streams

  function WriteAll(ch: Channel, ms: seq<seq<byte>>): (Channel, bool)
    decreases |ms|
  {
    if ms == [] then (ch, true)
    else
      var (next, e) := WriteTo(ch, ms[0]);
      if e != Success then (next, false) else WriteAll(next, ms[1..])
  }

  function ReadAll(ch: Channel, n: nat, isKeepAlive: seq<byte> -> bool): (Channel, Option<seq<seq<byte>>>)
    decreases n
  {
    if n == 0 then (ch, Some([]))
    else
      var (next, e, m) := ReadFrom(ch, isKeepAlive);
      if e != Success then (next, None)
      else
        var (last, ms) := ReadAll(next, n - 1, isKeepAlive);
        (last, if ms.Some? then Some([m] + ms.value) else None)
  }

  lemma {:induction false} WriteAllAppends(ch: Channel, ms: seq<seq<byte>>)
    ensures var end := WriteAll(ch, ms).0;
            ch.output <= end.output && end.input == ch.input && end.open == ch.open && (end.context.None? <==> ch.context.None?)
    decreases |ms|
  {
    if ms != [] {
      WriteAllAppends(WriteTo(ch, ms[0]).0, ms[1..]);
    }
  }

  /** A plaintext channel takes exactly the lists whose messages are all in bounds. */
  lemma {:induction false} PlainWrites(ch: Channel, ms: seq<seq<byte>>)
    requires ch.open && ch.context.None?
    ensures WriteAll(ch, ms).1 <==> forall i :: 0 <= i < |ms| ==> |ms[i]| <= MAX_ALLOWED_READ_BYTES
    decreases |ms|
  {
    if ms != [] {
      PlainWrites(WriteTo(ch, ms[0]).0, ms[1..]);
      assert ms == [ms[0]] + ms[1..];
    }
  }

  /** No message is empty, if the channel is encrypted. */
  predicate Speakable(ch: Channel, ms: seq<seq<byte>>) {
    ch.context.Some? ==> forall i :: 0 <= i < |ms| ==> ms[i] != []
  }

  /** Cutting `bytes` where a stream that grew by them twice stood in between. */
  lemma Cut(start: seq<byte>, middle: seq<byte>, end: seq<byte>, bytes: seq<byte>) returns (first: seq<byte>, others: seq<byte>)
    requires start <= middle <= end && end == start + bytes
    ensures bytes == first + others && middle == start + first && end == middle + others
  {
    first, others := middle[|start|..], end[|middle|..];
    assert middle == start + first && end == middle + others;
    assert bytes == end[|start|..] == first + others;
  }

  /** The bytes of a list are those of its first message, then those of the others. */
  lemma SplitBytes(w: Channel, ms: seq<seq<byte>>, bytes: seq<byte>) returns (first: seq<byte>, others: seq<byte>)
    requires ms != [] && WriteAll(w, ms).1 && WriteAll(w, ms).0.output == w.output + bytes
    ensures bytes == first + others
    ensures var w' := WriteTo(w, ms[0]);
            && w'.1 == Success && w'.0.output == w.output + first && WriteAll(w'.0, ms[1..]) == WriteAll(w, ms)
            && WriteAll(w, ms).0.output == w'.0.output + others
  {
    var w' := WriteTo(w, ms[0]).0;
    WriteAllAppends(w', ms[1..]);
    first, others := Cut(w.output, w'.output, WriteAll(w, ms).0.output, bytes);
  }

  /** Writing any list of messages and reading as many gives back the same list, and
      leaves the two ends in step; but a list with an empty message does not come back
      whole from an encrypted channel. */
  lemma {:induction false} RoundTrip(w: Channel, r: Channel, ms: seq<seq<byte>>, bytes: seq<byte>, rest: seq<byte>, isKeepAlive: seq<byte> -> bool)
    requires InSync(w, r) && WriteAll(w, ms).1
    requires WriteAll(w, ms).0.output == w.output + bytes && r.input == bytes + rest
    ensures ReadAll(r, |ms|, isKeepAlive).1 == if Speakable(w, ms) then Some(ms) else None
    ensures Speakable(w, ms) ==>
              var r' := ReadAll(r, |ms|, isKeepAlive).0;
              r'.input == rest && r'.output == r.output && InSync(WriteAll(w, ms).0, r')
    decreases |ms|
  {
    if ms == [] {
      assert w.output + bytes == w.output + [];
      assert bytes == [] && [] + rest == rest;
    } else {
      var w', r' := WriteTo(w, ms[0]).0, ReadFrom(r, isKeepAlive).0;
      var first, others := SplitBytes(w, ms, bytes);
      assert bytes + rest == first + (others + rest);
      ReadBack(w, r, ms[0], first, others + rest, isKeepAlive);
      assert ms == [ms[0]] + ms[1..];
      if ReadFrom(r, isKeepAlive).1 == Success {
        RoundTrip(w', r', ms[1..], others, rest, isKeepAlive);
      }
    }
  }

  /** The same across a switch-over in the middle of the stream: plaintext messages,
      then both ends enable one new context, then encrypted messages. */
  lemma SwitchedRoundTrip(w: Channel, r: Channel, plain: seq<seq<byte>>, secret: seq<seq<byte>>, cipher: Cipher,
                          bytes: seq<byte>, isKeepAlive: seq<byte> -> bool)
    requires w.context.None? && r.context.None? && r.open && Lawful(cipher)
    requires forall i :: 0 <= i < |secret| ==> secret[i] != []
    requires WriteAll(w, plain).1 && WriteAll(Enable(WriteAll(w, plain).0, cipher), secret).1
    requires WriteAll(Enable(WriteAll(w, plain).0, cipher), secret).0.output == w.output + bytes && r.input == bytes
    ensures ReadAll(r, |plain|, isKeepAlive).1 == Some(plain)
    ensures var r' := ReadAll(Enable(ReadAll(r, |plain|, isKeepAlive).0, cipher), |secret|, isKeepAlive);
            r'.1 == Some(secret) && r'.0.input == []
  {
    var w1 := WriteAll(w, plain).0;
    var w2 := Enable(w1, cipher);
    WriteAllAppends(w, plain);
    WriteAllAppends(w2, secret);
    var b1, b2 := Cut(w.output, w1.output, w.output + bytes, bytes);
    RoundTrip(w, r, plain, b1, b2, isKeepAlive);
    assert b2 == b2 + [];
    RoundTrip(w2, Enable(ReadAll(r, |plain|, isKeepAlive).0, cipher), secret, b2, [], isKeepAlive);
  }

  /** Keep-alives that do not decode. */
  ghost predicate KeepAlives(ms: seq<seq<byte>>, c: Context, isKeepAlive: seq<byte> -> bool) {
    forall i :: 0 <= i < |ms| ==> ms[i] != [] && isKeepAlive(ms[i]) && c.cipher.decode(c.received, ms[i]).None?
  }

  /** Keep-alives written in plaintext are heard by a reader that is encrypted already, and
      leave its context as it was. */
  lemma {:induction false} KeepAlivesPass(w: Channel, r: Channel, ms: seq<seq<byte>>, bytes: seq<byte>, rest: seq<byte>, isKeepAlive: seq<byte> -> bool)
    requires w.context.None? && r.open && r.context.Some? && KeepAlives(ms, r.context.value, isKeepAlive)
    requires WriteAll(w, ms).1 && WriteAll(w, ms).0.output == w.output + bytes && r.input == bytes + rest
    ensures ReadAll(r, |ms|, isKeepAlive) == (r.(input := rest), Some(ms))
    decreases |ms|
  {
    if ms == [] {
      assert bytes == (w.output + bytes)[|w.output|..] == [];
      assert [] + rest == rest;
    } else {
      var first, others := SplitBytes(w, ms, bytes);
      assert first == (w.output + first)[|w.output|..] == (w.output + Frame(ms[0]))[|w.output|..] == Frame(ms[0]);
      assert bytes + rest == Frame(ms[0]) + (others + rest);
      Undecoded(r, ms[0], others + rest, isKeepAlive);
      var r' := r.(input := others + rest);
      assert forall i :: 0 <= i < |ms[1..]| ==> ms[1..][i] == ms[i + 1];
      KeepAlivesPass(WriteTo(w, ms[0]).0, r', ms[1..], others, rest, isKeepAlive);
      assert ms == [ms[0]] + ms[1..];
    }
  }

  /** So a reader that switched over first loses nothing: it hears the keep-alives written
      before the writer does, and decodes everything written after. */
  lemma LateSwitchRoundTrip(w: Channel, r: Channel, early: seq<seq<byte>>, secret: seq<seq<byte>>, cipher: Cipher,
                            bytes: seq<byte>, isKeepAlive: seq<byte> -> bool)
    requires w.context.None? && r.open && Lawful(cipher) && KeepAlives(early, Context(cipher, 0, 0), isKeepAlive)
    requires forall i :: 0 <= i < |secret| ==> secret[i] != []
    requires WriteAll(w, early).1 && WriteAll(Enable(WriteAll(w, early).0, cipher), secret).1
    requires WriteAll(Enable(WriteAll(w, early).0, cipher), secret).0.output == w.output + bytes && r.input == bytes
    ensures ReadAll(Enable(r, cipher), |early|, isKeepAlive).1 == Some(early)
    ensures ReadAll(ReadAll(Enable(r, cipher), |early|, isKeepAlive).0, |secret|, isKeepAlive).1 == Some(secret)
  {
    var w1 := WriteAll(w, early).0;
    var w2 := Enable(w1, cipher);
    WriteAllAppends(w, early);
    WriteAllAppends(w2, secret);
    var b1, b2 := Cut(w.output, w1.output, w.output + bytes, bytes);
    KeepAlivesPass(w, Enable(r, cipher), early, b1, b2, isKeepAlive);
    assert b2 == b2 + [];
    RoundTrip(w2, Enable(r, cipher).(input := b2), secret, b2, [], isKeepAlive);
  }

  function Enable(ch: Channel, cipher: Cipher): Channel {
    ch.(context := Some(Context(cipher, 0, 0)))
  }

  // ---------------------------------------------------------------- refused messages

  /** Every message is written, or refused, and the next one follows. */
  function WriteMany(ch: Channel, ms: seq<seq<byte>>): Channel
    decreases |ms|
  {
    if ms == [] then ch else WriteMany(WriteTo(ch, ms[0]).0, ms[1..])
  }

  /** How many of them were written. */
  function CountWritten(ch: Channel, ms: seq<seq<byte>>): nat
    decreases |ms|
  {
    if ms == [] then 0
    else
      var (next, e) := WriteTo(ch, ms[0]);
      CountWritten(next, ms[1..]) + if e == Success then 1 else 0
  }

  /** Read `n` frames, and keep the messages of those that can be read. */
  function HearMany(ch: Channel, n: nat, isKeepAlive: seq<byte> -> bool): (Channel, seq<seq<byte>>)
    decreases n
  {
    if n == 0 then (ch, [])
    else
      var (next, e, m) := ReadFrom(ch, isKeepAlive);
      var (last, ms) := HearMany(next, n - 1, isKeepAlive);
      (last, if e == Success then [m] + ms else ms)
  }

  /** What a reader hears of a list of messages. On a plaintext channel, those within the
      limit. On an encrypted one, those that are not empty, up to the first that was
      encoded and then refused for its size: its number is missing on the wire. */
  function Heard(ch: Channel, ms: seq<seq<byte>>): seq<seq<byte>>
    decreases |ms|
  {
    if ms == [] then []
    else
      var (next, e) := WriteTo(ch, ms[0]);
      if e == Success then (if ch.context.Some? && ms[0] == [] then [] else [ms[0]]) + Heard(next, ms[1..])
      else if ch.context.Some? && Encode(ch.context, ms[0]).Some? then []
      else Heard(next, ms[1..])
  }

  /** A message decodes under no smaller number than its own, and ciphertext is not mistaken
      for a keep-alive. */
  ghost predicate Strict(c: Cipher, isKeepAlive: seq<byte> -> bool) {
    && (forall n: nat, k: nat, m :: k < n && c.encode(n, m).Some? ==> c.decode(k, c.encode(n, m).value).None?)
    && (forall n: nat, m :: c.encode(n, m).Some? ==> !isKeepAlive(c.encode(n, m).value))
  }

  /** For instance: `n` zeros, a one, and the message. */
  function Count(n: nat, m: seq<byte>): seq<byte> {
    seq(n, _ => 0) + [1] + m
  }

  function Uncount(n: nat, bytes: seq<byte>): Option<seq<byte>> {
    if n < |bytes| && bytes[n] == 1 then Some(bytes[n + 1..]) else None
  }

  lemma SomeCipherIsStrict() returns (c: Cipher)
    ensures Lawful(c) && Strict(c, _ => false)
  {
    c := Cipher((n, m) => Some(Count(n, m)), Uncount);
    forall n: nat, m: seq<byte> ensures Uncount(n, Count(n, m)) == Some(m) {
      assert Count(n, m)[n + 1..] == m;
    }
    forall n: nat, k: nat, m: seq<byte> | k < n ensures Uncount(k, Count(n, m)) == None {
      assert Count(n, m)[k] == 0;
    }
  }

  /** A reader that missed a number of the writer's context. */
  ghost predicate Behind(w: Channel, r: Channel, isKeepAlive: seq<byte> -> bool) {
    && r.open && w.context.Some? && r.context.Some?
    && w.context.value.cipher == r.context.value.cipher && Strict(w.context.value.cipher, isKeepAlive)
    && r.context.value.received < w.context.value.sent
  }

  lemma {:induction false} WriteManyAppends(ch: Channel, ms: seq<seq<byte>>)
    ensures ch.output <= WriteMany(ch, ms).output
    decreases |ms|
  {
    if ms != [] {
      WriteManyAppends(WriteTo(ch, ms[0]).0, ms[1..]);
    }
  }

  /** Once behind, a reader erases a frame, and stays behind. */
  lemma ErasesOne(w: Channel, r: Channel, m: seq<byte>, bytes: seq<byte>, rest: seq<byte>, isKeepAlive: seq<byte> -> bool)
    requires Behind(w, r, isKeepAlive) && WriteTo(w, m).1 == Success
    requires WriteTo(w, m).0.output == w.output + bytes && r.input == bytes + rest
    ensures var (r', e, _) := ReadFrom(r, isKeepAlive);
            e == InvalidProtocolBuffer && r'.input == rest && Behind(WriteTo(w, m).0, r', isKeepAlive)
  {
    var payload := Encode(w.context, m).value.0;
    assert (w.output + bytes)[|w.output|..] == bytes;
    assert (w.output + Frame(payload))[|w.output|..] == Frame(payload);
    TakeWritten(payload, rest);
  }

  /** The reader hears nothing of the messages, and has then read all of them. */
  ghost predicate Deaf(w: Channel, r: Channel, ms: seq<seq<byte>>, rest: seq<byte>, isKeepAlive: seq<byte> -> bool) {
    var (r', heard) := HearMany(r, CountWritten(w, ms), isKeepAlive);
    heard == [] && r'.input == rest
  }

  lemma DeafToFirst(w: Channel, r: Channel, ms: seq<seq<byte>>, first: seq<byte>, rest: seq<byte>, others: seq<byte>, isKeepAlive: seq<byte> -> bool)
    requires ms != [] && Behind(w, r, isKeepAlive) && WriteTo(w, ms[0]).1 == Success
    requires WriteTo(w, ms[0]).0.output == w.output + first && r.input == first + (others + rest)
    requires Deaf(WriteTo(w, ms[0]).0, ReadFrom(r, isKeepAlive).0, ms[1..], rest, isKeepAlive)
    ensures Deaf(w, r, ms, rest, isKeepAlive)
  {
    ErasesOne(w, r, ms[0], first, others + rest, isKeepAlive);
  }

  /** A message that is refused to a reader behind leaves it behind. */
  lemma StillBehind(w: Channel, r: Channel, m: seq<byte>, isKeepAlive: seq<byte> -> bool)
    requires Behind(w, r, isKeepAlive) && WriteTo(w, m).1 != Success
    ensures Behind(WriteTo(w, m).0, r, isKeepAlive) && WriteTo(w, m).0.output == w.output
  {
  }

  lemma {:induction false} HearsNothing(w: Channel, r: Channel, ms: seq<seq<byte>>, bytes: seq<byte>, rest: seq<byte>, isKeepAlive: seq<byte> -> bool)
    requires Behind(w, r, isKeepAlive)
    requires WriteMany(w, ms).output == w.output + bytes && r.input == bytes + rest
    ensures Deaf(w, r, ms, rest, isKeepAlive)
    decreases |ms|
  {
    if ms == [] {
      assert bytes == (w.output + bytes)[|w.output|..] == [];
    } else {
      var w' := WriteTo(w, ms[0]).0;
      WriteManyAppends(w', ms[1..]);
      var first, others := Cut(w.output, w'.output, WriteMany(w, ms).output, bytes);
      assert bytes + rest == first + (others + rest);
      if WriteTo(w, ms[0]).1 == Success {
        ErasesOne(w, r, ms[0], first, others + rest, isKeepAlive);
        HearsNothing(w', ReadFrom(r, isKeepAlive).0, ms[1..], others, rest, isKeepAlive);
        DeafToFirst(w, r, ms, first, rest, others, isKeepAlive);
      } else {
        StillBehind(w, r, ms[0], isKeepAlive);
        assert first == [];
        HearsNothing(w', r, ms[1..], others, rest, isKeepAlive);
      }
    }
  }

  /** A message that is not written leaves the channel as it was, or uses up a number. */
  lemma NotWritten(w: Channel, r: Channel, m: seq<byte>, isKeepAlive: seq<byte> -> bool)
    requires w.open && InSync(w, r) && (w.context.Some? ==> Strict(w.context.value.cipher, isKeepAlive)) && WriteTo(w, m).1 != Success
    ensures WriteTo(w, m).0.output == w.output
    ensures if w.context.Some? && Encode(w.context, m).Some? then Behind(WriteTo(w, m).0, r, isKeepAlive) else WriteTo(w, m).0 == w
  {
  }

  /** The reader hears what it should, and has then read all of it. */
  ghost predicate HearsAll(w: Channel, r: Channel, ms: seq<seq<byte>>, rest: seq<byte>, isKeepAlive: seq<byte> -> bool) {
    var (r', heard) := HearMany(r, CountWritten(w, ms), isKeepAlive);
    heard == Heard(w, ms) && r'.input == rest && (w.context.None? ==> r' == r.(input := rest))
  }

  lemma HearsFirst(w: Channel, r: Channel, ms: seq<seq<byte>>, first: seq<byte>, others: seq<byte>, rest: seq<byte>, isKeepAlive: seq<byte> -> bool)
    requires ms != [] && InSync(w, r) && WriteTo(w, ms[0]).1 == Success
    requires WriteTo(w, ms[0]).0.output == w.output + first && r.input == first + (others + rest)
    requires HearsAll(WriteTo(w, ms[0]).0, ReadFrom(r, isKeepAlive).0, ms[1..], rest, isKeepAlive)
    ensures HearsAll(w, r, ms, rest, isKeepAlive)
  {
    ReadBack(w, r, ms[0], first, others + rest, isKeepAlive);
  }

  /** A reader in step hears exactly that, of any list of messages. */
  lemma {:induction false} HearsExactly(w: Channel, r: Channel, ms: seq<seq<byte>>, bytes: seq<byte>, rest: seq<byte>, isKeepAlive: seq<byte> -> bool)
    requires w.open && InSync(w, r) && (w.context.Some? ==> Strict(w.context.value.cipher, isKeepAlive))
    requires WriteMany(w, ms).output == w.output + bytes && r.input == bytes + rest
    ensures HearsAll(w, r, ms, rest, isKeepAlive)
    decreases |ms|
  {
    if ms == [] {
      assert bytes == (w.output + bytes)[|w.output|..] == [];
    } else {
      var w' := WriteTo(w, ms[0]).0;
      WriteManyAppends(w', ms[1..]);
      var first, others := Cut(w.output, w'.output, WriteMany(w, ms).output, bytes);
      assert bytes + rest == first + (others + rest);
      if WriteTo(w, ms[0]).1 == Success {
        ReadBack(w, r, ms[0], first, others + rest, isKeepAlive);
        HearsExactly(w', ReadFrom(r, isKeepAlive).0, ms[1..], others, rest, isKeepAlive);
        HearsFirst(w, r, ms, first, others, rest, isKeepAlive);
      } else {
        NotWritten(w, r, ms[0], isKeepAlive);
        assert first == [];
        if w.context.Some? && Encode(w.context, ms[0]).Some? {
          HearsNothing(w', r, ms[1..], others, rest, isKeepAlive);
        } else {
          HearsExactly(w', r, ms[1..], others, rest, isKeepAlive);
        }
      }
    }
  }

  // ---------------------------------------------------------------- the channel object

  /** How a wait of a paused writer ended: for no reason, because the channel was resumed or
      closed by another thread, or by failing. */
  datatype Wait = Spurious | Resumed | ClosedMeanwhile | WaitFailed

  /** The channel a writer finds when it gets through the gate, or None while it waits. A
      failed wait lets it through; closing lets it through only the first time. */
  function Gate(ch: Channel, paused: bool, waits: seq<Wait>): Option<Channel> {
    if !paused then Some(ch)
    else if waits == [] then None
    else
      match waits[0]
      case Spurious => Gate(ch, paused, waits[1..])
      case Resumed => Some(ch)
      case ClosedMeanwhile => if ch.open then Some(ch.(open := false)) else Gate(ch, paused, waits[1..])
      case WaitFailed => Some(ch)
  }

  /** The wait ends with this, on a channel that is open or not. */
  predicate EndsWait(w: Wait, open: bool) {
    w.Resumed? || w.WaitFailed? || (w.ClosedMeanwhile? && open)
  }

  /** A writer gets through exactly if the channel is not paused or one of its waits ends the
      wait; it then finds the channel as it was, or closed if the first such wait ended by
      closing. */
  lemma {:induction false} GateExactly(ch: Channel, paused: bool, waits: seq<Wait>)
    ensures Gate(ch, paused, waits).Some? <==> !paused || exists i :: 0 <= i < |waits| && EndsWait(waits[i], ch.open)
    ensures forall i :: paused && 0 <= i < |waits| && EndsWait(waits[i], ch.open) && (forall j :: 0 <= j < i ==> !EndsWait(waits[j], ch.open)) ==>
              Gate(ch, paused, waits) == Some(if waits[i].ClosedMeanwhile? then ch.(open := false) else ch)
    ensures !paused ==> Gate(ch, paused, waits) == Some(ch)
  {
    if paused && waits != [] && !EndsWait(waits[0], ch.open) {
      GateExactly(ch, paused, waits[1..]);
      assert forall i :: 0 < i < |waits| ==> waits[i] == waits[1..][i - 1];
      assert forall i :: 0 <= i < |waits[1..]| ==> waits[1..][i] == waits[i + 1];
    }
  }

  /** One thread's view of a channel; the interleavings of several threads are the
      subject of module Writers. */
  class BaseEndpointChannel {
    var input: seq<byte>
    var output: seq<byte>
    var context: Option<Context>
    var open: bool
    var paused: bool
    var closed: bool
    var closings: nat

    /** The streams are closed when, and only when, the channel was, and once. */
    predicate Valid()
      reads this
    {
      open == !closed && closings == if closed then 1 else 0
    }

    function Value(): Channel
      reads this
    {
      Channel(input, output, context, open)
    }

    constructor (input: seq<byte>)
      ensures Valid() && !closed && !paused
      ensures Value() == Channel(input, [], None, true)
    {
      this.input, output, context, open := input, [], None, true;
      paused, closed, closings := false, false, 0;
    }

    /** The stream's own read: all the bytes asked for, or a failure. */
    method ReadExactly(n: nat) returns (r: Option<seq<byte>>)
      modifies this`input
      ensures r == if open && |old(input)| >= n then Some(old(input)[..n]) else None
      ensures input == if !open then old(input) else if r.Some? then old(input)[n..] else []
    {
      if !open {
        r := None;
      } else if |input| < n {
        input := [];
        r := None;
      } else {
        r := Some(input[..n]);
        input := input[n..];
      }
    }

    /** The first half of reading: the bytes of one frame. */
    method ReadFrame() returns (bytes: Option<seq<byte>>)
      requires Valid()
      modifies this`input
      ensures !open ==> bytes.None? && input == old(input)
      ensures open ==>
                match TakeFrame(old(input))
                case Bad(rest) => bytes.None? && input == rest
                case Got(payload, rest) => bytes == Some(payload) && input == rest
    {
      ghost var was := input;
      var header := ReadExactly(4);
      if header.None? {
        return None;
      }
      var n := BytesToInt(header.value);
      if n < 0 || n > MAX_ALLOWED_READ_BYTES {
        return None;
      }
      assert input == was[4..];
      bytes := ReadExactly(n);
      if bytes.Some? {
        assert bytes.value == was[4..4 + n] && input == was[4 + n..];
      }
    }

    method Read(isKeepAlive: seq<byte> -> bool) returns (e: Exception, result: seq<byte>)
      requires Valid()
      modifies this`input, this`context
      ensures Valid()
      ensures (Value(), e, result) == ReadFrom(old(Value()), isKeepAlive)
    {
      var bytes := ReadFrame();
      if bytes.None? {
        return Io, [];
      }
      result := bytes.value;
      if context.Some? {
        var decrypted := context.value.cipher.decode(context.value.received, result);
        if decrypted.Some? {
          context := Some(context.value.(received := context.value.received + 1));
          result := decrypted.value;
        } else if !isKeepAlive(result) {
          result := [];
        }
        if result == [] {
          return InvalidProtocolBuffer, [];
        }
      }
      e := Success;
    }

    /** The wait loop. */
    method BlockUntilUnpaused(waits: seq<Wait>) returns (through: bool)
      requires Valid()
      modifies this`paused, this`closed, this`open, this`closings
      ensures Valid()
      ensures through <==> Gate(old(Value()), old(paused), waits).Some?
      ensures Value() == if through then Gate(old(Value()), old(paused), waits).value else old(Value())
    {
      var i := 0;
      while paused
        invariant Valid() && i <= |waits|
        invariant Gate(old(Value()), old(paused), waits) == Gate(Value(), paused, waits[i..])
        invariant paused ==> Value() == old(Value())
        decreases |waits| - i, paused
      {
        if i == |waits| {
          return false;
        }
        match waits[i] {
          case Spurious =>
          case Resumed => Resume();
          case ClosedMeanwhile => Close();
          case WaitFailed => return true;
        }
        i := i + 1;
      }
      return true;
    }

    /** Write waits at the pause gate first; no result while it waits there. */
    method Write(data: seq<byte>, waits: seq<Wait>) returns (e: Option<Exception>)
      requires Valid()
      modifies this
      ensures Valid() && input == old(input)
      ensures match Gate(old(Value()), old(paused), waits)
              case None => e == None && Value() == old(Value())
              case Some(ch) => e.Some? && (Value(), e.value) == WriteTo(ch, data)
    {
      var through := BlockUntilUnpaused(waits);
      if !through {
        return None;
      }
      var exception := WriteLocked(data);
      return Some(exception);
    }

    /** The rest of Write, under the writer mutex. */
    method WriteLocked(data: seq<byte>) returns (e: Exception)
      requires Valid()
      modifies this`output, this`context
      ensures Valid()
      ensures (Value(), e) == WriteTo(old(Value()), data)
    {
      ghost var was := output;
      var toWrite := data;
      if context.Some? {
        var encrypted := context.value.cipher.encode(context.value.sent, data);
        if encrypted.None? {
          return Io;
        }
        context := Some(context.value.(sent := context.value.sent + 1));
        toWrite := encrypted.value;
      }
      if |toWrite| > MAX_ALLOWED_READ_BYTES || !open {
        return Io;
      }
      var header := IntToBytes(|toWrite|);
      output := output + header;
      output := output + toWrite;
      assert output == was + Frame(toWrite);
      e := Success;
    }

    /** Decoding a frame that was read before encryption was enabled. */
    method TryDecrypt(data: seq<byte>) returns (e: Exception, result: seq<byte>)
      requires Valid()
      modifies this`context
      ensures Valid()
      ensures old(context).None? ==> e == Failed && context == None
      ensures old(context).Some? ==>
                var c := old(context).value;
                match c.cipher.decode(c.received, data)
                case Some(m) => e == Success && result == m && context == Some(c.(received := c.received + 1))
                case None => e == Execution && context == old(context)
    {
      if context.None? {
        return Failed, [];
      }
      var decrypted := context.value.cipher.decode(context.value.received, data);
      if decrypted.None? {
        return Execution, [];
      }
      context := Some(context.value.(received := context.value.received + 1));
      return Success, decrypted.value;
    }

    method EnableEncryption(cipher: Cipher)
      requires Valid()
      modifies this`context
      ensures Valid() && Value() == Enable(old(Value()), cipher)
    {
      context := Some(Context(cipher, 0, 0));
    }

    method Pause()
      requires Valid()
      modifies this`paused
      ensures Valid() && paused
    {
      paused := true;
    }

    method Resume()
      requires Valid()
      modifies this`paused
      ensures Valid() && !paused
    {
      paused := false;
    }

    /** A second close does nothing at all; the first lets paused writers go. */
    method Close()
      requires Valid()
      modifies this`paused, this`closed, this`open, this`closings
      ensures Valid() && closed && closings == 1
      ensures Value() == old(Value()).(open := false)
      ensures paused == (old(paused) && old(closed))
    {
      if closed {
        return;
      }
      closed := true;
      paused := false;
      open := false;
      closings := closings + 1;
    }
  }
}
