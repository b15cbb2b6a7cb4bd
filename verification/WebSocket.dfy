/** WebSocket frames (section 5.2 of RFC 6455) and the handler that collects them from chunks. */
module WebSocket {
  import opened Bytes
  import opened Masking
  import opened Options

  const CONTINUATION: byte := 0x00
  const TEXT: byte := 0x01
  const BINARY: byte := 0x02
  const CLOSE: byte := 0x08
  const PING: byte := 0x09
  const PONG: byte := 0x0a

  predicate IsData(opcode: byte) {
    opcode == TEXT || opcode == BINARY
  }

  predicate IsControl(opcode: byte) {
    opcode == CLOSE || opcode == PING || opcode == PONG
  }

  // ---- the length of the payload ----

  function PayloadLength(n: nat): (s: seq<byte>)
    ensures |s| == 1 || |s| == 3 || |s| == 9
    ensures s[0] >= 128
  {
    if n <= 125 then [n + 128]
    else if n <= 0xffff then [126 + 128] + BigEndian(n, 2)
    else [127 + 128] + BigEndian(n, 8)
  }

  /** A big-endian number, loaded into a little-endian word and swapped. */
  function DecodeUint(s: seq<byte>): nat {
    Swapped(LittleEndian(s), |s|)
  }

  lemma LengthRoundTrip(n: nat)
    requires n < WORD
    ensures n <= 125 ==> PayloadLength(n)[0] % 128 == n
    ensures 125 < n <= 0xffff ==> DecodeUint(PayloadLength(n)[1..3]) == n
    ensures 0xffff < n ==> DecodeUint(PayloadLength(n)[1..9]) == n
  {
    if 125 < n <= 0xffff {
      assert PayloadLength(n)[1..3] == BigEndian(n, 2);
      SwappedLoad(BigEndian(n, 2));
      assert Scale(2) == 0x10000 by {
        assert Scale(1) == 256;
      }
      BigEndianRoundTrip(n, 2);
    } else if 0xffff < n {
      assert PayloadLength(n)[1..9] == BigEndian(n, 8);
      SwappedLoad(BigEndian(n, 8));
      ScaleWord();
      BigEndianRoundTrip(n, 8);
    }
  }

  lemma ScaleWord()
    ensures Scale(8) == WORD
  {
    assert Scale(2) == 256 * Scale(1) && Scale(1) == 256;
    assert Scale(4) == 256 * Scale(3) && Scale(3) == 256 * Scale(2);
    assert Scale(6) == 256 * Scale(5) && Scale(5) == 256 * Scale(4);
    assert Scale(8) == 256 * Scale(7) && Scale(7) == 256 * Scale(6);
  }

  // ---- frames ----

  /** One whole message in one masked frame. */
  function Frame(opcode: byte, message: seq<byte>, key: seq<byte>): seq<byte>
    requires opcode < 16 && |key| == 4
  {
    [opcode + 128] + PayloadLength(|message|) + key + Masked(key, 0, message)
  }

  method EncodeFrame(opcode: byte, message: seq<byte>, key: seq<byte>) returns (frame: seq<byte>)
    requires opcode < 16 && |key| == 4
    ensures frame == Frame(opcode, message, key)
  {
    frame := [opcode + 128];
    frame := frame + PayloadLength(|message|);
    frame := frame + key;
    var header := |frame|;
    ghost var start := frame;
    for i := 0 to |message|
      invariant frame == start + message[..i]
    {
      frame := frame + [message[i]];
    }
    var data := new byte[|frame|](i requires 0 <= i < |frame| => frame[i]);
    assert data[..] == frame == start + message;
    assert data[..header] == start && data[header..] == message;
    MaskPayload(key, data, header);
    frame := data[..];
  }

  /** Terminated stands for reading past the end of a span, which ends the program. */
  datatype Status =
    | Decoded(opcode: byte, payload: seq<byte>, consumed: nat, more: bool)
    | Malformed
    | NeedMoreData
    | Terminated

  /** The header says what to expect; everything after it is taken for the payload. */
  function Finish(data: seq<byte>, opcode: byte, more: bool, masked: bool, header: nat, length: nat): (s: Status)
    requires 0 < header
    ensures s.Decoded? ==> s.consumed == |data|
  {
    var start := header + if masked then 4 else 0;
    if |data| < Truncated(length + start) then NeedMoreData
    else if |data| < start then Terminated
    else
      var payload := data[start..];
      Decoded(opcode, if masked then Masked(data[header..start], 0, payload) else payload, start + |payload|, more)
  }

  /** The second byte, and the length that may follow it. */
  function DecodeLength(data: seq<byte>, opcode: byte, more: bool): (s: Status)
    requires |data| >= 2
    ensures s.Decoded? ==> s.consumed == |data|
  {
    var masked, short := data[1] >= 128, data[1] % 128;
    if IsControl(opcode) && short > 125 then Malformed
    else if short == 127 then
      if |data| < 10 then NeedMoreData else Finish(data, opcode, more, masked, 10, DecodeUint(data[2..10]))
    else if short == 126 then
      if |data| < 4 then NeedMoreData else Finish(data, opcode, more, masked, 4, DecodeUint(data[2..4]))
    else Finish(data, opcode, more, masked, 2, short)
  }

  function DecodeFrame(data: seq<byte>, continuing: bool): (s: Status)
    requires data != []
    ensures s.Decoded? ==> s.consumed == |data|
  {
    var opcode, more := data[0] % 16, data[0] < 128;
    if data[0] / 16 % 8 != 0 then Malformed
    else if more && IsControl(opcode) then Malformed
    else if IsData(opcode) && continuing then Malformed
    else if |data| < 2 then Terminated
    else DecodeLength(data, opcode, more)
  }

  /** A message that fits in one frame, and in memory. */
  ghost predicate Sendable(opcode: byte, message: seq<byte>) {
    (IsData(opcode) || (IsControl(opcode) && |message| <= 125)) && |message| + 14 < WORD
  }

  /** Where the masking key starts. */
  function HeaderSize(n: nat): nat {
    1 + |PayloadLength(n)|
  }

  lemma FirstByte(data: seq<byte>, opcode: byte)
    requires |data| >= 2 && opcode < 16 && data[0] == opcode + 128
    ensures DecodeFrame(data, false) == DecodeLength(data, opcode, false)
  {
    assert data[0] % 16 == opcode && data[0] / 16 == 8;
  }

  lemma ShortLength(data: seq<byte>, opcode: byte, n: nat)
    requires |data| >= 2 && n <= 125 && data[1] == PayloadLength(n)[0]
    ensures DecodeLength(data, opcode, false) == Finish(data, opcode, false, true, 2, n)
  {
    var second := data[1];
    assert second == n + 128;
    assert second % 128 == n;
  }

  lemma MediumLength(data: seq<byte>, opcode: byte, n: nat)
    requires |data| >= 2 && IsData(opcode) && 125 < n <= 0xffff && data[1] == PayloadLength(n)[0]
    requires |data| >= 4 ==> data[1..4] == PayloadLength(n)
    ensures DecodeLength(data, opcode, false) ==
            if |data| < 4 then NeedMoreData else Finish(data, opcode, false, true, 4, n)
  {
    assert data[1] % 128 == 126;
    if |data| >= 4 {
      LengthRoundTrip(n);
      assert data[2..4] == data[1..4][1..3];
    }
  }

  lemma LongLength(data: seq<byte>, opcode: byte, n: nat)
    requires |data| >= 2 && IsData(opcode) && 0xffff < n < WORD && data[1] == PayloadLength(n)[0]
    requires |data| >= 10 ==> data[1..10] == PayloadLength(n)
    ensures DecodeLength(data, opcode, false) ==
            if |data| < 10 then NeedMoreData else Finish(data, opcode, false, true, 10, n)
  {
    assert data[1] % 128 == 127;
    if |data| >= 10 {
      LengthRoundTrip(n);
      assert data[2..10] == data[1..10][1..9];
    }
  }

  /** Data that starts like the frame is decoded as far as its header is complete. */
  lemma HeaderDecoded(data: seq<byte>, opcode: byte, message: seq<byte>)
    requires Sendable(opcode, message) && |data| >= 2
    requires data[0] == opcode + 128 && data[1] == PayloadLength(|message|)[0]
    requires |data| >= HeaderSize(|message|) ==> data[1..HeaderSize(|message|)] == PayloadLength(|message|)
    ensures DecodeFrame(data, false) ==
            if |data| < HeaderSize(|message|) then NeedMoreData
            else Finish(data, opcode, false, true, HeaderSize(|message|), |message|)
  {
    FirstByte(data, opcode);
    var n := |message|;
    if n <= 125 {
      ShortLength(data, opcode, n);
    } else if n <= 0xffff {
      MediumLength(data, opcode, n);
    } else {
      LongLength(data, opcode, n);
    }
  }

  lemma FrameLayout(opcode: byte, message: seq<byte>, key: seq<byte>)
    requires Sendable(opcode, message) && |key| == 4
    ensures var f, h := Frame(opcode, message, key), HeaderSize(|message|);
            && |f| == h + 4 + |message|
            && f[0] == opcode + 128
            && f[1..h] == PayloadLength(|message|)
            && f[h..h + 4] == key
            && f[h + 4..] == Masked(key, 0, message)
  {
  }

  lemma PayloadUnmasked(data: seq<byte>, opcode: byte, h: nat, message: seq<byte>, key: seq<byte>, extra: seq<byte>)
    requires |key| == 4 && 0 < h && h + 4 + |message| < WORD && |data| == h + 4 + |message| + |extra|
    requires data[h..h + 4] == key && data[h + 4..] == Masked(key, 0, message) + extra
    ensures Finish(data, opcode, false, true, h, |message|) ==
            Decoded(opcode, message + Masked(key, |message|, extra), |data|, false)
  {
    Unmasked(key, message, extra);
    FitsWord(|message| + (h + 4));
  }

  lemma TrailerLayout(f: seq<byte>, h: nat, extra: seq<byte>)
    requires 1 <= h && h + 4 <= |f|
    ensures (f + extra)[1..h] == f[1..h] && (f + extra)[h..h + 4] == f[h..h + 4]
    ensures (f + extra)[h + 4..] == f[h + 4..] + extra
  {
  }

  /**
   A buffer that starts with a frame: what follows the frame is taken for more of its payload. So the
   message comes out as it was sent if and only if nothing follows.
   */
  lemma FrameWithTrailer(opcode: byte, message: seq<byte>, key: seq<byte>, extra: seq<byte>)
    requires Sendable(opcode, message) && |key| == 4
    ensures DecodeFrame(Frame(opcode, message, key) + extra, false) ==
            Decoded(opcode, message + Masked(key, |message|, extra), |Frame(opcode, message, key)| + |extra|, false)
  {
    var f, h := Frame(opcode, message, key), HeaderSize(|message|);
    FrameLayout(opcode, message, key);
    TrailerLayout(f, h, extra);
    assert f[1..h][0] == f[1];
    HeaderDecoded(f + extra, opcode, message);
    PayloadUnmasked(f + extra, opcode, h, message, key, extra);
  }

  lemma FrameRoundTrip(opcode: byte, message: seq<byte>, key: seq<byte>)
    requires Sendable(opcode, message) && |key| == 4
    ensures DecodeFrame(Frame(opcode, message, key), false) ==
            Decoded(opcode, message, |Frame(opcode, message, key)|, false)
  {
    FrameWithTrailer(opcode, message, key, []);
    assert Frame(opcode, message, key) + [] == Frame(opcode, message, key);
    assert message + Masked(key, |message|, []) == message;
  }

  lemma PayloadShort(data: seq<byte>, opcode: byte, h: nat, n: nat)
    requires 0 < h && |data| < n + (h + 4) < WORD
    ensures Finish(data, opcode, false, true, h, n) == NeedMoreData
  {
    FitsWord(n + (h + 4));
  }

  lemma PrefixLayout(f: seq<byte>, n: nat, h: nat)
    requires 2 <= n <= |f| && 2 <= h <= |f|
    ensures f[..n][0] == f[0] && f[..n][1] == f[1] == f[1..h][0]
    ensures n >= h ==> f[..n][1..h] == f[1..h]
  {
  }

  /** Every strict prefix of at least two bytes asks for more. */
  lemma FramePrefix(opcode: byte, message: seq<byte>, key: seq<byte>, n: nat)
    requires Sendable(opcode, message) && |key| == 4 && 2 <= n < |Frame(opcode, message, key)|
    ensures DecodeFrame(Frame(opcode, message, key)[..n], false) == NeedMoreData
  {
    var f, h := Frame(opcode, message, key), HeaderSize(|message|);
    FrameLayout(opcode, message, key);
    PrefixLayout(f, n, h);
    HeaderDecoded(f[..n], opcode, message);
    PayloadShort(f[..n], opcode, h, |message|);
  }

  // ---- the bytes on the wire ----

  lemma LengthBytes(n: nat)
    ensures n <= 125 ==> PayloadLength(n) == [128 + n]
    ensures 125 < n <= 0xffff ==> PayloadLength(n) == [254, n / 256, n % 256]
    ensures n > 0xffff ==> PayloadLength(n)[0] == 255 && |PayloadLength(n)| == 9
    ensures n > 0xffff ==> forall j :: 1 <= j < 9 ==> PayloadLength(n)[j] == n / Scale(8 - j) % 256
  {
    if 125 < n <= 0xffff {
      BigEndianAt(n, 2, 0);
      BigEndianAt(n, 2, 1);
      assert Scale(1) == 256;
    } else if n > 0xffff {
      forall j | 1 <= j < 9 ensures PayloadLength(n)[j] == n / Scale(8 - j) % 256 {
        BigEndianAt(n, 8, j - 1);
      }
    }
  }

  /** A final frame: the length in its shortest form, the key, and every byte of the message turned by the key. */
  lemma FrameBytes(opcode: byte, message: seq<byte>, key: seq<byte>)
    requires opcode < 16 && |key| == 4
    ensures var f, n := Frame(opcode, message, key), |message|;
            && |f| == n + (if n <= 125 then 6 else if n <= 0xffff then 8 else 14)
            && f[0] == 128 + opcode
            && (n <= 125 ==> f[1] == 128 + n && f[2..6] == key)
            && (125 < n <= 0xffff ==> f[1..4] == [254, n / 256, n % 256] && f[4..8] == key)
            && (n > 0xffff ==> f[1] == 255 && f[10..14] == key)
            && (n > 0xffff ==> forall j :: 2 <= j < 10 ==> f[j] == n / Scale(9 - j) % 256)
            && forall k :: 0 <= k < n ==> Turned(f[|f| - n + k], message[k], key[k % 4])
  {
    var f, n := Frame(opcode, message, key), |message|;
    LengthBytes(n);
    forall j | n > 0xffff && 2 <= j < 10 ensures f[j] == n / Scale(9 - j) % 256 {
      assert f[j] == PayloadLength(n)[j - 1];
    }
    forall k | 0 <= k < n ensures Turned(f[|f| - n + k], message[k], key[k % 4]) {
      MaskedTurns(key, 0, message, k);
    }
  }

  /** What the decoder refuses: reserved bits, a control frame in parts or too long, a new message inside another. */
  lemma MalformedExactlyWhen(data: seq<byte>, continuing: bool)
    requires data != []
    ensures DecodeFrame(data, continuing).Malformed? <==>
              var opcode := data[0] % 16;
              || 16 <= data[0] < 128 || 144 <= data[0]
              || (opcode in {8, 9, 10} && (data[0] < 128 || (|data| >= 2 && data[1] % 128 > 125)))
              || (opcode in {1, 2} && continuing)
  {
  }

  // ---- frames of the server ----

  /** The length without the bit that announces a key. */
  function PlainLength(n: nat): (s: seq<byte>) {
    PayloadLength(n)[0 := PayloadLength(n)[0] - 128]
  }

  /** A frame that is not masked; more says that other parts of the message follow. */
  function ServerFrame(opcode: byte, more: bool, message: seq<byte>): (f: seq<byte>)
    requires opcode < 16
    ensures |f| == HeaderSize(|message|) + |message|
  {
    [if more then opcode else opcode + 128] + PlainLength(|message|) + message
  }

  ghost predicate Acceptable(opcode: byte, more: bool, message: seq<byte>, continuing: bool) {
    && opcode < 16 && |message| + 10 < WORD
    && (IsControl(opcode) ==> !more && |message| <= 125)
    && (IsData(opcode) ==> !continuing)
  }

  lemma ServerFirstByte(data: seq<byte>, opcode: byte, more: bool, message: seq<byte>, continuing: bool)
    requires Acceptable(opcode, more, message, continuing) && |data| >= 2
    requires data[0] == if more then opcode else opcode + 128
    ensures DecodeFrame(data, continuing) == DecodeLength(data, opcode, more)
  {
    assert data[0] % 16 == opcode && data[0] / 16 % 8 == 0 && (data[0] < 128 <==> more);
  }

  lemma ServerLength(data: seq<byte>, opcode: byte, more: bool, n: nat)
    requires n + 10 < WORD && (IsControl(opcode) ==> n <= 125)
    requires |data| >= HeaderSize(n) && data[1..HeaderSize(n)] == PlainLength(n)
    ensures DecodeLength(data, opcode, more) == Finish(data, opcode, more, false, HeaderSize(n), n)
  {
    var h := HeaderSize(n);
    assert data[1] == data[1..h][0] == PlainLength(n)[0];
    LengthRoundTrip(n);
    assert n > 125 ==> data[2..h] == data[1..h][1..] == PayloadLength(n)[1..h - 1];
  }

  /** Every acceptable frame of a server comes out as it was sent. */
  lemma ServerFrameDecoded(opcode: byte, more: bool, message: seq<byte>, continuing: bool)
    requires Acceptable(opcode, more, message, continuing)
    ensures DecodeFrame(ServerFrame(opcode, more, message), continuing) ==
            Decoded(opcode, message, |ServerFrame(opcode, more, message)|, more)
  {
    var f, h := ServerFrame(opcode, more, message), HeaderSize(|message|);
    ServerFirstByte(f, opcode, more, message, continuing);
    assert f[1..h] == PlainLength(|message|) && f[h..] == message;
    ServerLength(f, opcode, more, |message|);
    FitsWord(|message| + h);
  }
}
