/** The Heka stream framing that `inject_message` writes in front of every payload
    and that a reader takes off again: 0x1e, the header length, the header message
    (tag 0x08 and the payload length as a base 128 varint), 0x1f, the payload. */
module Framing {

  newtype Byte = b: int | 0 <= b < 256

  type Payload = seq<Byte>

  const RECORD_SEPARATOR: Byte := 0x1e
  const LENGTH_TAG: Byte := 0x08
  const UNIT_SEPARATOR: Byte := 0x1f
  // 0x1e, the length byte and 0x1f around the header message
  const HDR_FRAME_SIZE := 3
  // the size of the `header` buffers
  const HEADER_BUFFER := 14
  const TWO_63 := 0x8000_0000_0000_0000
  const TWO_64 := 0x1_0000_0000_0000_0000
  const INT_MAX := 0x7fff_ffff

  /** What a `size_t` payload length can be. */
  predicate SizeT(n: nat) {
    n < TWO_64
  }

  // ---- base 128 varints ----

  function Varint(n: nat): (r: seq<Byte>)
    ensures |r| >= 1
  {
    if n < 128 then [n as Byte] else [(128 + n % 128) as Byte] + Varint(n / 128)
  }

  function UnVarint(s: seq<Byte>): nat
  {
    if |s| == 0 then 0 else s[0] as int % 128 + 128 * UnVarint(s[1..])
  }

  function Pow128(k: nat): (r: nat)
    ensures r >= 1
  {
    if k == 0 then 1 else 128 * Pow128(k - 1)
  }

  lemma {:induction false} VarintRoundTrip(n: nat)
    ensures UnVarint(Varint(n)) == n
  {
    if n < 128 {
      assert Varint(n)[1..] == [];
    } else {
      VarintRoundTrip(n / 128);
      assert Varint(n)[1..] == Varint(n / 128);
    }
  }

  /** A varint takes at most k bytes exactly when the number is below 128^k. */
  lemma {:induction false} VarintLength(n: nat, k: nat)
    requires k >= 1
    ensures |Varint(n)| <= k <==> n < Pow128(k)
  {
    if n >= 128 && k > 1 {
      VarintLength(n / 128, k - 1);
      assert n / 128 < Pow128(k - 1) <==> n < 128 * Pow128(k - 1);
    } else if k > 1 {
      assert Pow128(k) == 128 * Pow128(k - 1);
    } else {
      assert Pow128(1) == 128 * Pow128(0);
    }
  }

  /** Every length a `size_t` can hold needs at most ten bytes: the header needs at most 14. */
  lemma SizeTVarint(n: nat)
    requires SizeT(n)
    ensures |Varint(n)| <= 10
    ensures |Header(n)| <= HEADER_BUFFER
  {
    calc {
      Pow128(10);
      128 * 128 * 128 * 128 * 128 * Pow128(5);
      128 * 128 * 128 * 128 * 128 * 128 * 128 * 128 * 128 * 128 * Pow128(0);
    }
    VarintLength(n, 10);
  }

  // ---- frames ----

  /** The bytes in front of a payload of n bytes. */
  function Header(n: nat): (r: seq<Byte>)
    ensures |r| == 4 + |Varint(n)|
  {
    [RECORD_SEPARATOR, ((|Varint(n)| + 1) % 256) as Byte, LENGTH_TAG] + Varint(n) + [UNIT_SEPARATOR]
  }

  function Frame(p: Payload): seq<Byte>
  {
    Header(|p|) + p
  }

  function FrameLen(p: Payload): (r: nat)
    ensures r == |Frame(p)| && r >= 5
  {
    4 + |Varint(|p|)| + |p|
  }

  /** The example of the Protocol Buffers Encoding guide, 300 as a base 128 varint, in a header. */
  lemma Header300()
    ensures Header(300) == [0x1e, 3, 0x08, 0xac, 0x02, 0x1f]
  {
    assert Varint(300) == [0xac] + Varint(2);
  }

  /** Conversion of an out of range value to a 32 bit int. */
  function ToInt32(n: int): (r: int)
    ensures -0x8000_0000 <= r <= INT_MAX
    ensures (r - n) % 0x1_0000_0000 == 0
  {
    var m := n % 0x1_0000_0000;
    if m <= INT_MAX then m else m - 0x1_0000_0000
  }

  /** What the writer adds to its offset: the length of the frame, as an `int`. */
  function Tlen(p: Payload): int
  {
    ToInt32(4 + |Varint(|p|)| + |p|)
  }

  /** The writer's offset advances by the real frame length exactly when that length fits an int. */
  lemma TlenExact(p: Payload)
    ensures Tlen(p) == |Frame(p)| <==> |Frame(p)| <= INT_MAX
  {
  }

  /** What a scan at the start of a window finds. `NeedBody` carries the `msglen` that the scan
      leaves in the buffer once it has a whole header. */
  datatype Scan = NeedHeader | NeedBody(msglen: nat) | Found(payload: Payload, consumed: nat) | Corrupt

  function ScanFrame(w: seq<Byte>): (r: Scan)
    ensures r.Found? ==> 0 < r.consumed <= |w|
    ensures r.NeedBody? ==> r.msglen > 0
  {
    if |w| == 0 then NeedHeader
    else if w[0] != RECORD_SEPARATOR then Corrupt
    else if |w| < 2 || |w| < w[1] as int + HDR_FRAME_SIZE then NeedHeader
    else if w[1] < 2 || w[2] != LENGTH_TAG || w[2 + w[1] as int] != UNIT_SEPARATOR then Corrupt
    else
      var header := w[1] as int + HDR_FRAME_SIZE;
      var msglen := UnVarint(w[3..2 + w[1] as int]);
      if |w| < header + msglen then NeedBody(msglen)
      else Found(w[header..header + msglen], header + msglen)
  }

  /** Bytes that start with a whole header are scanned by what follows it. */
  lemma ScanAfterHeader(n: nat, body: seq<Byte>)
    requires SizeT(n)
    ensures ScanFrame(Header(n) + body) ==
            if |body| < n then NeedBody(n) else Found(body[..n], |Header(n)| + n)
  {
    SizeTVarint(n);
    VarintRoundTrip(n);
    var w := Header(n) + body;
    var h := |Header(n)|;
    assert w[1] as int + HDR_FRAME_SIZE == h;
    assert w[3..2 + w[1] as int] == Varint(n);
    assert w[2 + w[1] as int] == Header(n)[h - 1] == UNIT_SEPARATOR;
    if |body| >= n {
      SliceAfter(Header(n), body, n);
    }
  }

  lemma SliceAfter<T>(a: seq<T>, b: seq<T>, n: nat)
    requires n <= |b|
    ensures (a + b)[|a|..|a| + n] == b[..n]
  {
  }

  /** Decoding a written frame gives back the payload and leaves what follows alone. */
  lemma FrameRoundTrip(p: Payload, rest: seq<Byte>)
    requires SizeT(|p|)
    ensures ScanFrame(Frame(p) + rest) == Found(p, |Frame(p)|)
  {
    ScanAfterHeader(|p|, p + rest);
    assert Frame(p) + rest == Header(|p|) + (p + rest);
    assert (p + rest)[..|p|] == p;
  }

  /** A strict prefix of a frame is never taken for a message or for garbage. */
  lemma PartialFrame(p: Payload, n: nat)
    requires SizeT(|p|)
    requires n < |Frame(p)|
    ensures ScanFrame(Frame(p)[..n]) == if n < |Header(|p|)| then NeedHeader else NeedBody(|p|)
  {
    var h := |Header(|p|)|;
    SizeTVarint(|p|);
    if n >= h {
      ScanAfterHeader(|p|, p[..n - h]);
      assert Frame(p)[..n] == Header(|p|) + p[..n - h];
    }
  }

  /** `need` of hs_read_file while a frame is partly buffered. */
  function Need(w: seq<Byte>, msglen: nat): int
    requires |w| >= 2
  {
    msglen + w[1] as int + HDR_FRAME_SIZE - |w|
  }

  /** With a partial frame buffered the bytes held and the bytes asked for add up to the length
      that the writer added to its offset for this frame. */
  lemma NeedCompletesFrame(p: Payload, n: nat)
    requires SizeT(|p|)
    requires |Header(|p|)| <= n < |Frame(p)|
    ensures ScanFrame(Frame(p)[..n]).NeedBody?
    ensures n + Need(Frame(p)[..n], ScanFrame(Frame(p)[..n]).msglen) == |Frame(p)|
    ensures |Frame(p)| <= INT_MAX ==>
              n + Need(Frame(p)[..n], ScanFrame(Frame(p)[..n]).msglen) == Tlen(p)
  {
    PartialFrame(p, n);
    SizeTVarint(|p|);
    TlenExact(p);
    assert Frame(p)[..n][1] == Header(|p|)[1];
  }

  // ---- the writer's header buffer ----

  /** The base 128 encoder, writing into the buffer in place. */
  method OutputVarint(buf: array<Byte>, at: nat, n: nat) returns (len: nat)
    requires SizeT(n)
    requires at + 10 <= buf.Length
    modifies buf
    ensures len == |Varint(n)| <= 10
    ensures buf[at..at + len] == Varint(n)
    ensures buf[..at] == old(buf[..at])
  {
    var rest := n;
    len := 0;
    SizeTVarint(n);
    ghost var done: seq<Byte> := [];
    while rest >= 128
      invariant len == |done|
      invariant done + Varint(rest) == Varint(n)
      invariant buf[at..at + len] == done
      invariant buf[..at] == old(buf[..at])
    {
      var digit := (128 + rest % 128) as Byte;
      VarintDigit(done, rest);
      assert len + 1 <= |Varint(n)|;
      buf[at + len] := digit;
      done := done + [digit];
      len := len + 1;
      rest := rest / 128;
    }
    assert Varint(rest) == [rest as Byte];
    buf[at + len] := rest as Byte;
    done := done + [rest as Byte];
    len := len + 1;
  }

  lemma VarintDigit(done: seq<Byte>, rest: nat)
    requires rest >= 128
    ensures done + Varint(rest) == (done + [(128 + rest % 128) as Byte]) + Varint(rest / 128)
  {
  }

  /** The header that `inject_message` puts into its static 14 byte buffer: no payload length
      overruns the buffer, and the bytes written are the frame header. */
  method FillHeader(header: array<Byte>, n: nat) returns (len: nat)
    requires header.Length == HEADER_BUFFER
    requires SizeT(n)
    modifies header
    ensures 4 + len == |Header(n)| <= HEADER_BUFFER
    ensures header[..4 + len] == Header(n)
  {
    len := OutputVarint(header, 3, n);
    header[0] := RECORD_SEPARATOR;
    header[1] := ((len + 1) % 256) as Byte;
    header[2] := LENGTH_TAG;
    assert header[3..3 + len] == Varint(n);
    header[3 + len] := UNIT_SEPARATOR;
    assert header[3..3 + len] == Varint(n);
    assert header[..4 + len] == header[..3] + header[3..3 + len] + [header[3 + len]];
  }
}
