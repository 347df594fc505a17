/** Messages and frames (src/include/protocol/abd/msg.h, key_access.h and
    src/include/crypt/release/encrypt_package.h): a message is a header with two 64-bit sizes,
    the key field, which ends with a clock, and the value; a frame is IV | data | MAC. */
module Messages {
  import opened Basics
  import opened Lamports
  import opened Encoding
  import opened Store

  /** `sizeof(Encoded_msg)`, `sizeof(Lamport)`, `IvSize`, `MacSize`. */
  const HEADER: nat := 16
  const META: nat := 8
  const IV: nat := 12
  const MAC: nat := 16

  const TWO64: int := 0x1_0000_0000_0000_0000

  // ---------------------------------------------------------------- reading a message

  function KeySize(m: Bytes): nat
    requires |m| >= HEADER
  {
    LittleEndian(m[..8])
  }

  function Size(m: Bytes): nat
    requires |m| >= HEADER
  {
    LittleEndian(m[8..16])
  }

  /** The sizes in the header fit the buffer. */
  predicate Fits(m: Bytes) {
    |m| >= HEADER && HEADER + KeySize(m) <= |m| && HEADER + Size(m) <= |m|
  }

  function GetKey(m: Bytes): Bytes
    requires Fits(m)
  {
    m[HEADER..HEADER + KeySize(m)]
  }

  function GetValue(m: Bytes): Bytes
    requires Fits(m)
  {
    if Size(m) > KeySize(m) then m[HEADER + KeySize(m)..HEADER + Size(m)] else []
  }

  /** `KeyAccess::get_lamport`: the clock at the end of a key field. */
  function GetLamport(key: Bytes): (l: (nat, nat))
    requires |key| >= META
  {
    var at := |key| - META;
    (LittleEndian(key[at..at + 4]), LittleEndian(key[at + 4..]))
  }

  // ---------------------------------------------------------------- writing a message

  /** The bytes of a message with the given key field and value. */
  function Image(key: Bytes, value: Bytes): (m: Bytes)
    ensures |m| == HEADER + |key| + |value|
  {
    ToBytes(|key|, 8) + ToBytes(|key| + |value|, 8) + (key + value)
  }

  lemma RangeOfEight()
    ensures Range(4) == TWO32 && Range(8) == TWO64
  {
    assert Range(2) == 65536;
    assert Range(4) == TWO32;
    assert Range(6) == 65536 * TWO32;
  }

  lemma HeaderSlices(a: Bytes, b: Bytes, body: Bytes)
    requires |a| == 8 && |b| == 8
    ensures (a + b + body)[..8] == a && (a + b + body)[8..16] == b && (a + b + body)[16..] == body
  {
  }

  lemma BodySlices(key: Bytes, value: Bytes, rest: Bytes)
    ensures (key + value + rest)[..|key|] == key
    ensures (key + value + rest)[|key|..|key| + |value|] == value
  {
  }

  lemma ImageSlices(key: Bytes, value: Bytes, rest: Bytes)
    ensures var m := Image(key, value) + rest;
      && m[..8] == ToBytes(|key|, 8) && m[8..16] == ToBytes(|key| + |value|, 8) && m[16..] == key + value + rest
      && m[16..16 + |key|] == key && m[16 + |key|..16 + |key| + |value|] == value
  {
    hide ToBytes;
    var a, b := ToBytes(|key|, 8), ToBytes(|key| + |value|, 8);
    var body := key + value + rest;
    var m := Image(key, value) + rest;
    Assoc(a + b, key + value, rest);
    HeaderSlices(a, b, body);
    BodySlices(key, value, rest);
    TailSlice(m, 0, |key|);
    TailSlice(m, |key|, |key| + |value|);
  }

  lemma Assoc(a: Bytes, b: Bytes, c: Bytes)
    ensures a + b + c == a + (b + c)
  {
  }

  lemma TailSlice(m: Bytes, i: nat, j: nat)
    requires i <= j && HEADER + j <= |m|
    ensures m[HEADER..][i..j] == m[HEADER + i..HEADER + j]
  {
  }

  /** What has been built is what is read: sizes, key field and value, the empty ones too. */
  lemma ImageReads(key: Bytes, value: Bytes, rest: Bytes)
    requires |key| + |value| < TWO64
    ensures var m := Image(key, value) + rest;
      Fits(m) && KeySize(m) == |key| && Size(m) == |key| + |value| && GetKey(m) == key && GetValue(m) == value
  {
    hide ToBytes, LittleEndian, Range, Image;
    ImageSlices(key, value, rest);
    RangeOfEight();
    BytesRoundTrip(|key|, 8);
    BytesRoundTrip(|key| + |value|, 8);
  }

  /** The layout on the wire: two sizes of eight bytes, the key field, the value, and all
      numbers with the least significant byte first. */
  lemma LayoutExample()
    ensures ClockBytes(Lamport(0x01020304, 5)) == [4, 3, 2, 1, 5, 0, 0, 0]
    ensures Image([7, 8, 9], [10]) == [3, 0, 0, 0, 0, 0, 0, 0, 4, 0, 0, 0, 0, 0, 0, 0, 7, 8, 9, 10]
  {
    FourBytes(0x01020304);
    FourBytes(5);
    EightBytes(3);
    EightBytes(4);
  }

  lemma FourBytes(x: nat)
    ensures ToBytes(x, 4) == [x % 256, x / 256 % 256, x / 65536 % 256, x / 16777216 % 256]
  {
    assert ToBytes(x / 65536, 2) == [x / 65536 % 256, x / 16777216 % 256];
  }

  lemma EightBytes(x: nat)
    requires x < 256
    ensures ToBytes(x, 8) == [x, 0, 0, 0, 0, 0, 0, 0]
  {
    ZeroBytes();
    assert ToBytes(0, 7) == [0, 0, 0, 0, 0, 0, 0];
  }

  // ---------------------------------------------------------------- the builder

  /** memcpy into a buffer, and the two stores to the header. */
  function Written(m: Bytes, at: nat, data: Bytes): Bytes
    requires at + |data| <= |m|
  {
    m[..at] + data + m[at + |data|..]
  }

  function WithSizes(m: Bytes, keySize: nat, size: nat): Bytes
    requires |m| >= HEADER
  {
    ToBytes(keySize, 8) + ToBytes(size, 8) + m[HEADER..]
  }

  lemma AddKeyToImage(key: Bytes, data: Bytes, rest: Bytes)
    requires |data| <= |rest|
    ensures WithSizes(Written(Image(key, []) + rest, HEADER + |key|, data), |key| + |data|, |key| + |data|)
         == Image(key + data, []) + rest[|data|..]
  {
    hide ToBytes;
    var m := Image(key, []) + rest;
    assert Written(m, HEADER + |key|, data)[HEADER..] == key + data + rest[|data|..];
  }

  lemma AddValueToImage(key: Bytes, data: Bytes, rest: Bytes)
    requires |data| <= |rest|
    ensures WithSizes(Written(Image(key, []) + rest, HEADER + |key|, data), |key|, |key| + |data|)
         == Image(key, data) + rest[|data|..]
  {
    hide ToBytes;
    var m := Image(key, []) + rest;
    assert Written(m, HEADER + |key|, data)[HEADER..] == key + data + rest[|data|..];
  }

  method Memcpy(dst: array<Byte>, at: nat, src: Bytes)
    requires at + |src| <= dst.Length
    modifies dst
    ensures dst[..] == Written(old(dst[..]), at, src)
  {
    for i := 0 to |src|
      invariant forall j | 0 <= j < i :: dst[at + j] == src[j]
      invariant forall j | 0 <= j < dst.Length && !(at <= j < at + i) :: dst[j] == old(dst[j])
    {
      dst[at + i] := src[i];
    }
    WrittenAt(old(dst[..]), at, src, dst[..]);
  }

  lemma WrittenAt(m: Bytes, at: nat, data: Bytes, m': Bytes)
    requires at + |data| <= |m| == |m'|
    requires forall j | 0 <= j < |data| :: m'[at + j] == data[j]
    requires forall j | 0 <= j < |m| && !(at <= j < at + |data|) :: m'[j] == m[j]
    ensures m' == Written(m, at, data)
  {
    forall j | 0 <= j < |m|
      ensures m'[j] == Written(m, at, data)[j]
    {
      if at <= j < at + |data| {
        assert m'[at + (j - at)] == data[j - at];
      }
    }
  }

  /** A zeroed header is that of the empty message. */
  lemma ZeroImage(m: Bytes)
    requires |m| >= HEADER && forall i | 0 <= i < HEADER :: m[i] == 0
    ensures m == Image([], []) + m[HEADER..]
  {
    hide ToBytes;
    ZeroBytes();
    assert m[..8] == ToBytes(0, 8) && m[8..16] == ToBytes(0, 8);
    assert m == m[..8] + m[8..16] + m[HEADER..];
  }

  class MsgBuilder {
    const buf: array<Byte>

    /** A zeroed buffer with room for `max` bytes of key and value. */
    constructor (max: nat)
      ensures fresh(buf) && buf.Length == HEADER + max
      ensures buf[..] == Image([], []) + buf[HEADER..]
    {
      buf := new Byte[HEADER + max](_ => 0);
      new;
      hide ToBytes, Image;
      ZeroImage(buf[..]);
      assert buf[..][HEADER..] == buf[HEADER..];
    }

    method SetSizes(keySize: nat, size: nat)
      requires buf.Length >= HEADER
      modifies buf
      ensures buf[..] == WithSizes(old(buf[..]), keySize, size)
    {
      hide ToBytes;
      Memcpy(buf, 0, ToBytes(keySize, 8));
      Memcpy(buf, 8, ToBytes(size, 8));
    }

    /** `add_key`: appends to the key field, over whatever is there. */
    method AddKey(data: Bytes)
      requires Fits(buf[..]) && HEADER + KeySize(buf[..]) + |data| <= buf.Length
      modifies buf
      ensures var m := old(buf[..]);
        buf[..] == WithSizes(Written(m, HEADER + KeySize(m), data), KeySize(m) + |data|, Size(m) + |data|)
    {
      hide ToBytes, LittleEndian, Written, WithSizes;
      var ks, sz := LittleEndian(buf[..][..8]), LittleEndian(buf[..][8..16]);
      Memcpy(buf, HEADER + ks, data);
      SetSizes(ks + |data|, sz + |data|);
    }

    /** `add_value`: appends at the end of the message. */
    method AddValue(data: Bytes)
      requires Fits(buf[..]) && HEADER + Size(buf[..]) + |data| <= buf.Length
      modifies buf
      ensures var m := old(buf[..]);
        buf[..] == WithSizes(Written(m, HEADER + Size(m), data), KeySize(m), Size(m) + |data|)
    {
      hide ToBytes, LittleEndian, Written, WithSizes;
      var ks, sz := LittleEndian(buf[..][..8]), LittleEndian(buf[..][8..16]);
      Memcpy(buf, HEADER + sz, data);
      SetSizes(ks, sz + |data|);
    }
  }

  lemma ZeroBytes()
    ensures ToBytes(0, 8) == [0, 0, 0, 0, 0, 0, 0, 0]
  {
    assert ToBytes(0, 2) == [0, 0];
    assert ToBytes(0, 4) == [0, 0, 0, 0];
    assert ToBytes(0, 6) == [0, 0, 0, 0, 0, 0];
  }

  /** The two ways in which the protocol extends a message, on one that holds no value yet. */
  method ExtendKey(msg: MsgBuilder, ghost key: Bytes, ghost rest: Bytes, data: Bytes)
    requires |key| < TWO64 && msg.buf[..] == Image(key, []) + rest && |data| <= |rest|
    modifies msg.buf
    ensures msg.buf[..] == Image(key + data, []) + rest[|data|..]
  {
    hide ToBytes, LittleEndian, Image, Written, WithSizes, GetKey, GetValue;
    ImageReads(key, [], rest);
    AddKeyToImage(key, data, rest);
    msg.AddKey(data);
  }

  method ExtendValue(msg: MsgBuilder, ghost key: Bytes, ghost rest: Bytes, data: Bytes)
    requires |key| < TWO64 && msg.buf[..] == Image(key, []) + rest && |data| <= |rest|
    modifies msg.buf
    ensures msg.buf[..] == Image(key, data) + rest[|data|..]
  {
    hide ToBytes, LittleEndian, Image, Written, WithSizes, GetKey, GetValue;
    ImageReads(key, [], rest);
    AddValueToImage(key, data, rest);
    msg.AddValue(data);
  }

  /** The message of a PutReplica request (protocol.h:470-478, 546-550): the writes stay
      inside the allocated buffer and fill it. */
  method BuildPut(key: Key, clock: Lamport, value: Bytes) returns (msg: MsgBuilder)
    requires |key| + META + |value| < TWO64
    ensures fresh(msg) && fresh(msg.buf) && msg.buf[..] == Image(key + ClockBytes(clock), value)
  {
    hide ToBytes, Image, ClockBytes;
    msg := new MsgBuilder(|key| + META + |value|);
    ghost var rest := msg.buf[HEADER..];
    ExtendKey(msg, [], rest, key);
    assert [] + key == key;
    rest := rest[|key|..];
    ExtendKey(msg, key, rest, ClockBytes(clock));
    rest := rest[META..];
    ExtendValue(msg, key + ClockBytes(clock), rest, value);
    rest := rest[|value|..];
    assert rest == [];
    assert Image(key + ClockBytes(clock), value) + rest == Image(key + ClockBytes(clock), value);
  }

  // ---------------------------------------------------------------- frames

  /** AES-GCM as far as the framing depends on it: as many bytes out as in, a MAC of sixteen
      bytes, and decryption with the same IV gives the plain text back. */
  datatype Cipher = Cipher(
    encrypt: (Bytes, Bytes) -> Bytes,
    mac: (Bytes, Bytes) -> Bytes,
    decrypt: (Bytes, Bytes, Bytes) -> Option<Bytes>)

  ghost predicate Invertible(c: Cipher) {
    forall iv: Bytes, p: Bytes ::
      |c.encrypt(iv, p)| == |p| && |c.mac(iv, p)| == MAC && c.decrypt(iv, c.encrypt(iv, p), c.mac(iv, p)) == Some(p)
  }

  lemma CipherExists() returns (c: Cipher)
    ensures Invertible(c)
  {
    c := Cipher((iv, p) => p, (iv, p) => Fill(0, MAC), (iv, p, mac) => Some(p));
  }

  /** `get_buffer_size` and `get_message_size`. */
  function BufferSize(n: nat): nat {
    n + IV + MAC
  }

  function MessageSize(n: nat): nat
    requires n > IV + MAC
  {
    n - (IV + MAC)
  }

  function FrameOf(c: Cipher, iv: Bytes, m: Bytes): Bytes
    requires |iv| >= IV
  {
    iv[..IV] + c.encrypt(iv[..IV], m) + c.mac(iv[..IV], m)
  }

  /** `PacketSsl::encrypt`. The IV generator stores sixteen bytes although the cipher uses
      twelve; the last four are overwritten, by the data or by the MAC. */
  method Encrypt(c: Cipher, iv: Bytes, m: Bytes) returns (dst: array<Byte>)
    requires Invertible(c) && |iv| == 16
    ensures fresh(dst) && dst.Length == BufferSize(|m|) && dst[..] == FrameOf(c, iv, m)
  {
    dst := new Byte[BufferSize(|m|)](_ => 0);
    Memcpy(dst, 0, iv);
    var nonce := dst[..IV];
    assert nonce == iv[..IV];
    Memcpy(dst, IV, c.encrypt(nonce, m));
    Memcpy(dst, IV + |m|, c.mac(nonce, m));
  }

  /** `PacketSsl::decrypt`. */
  function Decrypt(c: Cipher, src: Bytes): Option<Bytes>
    requires |src| > IV + MAC
  {
    var n := MessageSize(|src|);
    c.decrypt(src[..IV], src[IV..IV + n], src[IV + n..])
  }

  lemma FrameRoundTrip(c: Cipher, iv: Bytes, m: Bytes)
    requires Invertible(c) && |iv| >= IV && |m| > 0
    ensures |FrameOf(c, iv, m)| == BufferSize(|m|) == 12 + |m| + 16 && FrameOf(c, iv, m)[..12] == iv[..12]
    ensures Decrypt(c, FrameOf(c, iv, m)) == Some(m)
  {
    var nonce := iv[..IV];
    var f := FrameOf(c, iv, m);
    assert f[..IV] == nonce && f[IV..IV + |m|] == c.encrypt(nonce, m) && f[IV + |m|..] == c.mac(nonce, m);
  }

  /** What the PutReplica handler takes from a frame (protocol.h:374-382): the key without the
      clock, the clock and the value. */
  datatype PutRequest = PutRequest(key: Key, count: nat, mid: nat, value: Bytes)

  function ParsePut(c: Cipher, frame: Bytes): Option<PutRequest>
    requires |frame| > IV + MAC
  {
    match Decrypt(c, frame)
    case None => None
    case Some(m) =>
      if Fits(m) && KeySize(m) >= META then
        var key := GetKey(m);
        var clock := GetLamport(key);
        Some(PutRequest(key[..|key| - META], clock.0, clock.1, GetValue(m)))
      else None
  }

  /** Building a PutReplica message, framing it, unframing it and parsing it yields the same
      key, clock and value, for all of them. */
  lemma PutReplicaRoundTrip(c: Cipher, iv: Bytes, key: Key, clock: Lamport, value: Bytes)
    requires Invertible(c) && |iv| == 16 && |key| + META + |value| < TWO64
    ensures var frame := FrameOf(c, iv, Image(key + ClockBytes(clock), value));
      |frame| > IV + MAC && ParsePut(c, frame) == Some(PutRequest(key, clock.count, clock.mid, value))
  {
    hide ToBytes, LittleEndian, Image, ClockBytes, FrameOf, Decrypt;
    var field := key + ClockBytes(clock);
    var m := Image(field, value);
    FrameRoundTrip(c, iv, m);
    assert m + [] == m;
    ImageReads(field, value, []);
    ClockRoundTrip(clock);
    assert field[|key|..|key| + 4] == ClockBytes(clock)[..4] && field[|key| + 4..] == ClockBytes(clock)[4..];
    assert field[..|key|] == key;
  }
}
