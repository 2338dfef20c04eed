/**
 The OpenSSH private key container for ed25519 keys (pkg/service/helpers/helpers.go): the wire types of
 RFC 4251 section 5, the ed25519 public key blob of RFC 8709 section 4, and the container of OpenSSH's
 PROTOCOL.key sections 1, 3 and 4 (no encryption, block size 8).
 */
module OpenSshKey {
  import opened Common

  newtype byte = x: int | 0 <= x < 256
  type bytes = seq<byte>

  const TWO_32 := 0x1_0000_0000

  // ---------- Wire types ----------

  function PutU32(n: nat): (b: bytes)
    requires n < TWO_32
    ensures |b| == 4
  {
    [(n / 256 / 256 / 256) as byte, (n / 256 / 256 % 256) as byte, (n / 256 % 256) as byte, (n % 256) as byte]
  }

  /** The conversion uint32(len(s)) that ssh.Marshal applies to every length. */
  function PutString(s: bytes): (b: bytes)
    ensures |b| == 4 + |s|
  {
    PutU32(|s| % TWO_32) + s
  }

  function ShiftIn(high: nat, low: byte): nat {
    256 * high + low as int
  }

  lemma ShiftOut(high: nat, low: byte)
    ensures ShiftIn(high, low) / 256 == high && ShiftIn(high, low) % 256 == low as int
  {
  }

  function GetU32(b: bytes): (n: nat)
    requires |b| >= 4
    ensures n < TWO_32
  {
    ShiftIn(ShiftIn(ShiftIn(b[0] as int, b[1]), b[2]), b[3])
  }

  function GetString(b: bytes): Option<(bytes, bytes)> {
    if |b| < 4 || |b| - 4 < GetU32(b) then None
    else Some((b[4..4 + GetU32(b)], b[4 + GetU32(b)..]))
  }

  lemma U32Forward(n: nat, rest: bytes)
    requires n < TWO_32
    ensures GetU32(PutU32(n) + rest) == n
  {
    assert ShiftIn(n / 256, (n % 256) as byte) == n;
    assert ShiftIn(n / 256 / 256, (n / 256 % 256) as byte) == n / 256;
    assert ShiftIn(n / 256 / 256 / 256, (n / 256 / 256 % 256) as byte) == n / 256 / 256;
  }

  lemma U32Backward(b: bytes)
    requires |b| >= 4
    ensures PutU32(GetU32(b)) == b[..4]
  {
    ShiftOut(b[0] as int, b[1]);
    ShiftOut(ShiftIn(b[0] as int, b[1]), b[2]);
    ShiftOut(ShiftIn(ShiftIn(b[0] as int, b[1]), b[2]), b[3]);
    hide ShiftIn;
  }

  lemma StringForward(s: bytes, rest: bytes)
    requires |s| < TWO_32
    ensures GetString(PutString(s) + rest) == Some((s, rest))
  {
    hide PutU32, GetU32;
    var b := PutString(s) + rest;
    assert |s| % TWO_32 == |s|;
    assert b == PutU32(|s|) + (s + rest);
    U32Forward(|s|, s + rest);
    assert b[4..4 + |s|] == s;
    assert b[4 + |s|..] == rest;
  }

  lemma StringBackward(b: bytes)
    requires GetString(b).Some?
    ensures |GetString(b).value.0| < TWO_32
    ensures b == PutString(GetString(b).value.0) + GetString(b).value.1
  {
    hide PutU32, GetU32;
    U32Backward(b);
    var n := GetU32(b);
    var s := b[4..4 + n];
    assert |s| == n && n % TWO_32 == n;
    assert PutString(s) == b[..4] + s;
    assert b == (b[..4] + s) + b[4 + n..];
  }

  // ---------- The container ----------

  function Ascii(s: string): (b: bytes)
    requires forall c | c in s :: c as int < 128
    ensures |b| == |s|
  {
    seq(|s|, i requires 0 <= i < |s| => assert s[i] in s; s[i] as byte)
  }

  const MAGIC: bytes := Ascii("openssh-key-v1") + [0]
  const NONE: bytes := Ascii("none")
  const KEY_TYPE: bytes := Ascii("ssh-ed25519")
  const BLOCK_SIZE := 8

  datatype Key = Key(check: nat, keyType: bytes, pub: bytes, priv: bytes, comment: bytes)

  /** The padding bytes 1, 2, 3, ... */
  function Padding(n: nat): (b: bytes)
    requires n < 256
    ensures |b| == n
    ensures forall i | 0 <= i < n :: b[i] as int == i + 1
  {
    seq(n, i requires 0 <= i < n => (i + 1) as byte)
  }

  function PadLength(blockLength: nat): (n: nat)
    ensures n < BLOCK_SIZE
  {
    (BLOCK_SIZE - blockLength % BLOCK_SIZE) % BLOCK_SIZE
  }

  /** The pad length is the only one below a block that completes the last block. */
  lemma PadUnique(length: nat, pad: nat)
    requires pad < BLOCK_SIZE
    ensures PadLength(length) == pad <==> (length + pad) % BLOCK_SIZE == 0
  {
    var r := length % BLOCK_SIZE;
    var q := length / BLOCK_SIZE;
    assert length == BLOCK_SIZE * q + r;
    assert PadLength(length) == if r == 0 then 0 else BLOCK_SIZE - r;
    assert length + pad == BLOCK_SIZE * q + (r + pad);
    assert r + pad < 2 * BLOCK_SIZE;
    if r + pad >= BLOCK_SIZE {
      assert length + pad == BLOCK_SIZE * (q + 1) + (r + pad - BLOCK_SIZE);
      assert (length + pad) % BLOCK_SIZE == r + pad - BLOCK_SIZE;
    } else {
      assert (length + pad) % BLOCK_SIZE == r + pad;
    }
  }

  function PutStrings(ss: seq<bytes>): bytes {
    if ss == [] then [] else PutString(ss[0]) + PutStrings(ss[1..])
  }

  /** Reads n strings and returns them with the unread rest. */
  function GetStrings(b: bytes, n: nat): (r: Option<(seq<bytes>, bytes)>)
    ensures r.Some? ==> |r.value.0| == n
    decreases n
  {
    if n == 0 then Some(([], b))
    else
      var head := GetString(b);
      if head.None? then None
      else
        var tail := GetStrings(head.value.1, n - 1);
        if tail.None? then None else Some(([head.value.0] + tail.value.0, tail.value.1))
  }

  predicate AllFit(ss: seq<bytes>) {
    forall s | s in ss :: |s| < TWO_32
  }

  lemma {:induction false} StringsForward(ss: seq<bytes>, rest: bytes)
    requires AllFit(ss)
    ensures GetStrings(PutStrings(ss) + rest, |ss|) == Some((ss, rest))
  {
    hide PutString, GetString, PutU32, GetU32;
    if ss == [] {
      assert PutStrings(ss) + rest == rest;
    } else {
      assert PutStrings(ss) + rest == PutString(ss[0]) + (PutStrings(ss[1..]) + rest);
      StringForward(ss[0], PutStrings(ss[1..]) + rest);
      StringsForward(ss[1..], rest);
      assert forall s | s in ss[1..] :: s in ss;
      assert [ss[0]] + ss[1..] == ss;
    }
  }

  lemma {:induction false} StringsBackward(b: bytes, n: nat)
    requires GetStrings(b, n).Some?
    ensures AllFit(GetStrings(b, n).value.0)
    ensures PutStrings(GetStrings(b, n).value.0) + GetStrings(b, n).value.1 == b
    decreases n
  {
    hide PutString, GetString, PutU32, GetU32;
    if n == 0 {
      assert [] + b == b;
    } else {
      var head := GetString(b).value;
      StringBackward(b);
      StringsBackward(head.1, n - 1);
      var (ss, rest) := GetStrings(b, n).value;
      assert ss[1..] == GetStrings(head.1, n - 1).value.0;
      assert PutStrings(ss) + rest == PutString(head.0) + (PutStrings(ss[1..]) + rest);
    }
  }

  function Fields(k: Key): seq<bytes> {
    [k.keyType, k.pub, k.priv, k.comment]
  }

  /** The private list without its padding: check twice, then the four strings. */
  function PrivateList(k: Key): bytes
    requires k.check < TWO_32
  {
    PutU32(k.check) + PutU32(k.check) + PutStrings(Fields(k))
  }

  function PrivateBlock(k: Key): bytes
    requires k.check < TWO_32
  {
    PrivateList(k) + Padding(PadLength(|PrivateList(k)|))
  }

  function PublicBlob(keyType: bytes, pub: bytes): bytes {
    PutString(keyType) + PutString(pub)
  }

  /** Magic, cipher, kdf, kdf options, number of keys, public blob, private block. */
  function Container(blob: bytes, block: bytes): bytes {
    MAGIC + PutStrings([NONE, NONE, []]) + PutU32(1) + PutStrings([blob, block])
  }

  function Encode(k: Key): bytes
    requires k.check < TWO_32
  {
    Container(PublicBlob(k.keyType, k.pub), PrivateBlock(k))
  }

  /** Every length that is written fits its uint32 length field. */
  predicate Fits(k: Key) {
    && k.check < TWO_32
    && AllFit(Fields(k))
    && |PublicBlob(k.keyType, k.pub)| < TWO_32
    && |PrivateBlock(k)| < TWO_32
  }

  // ---------- A strict reader for the same format ----------

  function ReadPrivateBlock(b: bytes): Option<Key> {
    if |b| % BLOCK_SIZE != 0 || |b| < 8 || b[..4] != b[4..8] then None
    else
      var r := GetStrings(b[8..], 4);
      if r.None? then None
      else
        var (ss, pad) := r.value;
        if |pad| >= BLOCK_SIZE || pad != Padding(|pad|) then None
        else Some(Key(GetU32(b), ss[0], ss[1], ss[2], ss[3]))
  }

  function ReadContainer(b: bytes): Option<(bytes, bytes)> {
    if |b| < |MAGIC| || b[..|MAGIC|] != MAGIC then None
    else
      var r := GetStrings(b[|MAGIC|..], 3);
      if r.None? || r.value.0 != [NONE, NONE, []] then None
      else
        var rest := r.value.1;
        if |rest| < 4 || rest[..4] != PutU32(1) then None
        else
          var q := GetStrings(rest[4..], 2);
          if q.None? || q.value.1 != [] then None else Some((q.value.0[0], q.value.0[1]))
  }

  function Decode(b: bytes): Option<Key> {
    var c := ReadContainer(b);
    if c.None? then None
    else
      var k := ReadPrivateBlock(c.value.1);
      if k.None? || c.value.0 != PublicBlob(k.value.keyType, k.value.pub) then None else k
  }

  // ---------- Encoding, then decoding ----------

  lemma ReadOwnPrivateBlock(k: Key)
    requires Fits(k)
    ensures ReadPrivateBlock(PrivateBlock(k)) == Some(k)
  {
    hide PutString, GetString, PutStrings, GetStrings, PutU32, GetU32;
    var pad := Padding(PadLength(|PrivateList(k)|));
    var b := PrivateBlock(k);
    PadUnique(|PrivateList(k)|, |pad|);
    assert b == PutU32(k.check) + (PutU32(k.check) + (PutStrings(Fields(k)) + pad));
    U32Forward(k.check, PutU32(k.check) + (PutStrings(Fields(k)) + pad));
    assert b[..4] == b[4..8];
    assert b[8..] == PutStrings(Fields(k)) + pad;
    StringsForward(Fields(k), pad);
  }

  lemma ReadOwnContainer(blob: bytes, block: bytes)
    requires |blob| < TWO_32 && |block| < TWO_32
    ensures ReadContainer(Container(blob, block)) == Some((blob, block))
  {
    hide PutString, GetString, PutStrings, GetStrings, PutU32, GetU32;
    var strings := PutStrings([blob, block]);
    var b := Container(blob, block);
    assert b[|MAGIC|..] == PutStrings([NONE, NONE, []]) + (PutU32(1) + strings);
    StringsForward([NONE, NONE, []], PutU32(1) + strings);
    assert (PutU32(1) + strings)[4..] == strings + [];
    StringsForward([blob, block], []);
  }

  /** Decoding undoes encoding. */
  lemma DecodeEncode(k: Key)
    requires Fits(k)
    ensures Decode(Encode(k)) == Some(k)
  {
    ReadOwnContainer(PublicBlob(k.keyType, k.pub), PrivateBlock(k));
    ReadOwnPrivateBlock(k);
  }

  // ---------- Decoding, then encoding ----------

  lemma PrivateBlockBackward(b: bytes)
    requires ReadPrivateBlock(b).Some?
    ensures ReadPrivateBlock(b).value.check < TWO_32 && AllFit(Fields(ReadPrivateBlock(b).value))
    ensures PrivateBlock(ReadPrivateBlock(b).value) == b
  {
    hide PutString, GetString, PutStrings, GetStrings, PutU32, GetU32;
    var k := ReadPrivateBlock(b).value;
    var (ss, pad) := GetStrings(b[8..], 4).value;
    StringsBackward(b[8..], 4);
    assert ss == Fields(k);
    U32Backward(b);
    assert b == b[..4] + b[4..8] + b[8..];
    assert b == PrivateList(k) + pad;
    PadUnique(|PrivateList(k)|, |pad|);
  }

  lemma ContainerBackward(b: bytes)
    requires ReadContainer(b).Some?
    ensures var (blob, block) := ReadContainer(b).value;
            |blob| < TWO_32 && |block| < TWO_32 && Container(blob, block) == b
  {
    hide PutString, GetString, PutStrings, GetStrings, PutU32, GetU32;
    var head := b[|MAGIC|..];
    var rest := GetStrings(head, 3).value.1;
    StringsBackward(head, 3);
    StringsBackward(rest[4..], 2);
    var ss := GetStrings(rest[4..], 2).value.0;
    assert ss[0] in ss && ss[1] in ss && ss == [ss[0], ss[1]];
    assert rest == PutU32(1) + rest[4..];
    assert rest[4..] == PutStrings(ss) + [];
    assert b == MAGIC + head;
  }

  /** The format is canonical: whatever the strict reader accepts is the encoding of the key it returns. */
  lemma EncodeDecode(b: bytes)
    requires Decode(b).Some?
    ensures Fits(Decode(b).value) && Encode(Decode(b).value) == b
  {
    ContainerBackward(b);
    PrivateBlockBackward(ReadContainer(b).value.1);
  }

  // ---------- The marshaller ----------

  /** The prefix written by hand in front of the public key. */
  const PREFIX: bytes := [0, 0, 0, 0x0b] + KEY_TYPE + [0, 0, 0, 0x20]

  /** The hand-written prefix makes an RFC 8709 blob exactly for 32-byte public keys. */
  lemma HandWrittenPrefix(pub: bytes)
    requires |pub| < TWO_32
    ensures PREFIX + pub == PublicBlob(KEY_TYPE, pub) <==> |pub| == 32
  {
    assert |KEY_TYPE| == 11;
    assert PutU32(11) == [0, 0, 0, 0x0b];
    assert PutU32(32) == [0, 0, 0, 0x20];
    var hand, blob := PREFIX + pub, PublicBlob(KEY_TYPE, pub);
    assert blob == [0, 0, 0, 0x0b] + KEY_TYPE + PutU32(|pub|) + pub;
    if hand == blob {
      assert hand[15..19] == [0, 0, 0, 0x20];
      assert blob[15..19] == PutU32(|pub|);
      U32Forward(|pub|, []);
      U32Forward(32, []);
      assert PutU32(|pub|) + [] == PutU32(32) + [];
    }
  }

  /** What ssh.Marshal makes of the two structs, field by field. */
  lemma MarshalledStructs(check: nat, pub: bytes, priv: bytes, blob: bytes, block: bytes)
    requires check < TWO_32
    ensures PutU32(check) + PutU32(check) + PutString(KEY_TYPE) + PutString(pub) + PutString(priv) + PutString([])
         == PrivateList(Key(check, KEY_TYPE, pub, priv, []))
    ensures MAGIC + PutString(NONE) + PutString(NONE) + PutString([]) + PutU32(1) + PutString(blob) + PutString(block)
         == Container(blob, block)
  {
    FourStrings(KEY_TYPE, pub, priv, []);
    ThreeStrings(NONE, NONE, []);
    TwoStrings(blob, block);
  }

  lemma TwoStrings(a: bytes, b: bytes)
    ensures PutStrings([a, b]) == PutString(a) + PutString(b)
  {
    assert [a, b][1..] == [b] && [b][1..] == [];
    assert PutStrings([b]) == PutString(b) + [];
  }

  lemma ThreeStrings(a: bytes, b: bytes, c: bytes)
    ensures PutStrings([a, b, c]) == PutString(a) + PutString(b) + PutString(c)
  {
    TwoStrings(b, c);
    assert [a, b, c][1..] == [b, c];
  }

  lemma FourStrings(a: bytes, b: bytes, c: bytes, d: bytes)
    ensures PutStrings([a, b, c, d]) == PutString(a) + PutString(b) + PutString(c) + PutString(d)
  {
    ThreeStrings(b, c, d);
    assert [a, b, c, d][1..] == [b, c, d];
  }

  lemma ShortKeyFits(k: Key)
    requires k.check < TWO_32 && k.keyType == KEY_TYPE && |k.pub| == 32 && |k.priv| == 64 && k.comment == []
    ensures Fits(k)
  {
    FourStrings(k.keyType, k.pub, k.priv, k.comment);
  }

  /** The loop that writes 1, 2, 3, ... into the freshly made slice. */
  method MakePadding(padLen: nat) returns (pad: array<byte>)
    requires padLen < 256
    ensures fresh(pad) && pad[..] == Padding(padLen)
  {
    pad := new byte[padLen](_ => 0);
    for i := 0 to padLen
      invariant forall j | 0 <= j < i :: pad[j] as int == j + 1
    {
      pad[i] := (i + 1) as byte;
    }
  }

  /** The 64-byte private key of the ed25519 package ends with its public key. */
  method MarshalEd25519PrivateKey(check: nat, key: bytes) returns (out: bytes)
    requires check < TWO_32
    requires |key| == 64
    ensures out == Encode(Key(check, KEY_TYPE, key[32..], key, []))
    ensures Decode(out) == Some(Key(check, KEY_TYPE, key[32..], key, []))
  {
    hide PutString, GetString, PutStrings, GetStrings, PutU32, GetU32;
    var magic := MAGIC;
    var pub := key[32..];
    var list := PutU32(check) + PutU32(check) + PutString(KEY_TYPE) + PutString(pub) + PutString(key) + PutString([]);
    var blockLen := |list|;
    var padLen := (BLOCK_SIZE - blockLen % BLOCK_SIZE) % BLOCK_SIZE;
    var pad := MakePadding(padLen);
    var block := list + pad[..];
    var prefix: bytes := PREFIX;
    var blob := prefix + pub;
    out := magic + PutString(NONE) + PutString(NONE) + PutString([]) + PutU32(1) + PutString(blob) + PutString(block);
    HandWrittenPrefix(pub);
    MarshalledStructs(check, pub, key, blob, block);
    ShortKeyFits(Key(check, KEY_TYPE, pub, key, []));
    DecodeEncode(Key(check, KEY_TYPE, pub, key, []));
  }
}
