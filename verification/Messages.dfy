/** The byte strings that get signed: big-endian fields, detach payloads, lock messages and their Ethereum wrapping. */
module Messages {
  import opened Basics

  type Bytes20 = b: Bytes | |b| == 20 witness seq(20, _ => 0)
  type Bytes32 = b: Bytes | |b| == 32 witness seq(32, _ => 0)
  type Nonce = n: nat | n < U64

  // ---- Fixed-width big-endian numbers ---------------------------------------------------------

  function Pow256(width: nat): (r: nat)
    ensures r > 0
  {
    if width == 0 then 1 else 256 * Pow256(width - 1)
  }

  /** `to_be_bytes` of a number of that many bytes. */
  function BigEndian(n: nat, width: nat): (r: Bytes)
    ensures |r| == width
  {
    if width == 0 then [] else BigEndian(n / 256, width - 1) + [(n % 256) as Byte]
  }

  function FromBigEndian(b: Bytes): nat {
    if b == [] then 0 else 256 * FromBigEndian(b[..|b| - 1]) + b[|b| - 1] as nat
  }

  lemma {:induction false} EncodeThenDecode(n: nat, width: nat)
    requires n < Pow256(width)
    ensures FromBigEndian(BigEndian(n, width)) == n
  {
    if width != 0 {
      var b := BigEndian(n, width);
      assert b[..|b| - 1] == BigEndian(n / 256, width - 1);
      EncodeThenDecode(n / 256, width - 1);
    }
  }

  lemma {:induction false} DecodeThenEncode(b: Bytes)
    ensures FromBigEndian(b) < Pow256(|b|)
    ensures BigEndian(FromBigEndian(b), |b|) == b
  {
    if b != [] {
      var (high, low) := (b[..|b| - 1], b[|b| - 1]);
      DecodeThenEncode(high);
      DivideBack(FromBigEndian(high), low as nat);
      assert b == high + [low];
    }
  }

  /** A number without its k lowest bytes. */
  function Shifted(n: nat, k: nat): nat {
    if k == 0 then n else Shifted(n / 256, k - 1)
  }

  /** The most significant byte comes first: byte i is the lowest of the number without as many as follow it. */
  lemma {:induction false} MostSignificantFirst(n: nat, width: nat, i: nat)
    requires i < width
    ensures BigEndian(n, width)[i] as nat == Shifted(n, width - 1 - i) % 256
  {
    if i < width - 1 {
      MostSignificantFirst(n / 256, width - 1, i);
    }
  }

  lemma DivideBack(high: nat, low: nat)
    requires low < 256
    ensures (256 * high + low) / 256 == high && (256 * high + low) % 256 == low
  {
  }

  lemma Pow256Is64Bits()
    ensures Pow256(8) == U64
  {
  }

  /** Eight bytes read as an unsigned 64-bit number. */
  function Read64(b: Bytes): (r: Nonce)
    requires |b| == 8
    ensures BigEndian(r, 8) == b
  {
    DecodeThenEncode(b);
    Pow256Is64Bits();
    FromBigEndian(b)
  }

  lemma Read64Back(n: Nonce)
    ensures Read64(BigEndian(n, 8)) == n
  {
    Pow256Is64Bits();
    EncodeThenDecode(n, 8);
  }

  // ---- Detach payloads ------------------------------------------------------------------------

  datatype TargetChain = EthereumMainnet | EthereumRinkeby | EthereumGoerli

  function ChainId(c: TargetChain): nat {
    match c
    case EthereumMainnet => 1
    case EthereumRinkeby => 4
    case EthereumGoerli => 5
  }

  function ChainOf(id: nat): Option<TargetChain> {
    if id == 1 then Some(EthereumMainnet) else if id == 4 then Some(EthereumRinkeby)
    else if id == 5 then Some(EthereumGoerli) else None
  }

  datatype Detaching = Detaching(hash: Bytes32, chain: TargetChain, account: Bytes20, nonce: Nonce)

  function Payload(d: Detaching): Bytes {
    d.hash + BigEndian(ChainId(d.chain), 32) + d.account + BigEndian(d.nonce, 8)
  }

  function DecodePayload(p: Bytes): Option<Detaching> {
    if |p| != 92 then None
    else
      var chain := ChainOf(FromBigEndian(p[32..64]));
      if chain.None? then None else Some(Detaching(p[..32], chain.value, p[64..84], Read64(p[84..92])))
  }

  lemma ChainIdFits(c: TargetChain)
    ensures FromBigEndian(BigEndian(ChainId(c), 32)) == ChainId(c)
  {
    assert 5 < Pow256(32);
    EncodeThenDecode(ChainId(c), 32);
    hide BigEndian, FromBigEndian, Pow256;
  }

  lemma ChainIdBack(c: TargetChain)
    ensures ChainOf(FromBigEndian(BigEndian(ChainId(c), 32))) == Some(c)
  {
    ChainIdFits(c);
    hide BigEndian, FromBigEndian;
  }

  /** A payload is always 92 bytes, and decoding recovers all that went into it. */
  lemma PayloadRoundTrip(d: Detaching)
    ensures |Payload(d)| == 92
    ensures DecodePayload(Payload(d)) == Some(d)
  {
    var p := Payload(d);
    assert p[..32] == d.hash && p[64..84] == d.account;
    assert p[32..64] == BigEndian(ChainId(d.chain), 32);
    assert p[84..92] == BigEndian(d.nonce, 8);
    ChainIdBack(d.chain);
    Read64Back(d.nonce);
    hide BigEndian, FromBigEndian, Read64, ChainId, ChainOf;
  }

  /** The bytes of a payload: the hash, the number of the chain in 32, the account, the nonce in 8. */
  lemma PayloadLayout(d: Detaching)
    ensures var p := Payload(d);
      && |p| == 92 && p[..32] == d.hash && p[64..84] == d.account && FromBigEndian(p[84..92]) == d.nonce
      && FromBigEndian(p[32..64]) == match d.chain
                                     case EthereumMainnet => 1
                                     case EthereumRinkeby => 4
                                     case EthereumGoerli => 5
  {
    var p := Payload(d);
    assert p[..32] == d.hash && p[64..84] == d.account;
    assert p[32..64] == BigEndian(ChainId(d.chain), 32) && p[84..92] == BigEndian(d.nonce, 8);
    ChainIdFits(d.chain);
    Pow256Is64Bits();
    hide Pow256;
    EncodeThenDecode(d.nonce, 8);
    hide BigEndian, FromBigEndian;
  }

  /** Whatever decodes is the payload of what it decodes to: nothing else is read as one. */
  lemma OnlyPayloadsDecode(p: Bytes)
    requires DecodePayload(p).Some?
    ensures Payload(DecodePayload(p).value) == p
  {
    DecodeThenEncode(p[32..64]);
    assert p == p[..32] + p[32..64] + p[64..84] + p[84..92];
  }

  // ---- Lock and unlock messages ---------------------------------------------------------------

  function Ascii(s: string): (r: Bytes)
    ensures |r| == |s|
  {
    seq(|s|, i requires 0 <= i < |s| => (s[i] as int % 256) as Byte)
  }

  datatype Locking = Locking(lock: bool, sender: Bytes20, chainId: Nonce, amount: Bytes32)

  function LockHead(lock: bool): (r: Bytes)
    ensures |r| == if lock then 8 else 10
  {
    if lock then Ascii("FragLock") else Ascii("FragUnlock")
  }

  function LockBody(m: Locking): (r: Bytes)
    ensures |r| == 60
  {
    m.sender + BigEndian(m.chainId, 8) + m.amount
  }

  function LockMessage(m: Locking): Bytes {
    LockHead(m.lock) + LockBody(m)
  }

  function ReadBody(lock: bool, b: Bytes): Locking
    requires |b| == 60
  {
    Locking(lock, b[..20], Read64(b[20..28]), b[28..])
  }

  function DecodeLock(b: Bytes): Option<Locking> {
    if |b| == 68 && b[..8] == LockHead(true) then Some(ReadBody(true, b[8..]))
    else if |b| == 70 && b[..10] == LockHead(false) then Some(ReadBody(false, b[10..]))
    else None
  }

  lemma BodyRoundTrip(m: Locking)
    ensures ReadBody(m.lock, LockBody(m)) == m
  {
    var b := LockBody(m);
    assert b[..20] == m.sender && b[20..28] == BigEndian(m.chainId, 8) && b[28..] == m.amount;
    Read64Back(m.chainId);
  }

  /** A lock or unlock message decodes to what it was made of, so no two coincide. */
  lemma LockRoundTrip(m: Locking)
    ensures |LockMessage(m)| == if m.lock then 68 else 70
    ensures DecodeLock(LockMessage(m)) == Some(m)
  {
    BodyRoundTrip(m);
    hide ReadBody, LockHead, LockBody;
    var (head, body) := (LockHead(m.lock), LockBody(m));
    assert (head + body)[|head|..] == body && (head + body)[..|head|] == head;
  }

  /** Appended field by field. */
  lemma LockMessageInOrder(m: Locking)
    ensures LockMessage(m) == LockHead(m.lock) + m.sender + BigEndian(m.chainId, 8) + m.amount
  {
  }

  /** The bytes of a lock or unlock message: its name, the sender, the chain id in 8, the amount in 32. */
  lemma LockLayout(m: Locking)
    ensures var (b, n) := (LockMessage(m), if m.lock then 8 else 10);
      && |b| == n + 60 && b[..n] == Ascii(if m.lock then "FragLock" else "FragUnlock") && b[n..n + 20] == m.sender
      && FromBigEndian(b[n + 20..n + 28]) == m.chainId && b[n + 28..] == m.amount
  {
    var (b, n) := (LockMessage(m), if m.lock then 8 else 10);
    LockMessageInOrder(m);
    assert b[n + 20..n + 28] == BigEndian(m.chainId, 8);
    Pow256Is64Bits();
    EncodeThenDecode(m.chainId, 8);
    hide BigEndian, FromBigEndian, LockMessage, Ascii;
    assert b[..n] == LockHead(m.lock) && b[n..n + 20] == m.sender && b[n + 28..] == m.amount;
  }

  lemma OnlyLocksDecode(b: Bytes)
    requires DecodeLock(b).Some?
    ensures LockMessage(DecodeLock(b).value) == b
  {
  }

  // ---- Link messages --------------------------------------------------------------------------

  datatype Linking = Linking(chainId: Nonce, account: Bytes32)

  function LinkHead(): (r: Bytes)
    ensures |r| == 12
  {
    Ascii("EVM2Fragnova")
  }

  function LinkMessage(m: Linking): Bytes {
    LinkHead() + BigEndian(m.chainId, 8) + m.account
  }

  function DecodeLink(b: Bytes): Option<Linking> {
    if |b| == 52 && b[..12] == LinkHead() then Some(Linking(Read64(b[12..20]), b[20..])) else None
  }

  /** A link message has 52 bytes and decodes to the chain and the account it was made of. */
  lemma LinkRoundTrip(m: Linking)
    ensures |LinkMessage(m)| == 52
    ensures DecodeLink(LinkMessage(m)) == Some(m)
  {
    Read64Back(m.chainId);
    hide LinkHead, BigEndian, Read64;
    var b := LinkMessage(m);
    assert b[..12] == LinkHead() && b[12..20] == BigEndian(m.chainId, 8) && b[20..] == m.account;
  }

  /** The bytes of a link message: its name, the chain id in 8, the account. */
  lemma LinkLayout(m: Linking)
    ensures var b := LinkMessage(m);
      |b| == 52 && b[..12] == Ascii("EVM2Fragnova") && FromBigEndian(b[12..20]) == m.chainId && b[20..] == m.account
  {
    var b := LinkMessage(m);
    Pow256Is64Bits();
    EncodeThenDecode(m.chainId, 8);
    hide BigEndian, FromBigEndian, Ascii;
    assert b[..12] == LinkHead() && b[12..20] == BigEndian(m.chainId, 8) && b[20..] == m.account;
  }

  lemma OnlyLinksDecode(b: Bytes)
    requires DecodeLink(b).Some?
    ensures LinkMessage(DecodeLink(b).value) == b
  {
    hide LinkHead, BigEndian, Read64;
    assert b == b[..12] + b[12..20] + b[20..];
  }

  // ---- The Ethereum wrapping ------------------------------------------------------------------

  const PREFIX: Bytes := [0x19] + Ascii("Ethereum Signed Message:\n32")

  function Wrapped(hash: Bytes32): Bytes {
    PREFIX + hash
  }

  /** Decimal digits, as ASCII. */
  function Decimal(n: nat): Bytes {
    (if n < 10 then [] else Decimal(n / 10)) + [(48 + n % 10) as Byte]
  }

  /** The byte string EIP-191 prescribes for signing `message` under version 0x45 (E). */
  function Eip191E(message: Bytes): Bytes {
    [0x19, 0x45] + Ascii("thereum Signed Message:\n") + Decimal(|message|) + message
  }

  lemma PrefixIsEip191()
    ensures PREFIX == [0x19, 0x45] + Ascii("thereum Signed Message:\n") + Decimal(32) && |PREFIX| == 28
  {
  }

  /** What is hashed and signed is EIP-191 version 0x45 of the 32-byte hash; it is 60 bytes long and ends in
      that hash. */
  lemma WrappedIsEip191(hash: Bytes32)
    ensures Wrapped(hash) == Eip191E(hash)
    ensures |Wrapped(hash)| == 60 && Wrapped(hash)[28..] == hash
  {
    PrefixIsEip191();
    hide PREFIX, Ascii, Decimal;
  }

  /** The byte strings the chain hashes for Ethereum never coincide: detach payloads, link, lock and unlock messages,
      and wrapped hashes. */
  lemma KindsNeverCoincide(d: Detaching, m: Locking, n: Locking, l: Linking, hash: Bytes32)
    ensures Payload(d) != LockMessage(m) && Payload(d) != LinkMessage(l) && Payload(d) != Wrapped(hash)
    ensures LinkMessage(l) != LockMessage(m) && LinkMessage(l) != Wrapped(hash) && LockMessage(m) != Wrapped(hash)
    ensures m.lock != n.lock ==> LockMessage(m) != LockMessage(n)
  {
    hide Payload, LockMessage, LinkMessage, Wrapped;
    PayloadRoundTrip(d);
    LockRoundTrip(m);
    LockRoundTrip(n);
    LinkRoundTrip(l);
    WrappedIsEip191(hash);
  }
}
