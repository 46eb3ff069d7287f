/** Public-key handling of the Ledger device flow
    (src/comps/ledger/ledger-device.tsx): compression of a secp256k1 public key
    into the 33-byte form of SEC 1 v2, section 2.3.3, and the regtest network
    record the Ledger address is derived for. */
module PubKey {
  import opened Wrappers
  import opened Hex

  const InvalidFormatMessage: string :=
    "Invalid pubKey format. Expected uncompressed (65 bytes, starts with 0x04)."

  /** 33 bytes starting with 0x02 or 0x03. */
  predicate IsCompressed(k: seq<Byte>) {
    |k| == 33 && (k[0] == 0x02 || k[0] == 0x03)
  }

  /** 65 bytes starting with 0x04. */
  predicate IsUncompressed(k: seq<Byte>) {
    |k| == 65 && k[0] == 0x04
  }

  /** `compressPubKeyToUint8`: a compressed key passes through; an uncompressed
      key 0x04 || X || Y becomes (0x02 or 0x03 by the parity of Y) || X; any
      other input throws. The point is not checked to lie on the curve. The
      parity test `pubKey[64] & 1` is written `% 2` (equal on bytes). */
  function Compress(pubKey: seq<Byte>): (r: Result<seq<Byte>>)
    ensures IsCompressed(pubKey) ==> r == Ok(pubKey)
    ensures r.Err? <==> !IsCompressed(pubKey) && !IsUncompressed(pubKey)
    ensures r.Err? ==> r.error == InvalidFormatMessage
    ensures r.Ok? ==> IsCompressed(r.value)
    ensures r.Ok? && IsUncompressed(pubKey) ==>
              (r.value[0] == 0x03 <==> pubKey[64] % 2 == 1) &&
              forall i :: 1 <= i < 33 ==> r.value[i] == pubKey[i]
  {
    if IsCompressed(pubKey) then Ok(pubKey)
    else if pubKey == [] || pubKey[0] != 0x04 || |pubKey| != 65 then Err(InvalidFormatMessage)
    else
      var prefix := if pubKey[64] % 2 == 1 then 0x03 else 0x02;
      Ok([prefix] + pubKey[1..33])
  }

  /** Compressing a key that compression produced returns it unchanged. */
  lemma CompressIdempotent(pubKey: seq<Byte>)
    requires Compress(pubKey).Ok?
    ensures Compress(Compress(pubKey).value) == Compress(pubKey)
  {
  }

  // Reference encodings of SEC 1 v2, sections 2.3.3 and 2.3.4, for a point
  // given by its two 32-byte big-endian field elements.

  predicate IsCoordinate(c: seq<Byte>) {
    |c| == 32
  }

  /** 0x04 || X || Y */
  function Sec1Uncompressed(x: seq<Byte>, y: seq<Byte>): (k: seq<Byte>)
    requires IsCoordinate(x) && IsCoordinate(y)
  {
    [0x04] + x + y
  }

  /** (0x02 if Y is even, 0x03 if odd) || X; the parity of a big-endian
      number is that of its last byte. */
  function Sec1Compressed(x: seq<Byte>, y: seq<Byte>): (k: seq<Byte>)
    requires IsCoordinate(x) && IsCoordinate(y)
  {
    [if y[31] % 2 == 1 then 0x03 else 0x02] + x
  }

  /** Compression agrees with SEC 1 on every well-formed uncompressed point,
      and leaves SEC 1 compressed points alone. */
  lemma CompressMatchesSec1(x: seq<Byte>, y: seq<Byte>)
    requires IsCoordinate(x) && IsCoordinate(y)
    ensures Compress(Sec1Uncompressed(x, y)) == Ok(Sec1Compressed(x, y))
    ensures Compress(Sec1Compressed(x, y)) == Ok(Sec1Compressed(x, y))
  {
    var u := Sec1Uncompressed(x, y);
    assert u[1..33] == x;
    assert u[64] == y[31];
  }

  /** A compressed result keeps exactly X and the parity of Y: two
      uncompressed keys compress alike iff they share X and Y's parity. */
  lemma CompressKeepsXAndParity(a: seq<Byte>, b: seq<Byte>)
    requires IsUncompressed(a) && IsUncompressed(b)
    ensures Compress(a) == Compress(b) <==> a[1..33] == b[1..33] && a[64] % 2 == b[64] % 2
  {
    var ca, cb := Compress(a).value, Compress(b).value;
    assert ca[1..] == a[1..33] && cb[1..] == b[1..33];
    if a[1..33] == b[1..33] && a[64] % 2 == b[64] % 2 {
      assert ca == [ca[0]] + ca[1..] && cb == [cb[0]] + cb[1..];
    }
  }

  datatype Bip32Versions = Bip32Versions(public: int, private: int)

  /** A bitcoinjs-lib `Network` record. */
  datatype Network = Network(
    messagePrefix: string,
    bech32: string,
    bip32: Bip32Versions,
    pubKeyHash: int,
    scriptHash: int,
    wif: int)

  /** bitcoinjs-lib's `networks.testnet`. */
  const Testnet: Network := Network(
    "\U{18}Bitcoin Signed Message:\n", "tb", Bip32Versions(0x043587cf, 0x04358394), 0x6f, 0xc4, 0xef)

  /** `regtest`: testnet with the bech32 prefix "bcrt" and the testnet BIP32 versions. */
  const Regtest: Network := Testnet.(bech32 := "bcrt", bip32 := Bip32Versions(0x043587cf, 0x04358394))

  lemma RegtestIsTestnetWithBcrt()
    ensures Regtest.bech32 == "bcrt"
    ensures Regtest.bip32 == Bip32Versions(0x043587cf, 0x04358394)
    ensures Regtest.(bech32 := Testnet.bech32) == Testnet
  {
  }
}
