/** `decrypt_grummer` (libs/common/src/gex_common/crypto.py) over an abstract 16-byte block cipher. */
module Decryption {
  import opened Wrappers
  import opened Codecs

  const BLOCK: nat := 16
  const KEY_LENGTHS: set<nat> := {16, 24, 32}

  /** A keyed pair of functions on blocks. */
  datatype BlockCipher = BlockCipher(enc: (seq<Byte>, seq<Byte>) -> seq<Byte>, dec: (seq<Byte>, seq<Byte>) -> seq<Byte>)

  /** For every key the two are inverse permutations of 16-byte blocks. */
  ghost predicate Permutes(c: BlockCipher) {
    && (forall k, b :: |b| == BLOCK ==> |c.enc(k, b)| == BLOCK && c.dec(k, c.enc(k, b)) == b)
    && (forall k, b :: |b| == BLOCK ==> |c.dec(k, b)| == BLOCK && c.enc(k, c.dec(k, b)) == b)
  }

  function Pow2(n: nat): (r: nat)
    ensures r > 0
  {
    if n == 0 then 1 else 2 * Pow2(n - 1)
  }

  /** Bitwise exclusive or of two `n`-bit numbers. */
  function XorBits(n: nat, a: nat, b: nat): (r: nat)
    requires a < Pow2(n) && b < Pow2(n)
    ensures r < Pow2(n)
  {
    if n == 0 then 0 else 2 * XorBits(n - 1, a / 2, b / 2) + (a + b) % 2
  }

  lemma Halves(a: nat, b: nat, h: nat)
    ensures (2 * h + (a + b) % 2) / 2 == h
    ensures (2 * h + (a + b) % 2) % 2 == 1 <==> (a % 2 == 1) != (b % 2 == 1)
  {
  }

  lemma XorBitsHalves(n: nat, a: nat, b: nat)
    requires n > 0 && a < Pow2(n) && b < Pow2(n)
    ensures a / 2 < Pow2(n - 1) && b / 2 < Pow2(n - 1)
    ensures XorBits(n, a, b) / 2 == XorBits(n - 1, a / 2, b / 2)
    ensures XorBits(n, a, b) % 2 == 1 <==> (a % 2 == 1) != (b % 2 == 1)
  {
    Halves(a, b, XorBits(n - 1, a / 2, b / 2));
  }

  /** Bit `i` of `a`, the lowest being number 0. */
  predicate Bit(a: nat, i: nat) {
    if i == 0 then a % 2 == 1 else Bit(a / 2, i - 1)
  }

  lemma {:induction false} ZeroBits(i: nat)
    ensures !Bit(0, i)
  {
    if i == 0 {
    } else {
      ZeroBits(i - 1);
    }
  }

  /** Exclusive or, bit by bit: the result differs from `a` exactly where `b` has a bit set. */
  lemma {:induction false} XorBitsAt(n: nat, a: nat, b: nat, i: nat)
    requires a < Pow2(n) && b < Pow2(n)
    ensures Bit(XorBits(n, a, b), i) == (Bit(a, i) != Bit(b, i))
    decreases n
  {
    if n == 0 {
      ZeroBits(i);
    } else {
      XorBitsHalves(n, a, b);
      hide XorBits, Pow2;
      if i > 0 {
        XorBitsAt(n - 1, a / 2, b / 2, i - 1);
      }
    }
  }

  lemma SameHalves(a: nat, b: nat)
    requires a / 2 == b / 2 && (a % 2 == 1 <==> b % 2 == 1)
    ensures a == b
  {
  }

  /** The bits decide the number. */
  lemma {:induction false} BitsDecide(n: nat, a: nat, b: nat)
    requires a < Pow2(n) && b < Pow2(n) && forall i: nat :: Bit(a, i) == Bit(b, i)
    ensures a == b
  {
    if n == 0 {
    } else {
      assert Bit(a, 0) == Bit(b, 0);
      forall i: nat
        ensures Bit(a / 2, i) == Bit(b / 2, i)
      {
        assert Bit(a, i + 1) == Bit(b, i + 1);
      }
      BitsDecide(n - 1, a / 2, b / 2);
      SameHalves(a, b);
    }
  }

  lemma XorBitsTwice(n: nat, a: nat, b: nat)
    requires a < Pow2(n) && b < Pow2(n)
    ensures XorBits(n, XorBits(n, a, b), b) == a
  {
    hide XorBits, Bit, Pow2;
    var x := XorBits(n, a, b);
    forall i: nat
      ensures Bit(XorBits(n, x, b), i) == Bit(a, i)
    {
      XorBitsAt(n, a, b, i);
      XorBitsAt(n, x, b, i);
    }
    BitsDecide(n, XorBits(n, x, b), a);
  }

  lemma ByteWidth(n: nat)
    requires n == 8
    ensures Pow2(n) == 256
  {
    assert Pow2(n - 2) == 4 * Pow2(n - 4);
    assert Pow2(n - 4) == 4 * Pow2(n - 6);
    assert Pow2(n - 6) == 4 * Pow2(n - 8);
  }

  function XorByte(a: Byte, b: Byte): Byte {
    ByteWidth(8);
    XorBits(8, a, b)
  }

  lemma XorByteTwice(a: Byte, b: Byte)
    ensures XorByte(XorByte(a, b), b) == a
  {
    ByteWidth(8);
    XorBitsTwice(8, a, b);
  }

  lemma XorByteAt(a: Byte, b: Byte, i: nat)
    ensures Bit(XorByte(a, b), i) == (Bit(a, i) != Bit(b, i))
  {
    ByteWidth(8);
    XorBitsAt(8, a, b, i);
  }

  function Xor(a: seq<Byte>, b: seq<Byte>): (r: seq<Byte>)
    requires |a| == |b|
    ensures |r| == |a|
  {
    seq(|a|, i requires 0 <= i < |a| => XorByte(a[i], b[i]))
  }

  lemma XorTwice(a: seq<Byte>, b: seq<Byte>)
    requires |a| == |b|
    ensures Xor(Xor(a, b), b) == a
  {
    forall i | 0 <= i < |a|
      ensures Xor(Xor(a, b), b)[i] == a[i]
    {
      XorByteTwice(a[i], b[i]);
    }
  }

  // -- Cipher block chaining (section 6.2 of NIST SP 800-38A) -----------------------------------------

  ghost function CbcEncrypt(c: BlockCipher, key: seq<Byte>, iv: seq<Byte>, p: seq<Byte>): (r: seq<Byte>)
    requires Permutes(c) && |iv| == BLOCK && |p| % BLOCK == 0
    ensures |r| == |p|
    decreases |p|
  {
    if p == [] then []
    else
      var b := c.enc(key, Xor(p[..BLOCK], iv));
      b + CbcEncrypt(c, key, b, p[BLOCK..])
  }

  ghost function CbcDecrypt(c: BlockCipher, key: seq<Byte>, iv: seq<Byte>, x: seq<Byte>): (r: seq<Byte>)
    requires Permutes(c) && |iv| == BLOCK && |x| % BLOCK == 0
    ensures |r| == |x|
    decreases |x|
  {
    if x == [] then []
    else Xor(c.dec(key, x[..BLOCK]), iv) + CbcDecrypt(c, key, x[..BLOCK], x[BLOCK..])
  }

  lemma {:induction false} DecryptEncrypt(c: BlockCipher, key: seq<Byte>, iv: seq<Byte>, p: seq<Byte>)
    requires Permutes(c) && |iv| == BLOCK && |p| % BLOCK == 0
    ensures CbcDecrypt(c, key, iv, CbcEncrypt(c, key, iv, p)) == p
    decreases |p|
  {
    if p == [] {
    } else {
      var m := Xor(p[..BLOCK], iv);
      var b := c.enc(key, m);
      var x := CbcEncrypt(c, key, iv, p);
      assert x[..BLOCK] == b && x[BLOCK..] == CbcEncrypt(c, key, b, p[BLOCK..]);
      DecryptEncrypt(c, key, b, p[BLOCK..]);
      XorTwice(p[..BLOCK], iv);
      assert c.dec(key, b) == m;
      assert p == p[..BLOCK] + p[BLOCK..];
    }
  }

  lemma {:induction false} EncryptDecrypt(c: BlockCipher, key: seq<Byte>, iv: seq<Byte>, x: seq<Byte>)
    requires Permutes(c) && |iv| == BLOCK && |x| % BLOCK == 0
    ensures CbcEncrypt(c, key, iv, CbcDecrypt(c, key, iv, x)) == x
    decreases |x|
  {
    if x == [] {
    } else {
      var b := x[..BLOCK];
      var p := CbcDecrypt(c, key, iv, x);
      assert p[..BLOCK] == Xor(c.dec(key, b), iv) && p[BLOCK..] == CbcDecrypt(c, key, b, x[BLOCK..]);
      XorTwice(c.dec(key, b), iv);
      assert c.enc(key, c.dec(key, b)) == b;
      EncryptDecrypt(c, key, b, x[BLOCK..]);
      assert x == b + x[BLOCK..];
    }
  }

  lemma FirstBlock(c: BlockCipher, key: seq<Byte>, iv: seq<Byte>, x: seq<Byte>)
    requires Permutes(c) && |iv| == 16 && |x| % 16 == 0 && x != []
    ensures |x| >= 16 && |c.dec(key, x[..16])| == 16
    ensures CbcDecrypt(c, key, iv, x) == Xor(c.dec(key, x[..16]), iv) + CbcDecrypt(c, key, x[..16], x[16..])
  {
  }

  /** Byte `q` is at offset `q % 16` of the block that starts at `q - q % 16`. */
  lemma BlockStart(n: nat, q: nat)
    requires n % 16 == 0 && q < n
    ensures q - q % 16 + 16 <= n
    ensures q < 16 ==> q - q % 16 == 0
    ensures q >= 16 ==> (q - 16) % 16 == q % 16 && q - q % 16 >= 16
  {
  }

  lemma SliceOfTail(x: seq<Byte>, start: nat)
    requires 16 <= start && start + 16 <= |x|
    ensures x[16..][start - 16..start] == x[start..start + 16]
  {
  }

  lemma FirstBytes(c: BlockCipher, key: seq<Byte>, iv: seq<Byte>, x: seq<Byte>, q: nat)
    requires Permutes(c) && |iv| == 16 && |x| % 16 == 0 && q < |x| && q < 16
    ensures |x| >= 16 && |c.dec(key, x[..16])| == 16
    ensures CbcDecrypt(c, key, iv, x)[q] == XorByte(c.dec(key, x[..16])[q], iv[q])
  {
    FirstBlock(c, key, iv, x);
    hide CbcDecrypt, Permutes, XorByte;
  }

  lemma LaterBytes(c: BlockCipher, key: seq<Byte>, iv: seq<Byte>, x: seq<Byte>, q: nat)
    requires Permutes(c) && |iv| == 16 && |x| % 16 == 0 && 16 <= q < |x|
    ensures CbcDecrypt(c, key, iv, x)[q] == CbcDecrypt(c, key, x[..16], x[16..])[q - 16]
  {
    FirstBlock(c, key, iv, x);
    hide CbcDecrypt, Permutes, XorByte;
  }

  /** Byte `q`, its block after the block cipher, and the byte it is chained with. */
  ghost predicate ChainedAt(c: BlockCipher, key: seq<Byte>, iv: seq<Byte>, x: seq<Byte>, q: nat, i: nat)
    requires Permutes(c) && |iv| == 16 && |x| % 16 == 0 && q < |x|
  {
    BlockStart(|x|, q);
    var block := c.dec(key, x[q - q % 16..q - q % 16 + 16]);
    && |block| == 16
    && Bit(CbcDecrypt(c, key, iv, x)[q], i) ==
       (Bit(block[q % 16], i) != Bit(if q < 16 then iv[q] else x[q - 16], i))
  }

  lemma ChainedLater(c: BlockCipher, key: seq<Byte>, iv: seq<Byte>, x: seq<Byte>, q: nat, i: nat)
    requires Permutes(c) && |iv| == 16 && |x| % 16 == 0 && 16 <= q < |x|
    requires ChainedAt(c, key, x[..16], x[16..], q - 16, i)
    ensures ChainedAt(c, key, iv, x, q, i)
  {
    LaterBytes(c, key, iv, x, q);
    BlockStart(|x|, q);
    SliceOfTail(x, q - q % 16);
    hide CbcDecrypt, Permutes, Bit;
    assert (if q - 16 < 16 then x[..16][q - 16] else x[16..][q - 32]) == x[q - 16];
  }

  lemma ChainedFirst(c: BlockCipher, key: seq<Byte>, iv: seq<Byte>, x: seq<Byte>, q: nat, i: nat)
    requires Permutes(c) && |iv| == 16 && |x| % 16 == 0 && q < |x| && q < 16
    ensures ChainedAt(c, key, iv, x, q, i)
  {
    BlockStart(|x|, q);
    FirstBytes(c, key, iv, x, q);
    hide CbcDecrypt, Permutes, Bit, XorByte;
    XorByteAt(c.dec(key, x[..16])[q], iv[q], i);
    assert x[0..16] == x[..16];
  }

  lemma {:induction false} Chained(c: BlockCipher, key: seq<Byte>, iv: seq<Byte>, x: seq<Byte>, q: nat, i: nat)
    requires Permutes(c) && |iv| == 16 && |x| % 16 == 0 && q < |x|
    ensures ChainedAt(c, key, iv, x, q, i)
    decreases q
  {
    hide CbcDecrypt, Permutes, Bit, XorByte, ChainedAt;
    if q < 16 {
      ChainedFirst(c, key, iv, x, q, i);
    } else {
      Chained(c, key, x[..16], x[16..], q - 16, i);
      ChainedLater(c, key, iv, x, q, i);
    }
  }

  /** The chaining law: decrypted byte `q` differs from the block cipher's output for its block exactly in
      the bits set in the byte 16 places before it in the ciphertext, or in the vector for the first block. */
  lemma CbcDecryptAt(c: BlockCipher, key: seq<Byte>, iv: seq<Byte>, x: seq<Byte>, q: nat, i: nat)
    requires Permutes(c) && |iv| == 16 && |x| % 16 == 0 && q < |x|
    ensures q - q % 16 + 16 <= |x|
    ensures var block := c.dec(key, x[q - q % 16..q - q % 16 + 16]);
            && |block| == 16
            && Bit(CbcDecrypt(c, key, iv, x)[q], i) ==
               (Bit(block[q % 16], i) != Bit(if q < 16 then iv[q] else x[q - 16], i))
  {
    BlockStart(|x|, q);
    Chained(c, key, iv, x, q, i);
    hide CbcDecrypt, Permutes, Bit, XorByte;
  }

  // -- Padding (section 6.3 of RFC 5652) ------------------------------------------------------------------

  function PadLength(n: nat): (k: nat)
    ensures 1 <= k <= BLOCK && (n + k) % BLOCK == 0
  {
    BLOCK - n % BLOCK
  }

  function Pad(p: seq<Byte>): (r: seq<Byte>)
    ensures |r| % BLOCK == 0 && r != []
  {
    p + seq(PadLength(|p|), i => PadLength(|p|))
  }

  /** The last byte says how many bytes to drop, and each of those must repeat it. */
  function Unpad(r: seq<Byte>): Option<seq<Byte>>
    requires r != []
  {
    var n := r[|r| - 1];
    if 1 <= n <= BLOCK && n <= |r| && (forall i | |r| - n <= i < |r| :: r[i] == n) then Some(r[..|r| - n]) else None
  }

  lemma UnpadPad(p: seq<Byte>)
    ensures Unpad(Pad(p)) == Some(p)
  {
    var r := Pad(p);
    assert r[|r| - 1] == PadLength(|p|);
    assert r[..|r| - PadLength(|p|)] == p;
  }

  lemma PadUnpad(r: seq<Byte>)
    requires r != [] && |r| % BLOCK == 0 && Unpad(r).Some?
    ensures Pad(Unpad(r).value) == r
  {
    var n := r[|r| - 1];
    var p := r[..|r| - n];
    assert PadLength(|p|) == n;
    assert Pad(p) == r;
  }

  /** Padding appends `n` bytes of value `n`, the one `n` from 1 to 16 that completes a block; unpadding takes
      off exactly such an end. */
  lemma PaddingIs(p: seq<Byte>, n: nat)
    requires 1 <= n <= 16 && (|p| + n) % 16 == 0
    ensures Pad(p) == p + seq(n, i => n as Byte)
  {
    assert n == PadLength(|p|);
  }

  predicate EndsWith(r: seq<Byte>, p: seq<Byte>, n: Byte) {
    r == p + seq(n, i => n)
  }

  lemma UnpadsIff(r: seq<Byte>, p: seq<Byte>)
    requires r != []
    ensures Unpad(r) == Some(p) <==> exists n: Byte :: 1 <= n <= 16 && EndsWith(r, p, n)
  {
    var n := r[|r| - 1];
    if Unpad(r) == Some(p) {
      assert EndsWith(r, p, n);
    }
    if k: Byte :| 1 <= k <= 16 && EndsWith(r, p, k) {
      assert r[|r| - 1] == seq(k, i => k)[k - 1] == k;
      assert r[..|r| - k] == p;
    }
  }

  // -- The function -----------------------------------------------------------------------------------------

  datatype Error = InvalidHexKey | InvalidBase64 | InvalidKeyLength | InvalidIvLength
                 | InvalidCiphertextLength | DecryptionFailed

  datatype Result = Text(text: string) | DecryptionError(error: Error)

  /** A base64 decoder: None where it raises on an ASCII string. */
  type Decoder = string -> Option<seq<Byte>>

  /** A UTF-8 decoder: None where it raises. */
  type TextDecoder = seq<Byte> -> Option<string>

  /** The decoder reads whatever was encoded. What else it reads, surplus padding for instance, is open. */
  ghost predicate ReadsBase64(b64: Decoder) {
    forall b :: b64(Encode(b)) == Some(b)
  }

  /** The strict decoder of section 4 of RFC 4648 is one. */
  lemma StrictDecoderReads()
    ensures ReadsBase64(Decode)
  {
    forall b
      ensures Decode(Encode(b)) == Some(b)
    {
      Base64RoundTrip(b);
    }
  }

  /** `b64decode(validate=True)`: a string that is not ASCII fails with another exception than one that is
      not base64, and so with another message. */
  function ReadBase64(b64: Decoder, s: string): (Option<seq<Byte>>, Error) {
    if !IsAscii(s) then (None, DecryptionFailed) else (b64(s), InvalidBase64)
  }

  ghost function Decrypt(c: BlockCipher, b64: Decoder, utf8: TextDecoder,
                         ivB64: string, ctB64: string, secretHex: string): Result
    requires Permutes(c)
  {
    var key := FromHex(secretHex);
    if key.None? then DecryptionError(InvalidHexKey) else
    var (iv, e1) := ReadBase64(b64, ivB64);
    if iv.None? then DecryptionError(e1) else
    var (ct, e2) := ReadBase64(b64, ctB64);
    if ct.None? then DecryptionError(e2) else
    if |key.value| !in KEY_LENGTHS then DecryptionError(InvalidKeyLength) else
    if |iv.value| != BLOCK then DecryptionError(InvalidIvLength) else
    if |ct.value| == 0 || |ct.value| % BLOCK != 0 then DecryptionError(InvalidCiphertextLength) else
    var plain := Unpad(CbcDecrypt(c, key.value, iv.value, ct.value));
    if plain.None? then DecryptionError(DecryptionFailed) else
    var text := utf8(plain.value);
    if text.None? then DecryptionError(DecryptionFailed) else Text(text.value)
  }

  /** Decryption undoes encryption: every text, the empty one included, comes back under every key of a
      valid length and every 16-byte initialisation vector. */
  lemma DecryptionUndoesEncryption(c: BlockCipher, b64: Decoder, utf8: TextDecoder,
                                   key: seq<Byte>, iv: seq<Byte>, plain: seq<Byte>, text: string)
    requires Permutes(c) && ReadsBase64(b64) && utf8(plain) == Some(text)
    requires (|key| == 16 || |key| == 24 || |key| == 32) && |iv| == 16
    ensures Decrypt(c, b64, utf8, Encode(iv), Encode(CbcEncrypt(c, key, iv, Pad(plain))), ToHex(key)) == Text(text)
  {
    hide FromHex, ToHex, Encode, IsAscii, CbcDecrypt, CbcEncrypt, Unpad;
    var ct := CbcEncrypt(c, key, iv, Pad(plain));
    HexRoundTrip(key);
    EncodeIsAscii(iv);
    EncodeIsAscii(ct);
    DecryptEncrypt(c, key, iv, Pad(plain));
    UnpadPad(plain);
  }

  /** The inputs decode to a key of a valid length, a 16-byte vector and the encryption under them of bytes
      that read as `text`. */
  ghost predicate IsEncryptionOf(c: BlockCipher, b64: Decoder, utf8: TextDecoder,
                                 ivB64: string, ctB64: string, secretHex: string, text: string)
    requires Permutes(c)
  {
    exists key, iv, plain ::
      && FromHex(secretHex) == Some(key) && (|key| == 16 || |key| == 24 || |key| == 32)
      && IsAscii(ivB64) && b64(ivB64) == Some(iv) && |iv| == 16
      && IsAscii(ctB64) && b64(ctB64) == Some(CbcEncrypt(c, key, iv, Pad(plain)))
      && utf8(plain) == Some(text)
  }

  /** The guards, in their order: which inputs end with which error before anything is decrypted. */
  lemma GuardsDecide(c: BlockCipher, b64: Decoder, utf8: TextDecoder, ivB64: string, ctB64: string, secretHex: string)
    requires Permutes(c)
    ensures var result := Decrypt(c, b64, utf8, ivB64, ctB64, secretHex);
            var (key, iv, ct) := (FromHex(secretHex), b64(ivB64), b64(ctB64));
            var ivBad := !IsAscii(ivB64) || iv.None?;
            var ctBad := !IsAscii(ctB64) || ct.None?;
            var read := key.Some? && !ivBad && !ctBad;
            && (result == DecryptionError(InvalidHexKey) <==> key.None?)
            && (result == DecryptionError(InvalidBase64) <==>
                  key.Some? && ((ivBad && IsAscii(ivB64)) || (!ivBad && ctBad && IsAscii(ctB64))))
            && (result == DecryptionError(InvalidKeyLength) <==>
                  read && |key.value| != 16 && |key.value| != 24 && |key.value| != 32)
            && (result == DecryptionError(InvalidIvLength) <==>
                  read && (|key.value| == 16 || |key.value| == 24 || |key.value| == 32) && |iv.value| != 16)
            && (result == DecryptionError(InvalidCiphertextLength) <==>
                  && read && (|key.value| == 16 || |key.value| == 24 || |key.value| == 32) && |iv.value| == 16
                  && (ct.value == [] || |ct.value| % 16 != 0))
  {
    hide FromHex, IsAscii, CbcDecrypt, Unpad;
  }

  lemma TextIsEncryption(c: BlockCipher, b64: Decoder, utf8: TextDecoder,
                         ivB64: string, ctB64: string, secretHex: string, text: string)
    requires Permutes(c) && Decrypt(c, b64, utf8, ivB64, ctB64, secretHex) == Text(text)
    ensures IsEncryptionOf(c, b64, utf8, ivB64, ctB64, secretHex, text)
  {
    hide FromHex, IsAscii, CbcDecrypt, CbcEncrypt, Pad, Unpad;
    var (key, iv, ct) := (FromHex(secretHex).value, b64(ivB64).value, b64(ctB64).value);
    var padded := CbcDecrypt(c, key, iv, ct);
    EncryptDecrypt(c, key, iv, ct);
    PadUnpad(padded);
    var plain := Unpad(padded).value;
    assert CbcEncrypt(c, key, iv, Pad(plain)) == ct && utf8(plain) == Some(text);
  }

  lemma EncryptionIsText(c: BlockCipher, b64: Decoder, utf8: TextDecoder,
                         ivB64: string, ctB64: string, secretHex: string, text: string)
    requires Permutes(c) && IsEncryptionOf(c, b64, utf8, ivB64, ctB64, secretHex, text)
    ensures Decrypt(c, b64, utf8, ivB64, ctB64, secretHex) == Text(text)
  {
    hide FromHex, IsAscii, CbcDecrypt, CbcEncrypt, Pad, Unpad;
    var key, iv, plain :|
      && FromHex(secretHex) == Some(key) && (|key| == 16 || |key| == 24 || |key| == 32)
      && IsAscii(ivB64) && b64(ivB64) == Some(iv) && |iv| == 16
      && IsAscii(ctB64) && b64(ctB64) == Some(CbcEncrypt(c, key, iv, Pad(plain)))
      && utf8(plain) == Some(text);
    DecryptEncrypt(c, key, iv, Pad(plain));
    UnpadPad(plain);
  }

  /** `decrypt_grummer` returns a text exactly for the encryptions of that text, whatever strings the base64
      decoder accepts; everything else is an error. */
  lemma DecryptsExactlyEncryptions(c: BlockCipher, b64: Decoder, utf8: TextDecoder,
                                   ivB64: string, ctB64: string, secretHex: string, text: string)
    requires Permutes(c)
    ensures Decrypt(c, b64, utf8, ivB64, ctB64, secretHex) == Text(text) <==>
            IsEncryptionOf(c, b64, utf8, ivB64, ctB64, secretHex, text)
  {
    hide Decrypt, IsEncryptionOf;
    if Decrypt(c, b64, utf8, ivB64, ctB64, secretHex) == Text(text) {
      TextIsEncryption(c, b64, utf8, ivB64, ctB64, secretHex, text);
    }
    if IsEncryptionOf(c, b64, utf8, ivB64, ctB64, secretHex, text) {
      EncryptionIsText(c, b64, utf8, ivB64, ctB64, secretHex, text);
    }
  }
}
