/** Payload encryption: AES-128 as an unknown block bijection, in CBC mode with the key as the
    initialisation vector, over PKCS#7 padding. */
module Cipher {
  import opened Bytes

  const BLOCK := 16

  /** A block cipher, key first. Only what `Lawful` says about it is ever used. */
  datatype BlockCipher = BlockCipher(
    encrypt: (seq<Byte>, seq<Byte>) -> seq<Byte>,
    decrypt: (seq<Byte>, seq<Byte>) -> seq<Byte>)
  {
    /** Under every key, `encrypt` and `decrypt` are mutually inverse maps of blocks. */
    ghost predicate Lawful() {
      && (forall key, block :: |key| == BLOCK && |block| == BLOCK ==> |encrypt(key, block)| == BLOCK)
      && (forall key, block :: |key| == BLOCK && |block| == BLOCK ==> |decrypt(key, block)| == BLOCK)
      && (forall key, block {:trigger decrypt(key, encrypt(key, block))} ::
            |key| == BLOCK && |block| == BLOCK ==> decrypt(key, encrypt(key, block)) == block)
      && (forall key, block {:trigger encrypt(key, decrypt(key, block))} ::
            |key| == BLOCK && |block| == BLOCK ==> encrypt(key, decrypt(key, block)) == block)
    }
  }

  datatype CipherError = BadKeyLength | PartialBlock | BadPadding

  // ---------------------------------------------------------------- padding

  function PadLength(n: nat): (k: nat)
    ensures 1 <= k <= BLOCK && (n + k) % BLOCK == 0
  {
    BLOCK - n % BLOCK
  }

  function Pad(data: seq<Byte>): (padded: seq<Byte>)
    ensures |padded| % BLOCK == 0 && |padded| == BLOCK * (|data| / BLOCK + 1)
  {
    data + Repeat(PadLength(|data|), PadLength(|data|))
  }

  function Unpad(padded: seq<Byte>): Result<seq<Byte>, CipherError>
    requires padded != []
  {
    var n := padded[|padded| - 1];
    if 1 <= n <= BLOCK && n as nat <= |padded| && (forall i :: |padded| - n as nat <= i < |padded| ==> padded[i] == n)
    then Ok(padded[..|padded| - n as nat])
    else Err(BadPadding)
  }

  lemma UnpadPad(data: seq<Byte>)
    ensures Unpad(Pad(data)) == Ok(data)
  {
    var padded := Pad(data);
    assert padded[|padded| - 1] == PadLength(|data|);
  }

  /** Whatever unpads is the padding of what it unpads to. */
  lemma PadUnpad(padded: seq<Byte>)
    requires padded != [] && |padded| % BLOCK == 0 && Unpad(padded).Ok?
    ensures Pad(Unpad(padded).value) == padded
  {
    var n := padded[|padded| - 1] as nat;
    var data := padded[..|padded| - n];
    assert |padded| - n == |data|;
    assert PadLength(|data|) == n;
  }

  // ---------------------------------------------------------------- cipher block chaining

  function CbcEncrypt(c: BlockCipher, key: seq<Byte>, iv: seq<Byte>, plain: seq<Byte>): (out: seq<Byte>)
    requires c.Lawful() && |key| == |iv| == BLOCK && |plain| % BLOCK == 0
    ensures |out| == |plain|
    decreases |plain|
  {
    if plain == [] then []
    else
      var first := c.encrypt(key, Xor(plain[..BLOCK], iv));
      first + CbcEncrypt(c, key, first, plain[BLOCK..])
  }

  function CbcDecrypt(c: BlockCipher, key: seq<Byte>, iv: seq<Byte>, coded: seq<Byte>): (out: seq<Byte>)
    requires c.Lawful() && |key| == |iv| == BLOCK && |coded| % BLOCK == 0
    ensures |out| == |coded|
    decreases |coded|
  {
    if coded == [] then []
    else
      Xor(c.decrypt(key, coded[..BLOCK]), iv) + CbcDecrypt(c, key, coded[..BLOCK], coded[BLOCK..])
  }

  function Block(s: seq<Byte>, j: nat): (b: seq<Byte>)
    requires BLOCK * (j + 1) <= |s|
    ensures |b| == BLOCK
  {
    s[BLOCK * j..BLOCK * (j + 1)]
  }

  /** Section 6.2 of NIST SP 800-38A: each output block encrypts its input block xored with the output
      block before it, or with the initialisation vector. */
  lemma {:induction false} CbcBlocks(c: BlockCipher, key: seq<Byte>, iv: seq<Byte>, plain: seq<Byte>, j: nat)
    requires c.Lawful() && |key| == |iv| == BLOCK && |plain| % BLOCK == 0
    requires BLOCK * (j + 1) <= |plain|
    ensures var out := CbcEncrypt(c, key, iv, plain);
            Block(out, j) == c.encrypt(key, Xor(Block(plain, j), if j == 0 then iv else Block(out, j - 1)))
    decreases j
  {
    var first := c.encrypt(key, Xor(plain[..BLOCK], iv));
    var rest := CbcEncrypt(c, key, first, plain[BLOCK..]);
    if j > 0 {
      CbcBlocks(c, key, first, plain[BLOCK..], j - 1);
      BlockOfTail(first, rest, j);
      BlockOfTail(plain[..BLOCK], plain[BLOCK..], j);
      assert plain == plain[..BLOCK] + plain[BLOCK..];
      if j > 1 {
        BlockOfTail(first, rest, j - 1);
      }
    }
  }

  lemma BlockOfTail(first: seq<Byte>, rest: seq<Byte>, j: nat)
    requires |first| == BLOCK && 0 < j && BLOCK * (j + 1) <= |first + rest|
    ensures Block(first + rest, j) == Block(rest, j - 1)
  {
  }

  lemma {:induction false} CbcDecryptEncrypt(c: BlockCipher, key: seq<Byte>, iv: seq<Byte>, plain: seq<Byte>)
    requires c.Lawful() && |key| == |iv| == BLOCK && |plain| % BLOCK == 0
    ensures CbcDecrypt(c, key, iv, CbcEncrypt(c, key, iv, plain)) == plain
    decreases |plain|
  {
    if plain != [] {
      var mixed := Xor(plain[..BLOCK], iv);
      var first := c.encrypt(key, mixed);
      var rest := CbcEncrypt(c, key, first, plain[BLOCK..]);
      CbcDecryptEncrypt(c, key, first, plain[BLOCK..]);
      XorTwice(plain[..BLOCK], iv);
      assert (first + rest)[..BLOCK] == first && (first + rest)[BLOCK..] == rest;
    }
  }

  lemma {:induction false} CbcEncryptDecrypt(c: BlockCipher, key: seq<Byte>, iv: seq<Byte>, coded: seq<Byte>)
    requires c.Lawful() && |key| == |iv| == BLOCK && |coded| % BLOCK == 0
    ensures CbcEncrypt(c, key, iv, CbcDecrypt(c, key, iv, coded)) == coded
    decreases |coded|
  {
    if coded != [] {
      var head := coded[..BLOCK];
      var first := Xor(c.decrypt(key, head), iv);
      var rest := CbcDecrypt(c, key, head, coded[BLOCK..]);
      CbcEncryptDecrypt(c, key, head, coded[BLOCK..]);
      XorTwice(c.decrypt(key, head), iv);
      assert (first + rest)[..BLOCK] == first && (first + rest)[BLOCK..] == rest;
    }
  }

  // ---------------------------------------------------------------- payloads

  function Encrypt(c: BlockCipher, key: seq<Byte>, plain: seq<Byte>): (r: Result<seq<Byte>, CipherError>)
    requires c.Lawful()
    ensures r.Ok? <==> |key| == BLOCK
    ensures r.Ok? ==> |r.value| == BLOCK * (|plain| / BLOCK + 1)
  {
    if |key| != BLOCK then Err(BadKeyLength) else Ok(CbcEncrypt(c, key, key, Pad(plain)))
  }

  function Decrypt(c: BlockCipher, key: seq<Byte>, coded: seq<Byte>): Result<seq<Byte>, CipherError>
    requires c.Lawful()
  {
    if coded == [] || |coded| % BLOCK != 0 then Err(PartialBlock)
    else if |key| != BLOCK then Err(BadKeyLength)
    else Unpad(CbcDecrypt(c, key, key, coded))
  }

  lemma DecryptEncrypt(c: BlockCipher, key: seq<Byte>, plain: seq<Byte>)
    requires c.Lawful() && |key| == BLOCK
    ensures Decrypt(c, key, Encrypt(c, key, plain).value) == Ok(plain)
  {
    CbcDecryptEncrypt(c, key, key, Pad(plain));
    UnpadPad(plain);
  }

  /** Everything `Decrypt` accepts is the encryption of what it decrypts to. */
  lemma EncryptDecrypt(c: BlockCipher, key: seq<Byte>, coded: seq<Byte>)
    requires c.Lawful() && Decrypt(c, key, coded).Ok?
    ensures Encrypt(c, key, Decrypt(c, key, coded).value) == Ok(coded)
  {
    CbcEncryptDecrypt(c, key, key, coded);
    PadUnpad(CbcDecrypt(c, key, key, coded));
  }
  /** What is encrypted: the text, filled up with as many bytes as it takes to a whole block, at least one, each of
      which says how many they are (section 6.3 of RFC 5652). */
  lemma PaddedBytes(plain: seq<Byte>, i: nat)
    requires i < 16 * (|plain| / 16 + 1)
    ensures |Pad(plain)| == 16 * (|plain| / 16 + 1)
    ensures Pad(plain)[i] == if i < |plain| then plain[i] else 16 - |plain| % 16
  {
  }

  /** An encrypted payload, block by block: chained, with the key itself before the first block. */
  lemma EncryptedBlocks(c: BlockCipher, key: seq<Byte>, plain: seq<Byte>, j: nat)
    requires c.Lawful() && Encrypt(c, key, plain).Ok? && j <= |plain| / 16
    ensures var out := Encrypt(c, key, plain).value;
            && |key| == 16 && |out| == 16 * (|plain| / 16 + 1)
            && out[16 * j..16 * j + 16]
            == c.encrypt(key, Xor(Pad(plain)[16 * j..16 * j + 16], if j == 0 then key else out[16 * j - 16..16 * j]))
  {
    CbcBlocks(c, key, key, Pad(plain), j);
  }

  /** What is refused: no whole blocks, a key of another length, or a last byte that is not the number of such bytes
      at the end. */
  lemma DecryptRefuses(c: BlockCipher, key: seq<Byte>, coded: seq<Byte>)
    requires c.Lawful()
    ensures var r := Decrypt(c, key, coded);
            && (r == Err(PartialBlock) <==> coded == [] || |coded| % 16 != 0)
            && (r == Err(BadKeyLength) <==> coded != [] && |coded| % 16 == 0 && |key| != 16)
            && (r.Ok? <==> exists plain :: Encrypt(c, key, plain) == Ok(coded))
  {
    if Decrypt(c, key, coded).Ok? {
      EncryptDecrypt(c, key, coded);
    }
    if plain :| Encrypt(c, key, plain) == Ok(coded) {
      DecryptEncrypt(c, key, plain);
    }
  }
}
