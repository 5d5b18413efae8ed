/**
 Chunk encryption over an ideal AEAD. AES-GCM (sections 7.1 and 7.2 of NIST SP 800-38D) is taken as a key that
 remembers everything sealed under it: opening succeeds exactly on an (iv, additional data, ciphertext) that was
 sealed, and a ciphertext is 16 bytes longer than its plaintext. No additional data is the empty string.
 */
module Aead {
  import opened Bytes
  import opened FileFormat

  datatype Sealed = Sealed(iv: seq<Byte>, aad: seq<Byte>, ciphertext: seq<Byte>)

  datatype AeadKey = AeadKey(log: map<Sealed, seq<Byte>>) {

    ghost predicate Valid() {
      forall s :: s in log ==> |s.iv| == FILE_IV_LENGTH && |s.ciphertext| == |log[s]| + FILE_GCM_TAG_LENGTH
    }

    /** No chunk was sealed under this iv yet, which is what drawing it at random is for. */
    ghost predicate Unused(iv: seq<Byte>) {
      forall s :: s in log ==> s.iv != iv
    }

    function Seal(iv: seq<Byte>, aad: seq<Byte>, plaintext: seq<Byte>, ciphertext: seq<Byte>): AeadKey {
      AeadKey(log[Sealed(iv, aad, ciphertext) := plaintext])
    }
  }

  datatype OpenResult = Opened(plaintext: seq<Byte>) | AuthenticationFailure | ChunkTooSmall

  /** CryptoService.decryptChunk on the frame [iv][ciphertext and tag]. */
  function DecryptChunk(key: AeadKey, frame: seq<Byte>, aad: seq<Byte>): OpenResult {
    if |frame| <= FILE_IV_LENGTH + 16 then ChunkTooSmall
    else
      var s := Sealed(frame[..FILE_IV_LENGTH], aad, frame[FILE_IV_LENGTH..]);
      if s in key.log then Opened(key.log[s]) else AuthenticationFailure
  }

  /** CryptoService.encryptChunk: `iv` is the random draw, `ciphertext` what the cipher returned. */
  method EncryptChunk(key: AeadKey, chunk: seq<Byte>, aad: seq<Byte>, iv: seq<Byte>, ciphertext: seq<Byte>)
    returns (result: array<Byte>, key': AeadKey)
    requires key.Valid() && |iv| == FILE_IV_LENGTH && key.Unused(iv)
    requires |ciphertext| == |chunk| + FILE_GCM_TAG_LENGTH
    ensures fresh(result) && result[..] == iv + ciphertext
    ensures key' == key.Seal(iv, aad, chunk, ciphertext) && key'.Valid()
  {
    result := new Byte[FILE_IV_LENGTH + |ciphertext|](_ => 0);
    forall k | 0 <= k < |iv| {
      result[k] := iv[k];
    }
    forall k | 0 <= k < |ciphertext| {
      result[FILE_IV_LENGTH + k] := ciphertext[k];
    }
    key' := key.Seal(iv, aad, chunk, ciphertext);
    assert result[..FILE_IV_LENGTH] == iv && result[FILE_IV_LENGTH..] == ciphertext;
    assert result[..] == iv + ciphertext;
  }

  /**
   A sealed chunk opens again under its own additional data and under no other. Only an empty chunk, which no
   upload contains, is refused as too small.
   */
  lemma SealThenOpen(key: AeadKey, chunk: seq<Byte>, aad: seq<Byte>, other: seq<Byte>, iv: seq<Byte>, ciphertext: seq<Byte>)
    requires key.Valid() && |iv| == FILE_IV_LENGTH && key.Unused(iv)
    requires |ciphertext| == |chunk| + FILE_GCM_TAG_LENGTH
    ensures DecryptChunk(key.Seal(iv, aad, chunk, ciphertext), iv + ciphertext, other)
            == if |chunk| == 0 then ChunkTooSmall
               else if other == aad then Opened(chunk)
               else AuthenticationFailure
  {
    assert (iv + ciphertext)[..FILE_IV_LENGTH] == iv;
    assert (iv + ciphertext)[FILE_IV_LENGTH..] == ciphertext;
  }

  /** A chunk that opens has lost exactly its iv and tag. */
  lemma OpenedLength(key: AeadKey, frame: seq<Byte>, aad: seq<Byte>)
    requires key.Valid()
    ensures var r := DecryptChunk(key, frame, aad);
            r.Opened? ==> |frame| == |r.plaintext| + FILE_ENCRYPTION_OVERHEAD && |r.plaintext| > 0
  {
  }
}
