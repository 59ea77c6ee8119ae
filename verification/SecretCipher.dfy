/** How a two-factor secret is stored: sealed with a fresh nonce in front, then made text. */
module SecretCipher {
  import opened Wrappers
  import opened Base64

  const NONCE_SIZE := 12
  const OVERHEAD := 16
  /** The width of the column the text goes into. */
  const COLUMN_WIDTH := 512

  /** The sealing algorithm under one key, known only by its laws: sealing adds a tag, opening
      undoes it, and nothing opens but what was sealed. */
  datatype Aead = Aead(seal: (seq<Byte>, seq<Byte>) -> seq<Byte>, open: (seq<Byte>, seq<Byte>) -> Option<seq<Byte>>)
  {
    ghost predicate Lawful() {
      && (forall nonce, plain | |nonce| == NONCE_SIZE :: |seal(nonce, plain)| == |plain| + OVERHEAD)
      && (forall nonce, plain | |nonce| == NONCE_SIZE :: open(nonce, seal(nonce, plain)) == Some(plain))
      && (forall nonce, sealed | |nonce| == NONCE_SIZE && open(nonce, sealed).Some? ::
         sealed == seal(nonce, open(nonce, sealed).value))
    }
  }

  datatype CipherError = NoNonce | NotBase64 | Malformed | NotAuthentic

  /** `nonce` is what the random source gave, if it gave enough. */
  function Encrypt(aead: Aead, nonce: Option<seq<Byte>>, plain: seq<Byte>): Result<string, CipherError> {
    match nonce
    case None => Err(NoNonce)
    case Some(n) => Ok(Encode(n + aead.seal(n, plain)))
  }

  function Decrypt(aead: Aead, stored: string): Result<seq<Byte>, CipherError> {
    match Decode(stored)
    case None => Err(NotBase64)
    case Some(payload) =>
      if |payload| < NONCE_SIZE + OVERHEAD then Err(Malformed)
      else
        match aead.open(payload[..NONCE_SIZE], payload[NONCE_SIZE..])
        case None => Err(NotAuthentic)
        case Some(plain) => Ok(plain)
  }

  /** Decrypting gives back what was encrypted. */
  lemma RoundTrip(aead: Aead, nonce: seq<Byte>, plain: seq<Byte>)
    requires aead.Lawful() && |nonce| == NONCE_SIZE
    ensures Encrypt(aead, Some(nonce), plain).Ok?
    ensures Decrypt(aead, Encrypt(aead, Some(nonce), plain).value) == Ok(plain)
  {
    var payload := nonce + aead.seal(nonce, plain);
    assert payload[..NONCE_SIZE] == nonce && payload[NONCE_SIZE..] == aead.seal(nonce, plain);
    EncodedIsUnbroken(payload);
    Base64.RoundTrip(payload, Encode(payload));
  }

  /** Nothing else decrypts: a text that gives `plain` is an encryption of it under some nonce,
      up to the way the text is written. */
  lemma OnlyEncryptionsDecrypt(aead: Aead, stored: string, plain: seq<Byte>)
    requires aead.Lawful()
    ensures Decrypt(aead, stored) == Ok(plain)
            <==> exists nonce :: |nonce| == NONCE_SIZE && Decode(stored) == Some(nonce + aead.seal(nonce, plain))
  {
    if Decrypt(aead, stored) == Ok(plain) {
      var payload := Decode(stored).value;
      assert payload == payload[..NONCE_SIZE] + payload[NONCE_SIZE..];
      assert |payload[..NONCE_SIZE]| == NONCE_SIZE;
    }
    if nonce :| |nonce| == NONCE_SIZE && Decode(stored) == Some(nonce + aead.seal(nonce, plain)) {
      var payload := nonce + aead.seal(nonce, plain);
      assert payload[..NONCE_SIZE] == nonce && payload[NONCE_SIZE..] == aead.seal(nonce, plain);
    }
  }

  /** How long the stored text is, and that it fits its column for secrets of up to 356 bytes and
      for no longer ones. */
  lemma StoredLength(aead: Aead, nonce: seq<Byte>, plain: seq<Byte>)
    requires aead.Lawful() && |nonce| == NONCE_SIZE
    ensures var stored := Encrypt(aead, Some(nonce), plain).value;
            && |stored| == 4 * ((28 + |plain| + 2) / 3)
            && (|stored| <= COLUMN_WIDTH <==> |plain| <= 356)
  {
    hide Encode;
    EncodedSymbols(nonce + aead.seal(nonce, plain));
    FitsColumn(|plain|);
  }

  lemma FitsColumn(n: nat)
    ensures (28 + n + 2) / 3 * 4 <= COLUMN_WIDTH <==> n <= 356
  {
  }
}
