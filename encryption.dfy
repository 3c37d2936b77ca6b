/** The at-rest encryption envelope of internal/workflow/encryption.go:
    `"ENCv1:" ++ base64(nonce ++ AES-GCM-Seal(key, nonce, plaintext))`
    with key = SHA-256(storage_secret). AES-GCM (NIST SP 800-38D),
    SHA-256 and standard base64 (section 4 of RFC 4648) are not modelled:
    they are function values in `Crypto`, and `Lawful` states the only facts
    the envelope relies on. */
module Encryption {
  import opened Wrappers
  import opened Text

  newtype byte = b: int | 0 <= b < 256
  type Bytes = seq<byte>

  /** `gcm.NonceSize()` for AES-GCM with the standard nonce. */
  const NonceSize: nat := 12

  type Nonce = n: Bytes | |n| == NonceSize witness [0, 0, 0, 0, 0, 0, 0, 0, 0, 0, 0, 0]

  /** The ASCII bytes of "ENCv1:". */
  const Prefix: Bytes := [0x45, 0x4E, 0x43, 0x76, 0x31, 0x3A]

  const SecretRequired := "storage_secret required to read encrypted history"
  const Truncated := "encrypted history corrupt or truncated"
  /** The error text of Go's `gcm.Open` when authentication fails. */
  const AuthFailed := "cipher: message authentication failed"

  /** ASCII white space, as `bytes.TrimSpace` sees it. */
  predicate IsSpaceByte(b: byte) {
    b == 0x20 || (0x09 <= b <= 0x0D)
  }

  /** `bytes.TrimSpace` */
  function TrimSpaceBytes(data: Bytes): Bytes {
    TrimSpaceBy(data, IsSpaceByte)
  }

  /** The cryptographic and encoding primitives the envelope calls. */
  datatype Crypto = Crypto(
    sha256: string -> Bytes,
    seal: (Bytes, Nonce, Bytes) -> Bytes,
    open: (Bytes, Nonce, Bytes) -> Option<Bytes>,
    encode64: Bytes -> Bytes,
    decode64: Bytes -> Result<Bytes>)

  /** What the envelope needs of its primitives: AEAD Open undoes Seal under
      the same key and nonce, base64 decoding undoes encoding, and encoded
      text uses only the base64 alphabet (no white space). */
  ghost predicate Lawful(c: Crypto) {
    && (forall k, n, d :: c.open(k, n, c.seal(k, n, d)) == Some(d))
    && (forall b :: c.decode64(c.encode64(b)) == Success(b))
    && (forall b, i :: 0 <= i < |c.encode64(b)| ==> !IsSpaceByte(c.encode64(b)[i]))
  }

  /** The encryption context of one process: the primitives and the value of
      `storage_secret` ("" when unset). */
  datatype Context = Context(lib: Crypto, secret: string)

  /** `encryptionKey`: no key without a secret, else its SHA-256 digest. */
  function EncryptionKey(ctx: Context): (k: Option<Bytes>)
    ensures k.None? <==> ctx.secret == ""
  {
    if ctx.secret == "" then None else Some(ctx.lib.sha256(ctx.secret))
  }

  /** `maybeEncrypt` with the random nonce as a parameter. */
  function MaybeEncrypt(ctx: Context, nonce: Nonce, data: Bytes): (out: Bytes)
    ensures ctx.secret == "" ==> out == data
    ensures ctx.secret != "" ==> HasPrefix(out, Prefix)
  {
    match EncryptionKey(ctx)
    case None => data
    case Some(key) => Prefix + ctx.lib.encode64(nonce + ctx.lib.seal(key, nonce, data))
  }

  /** Whether the stored payload carries the envelope marker. */
  predicate Enveloped(data: Bytes) {
    HasPrefix(TrimSpaceBytes(data), Prefix)
  }

  /** `maybeDecrypt`: the error paths never carry plaintext, and input without
      the marker is returned as it was, surrounding white space included. */
  function MaybeDecrypt(ctx: Context, data: Bytes): (r: Result<Bytes>)
    ensures !Enveloped(data) ==> r == Success(data)
    ensures Enveloped(data) && ctx.secret == "" ==> r == Failure(SecretRequired)
    ensures Enveloped(data) && ctx.secret != "" ==>
      var encoded := ctx.lib.decode64(TrimSpaceBytes(data)[|Prefix|..]);
      && (encoded.Failure? ==> r == Failure(encoded.error))
      && (encoded.Success? && |encoded.value| < NonceSize ==> r == Failure(Truncated))
      && (encoded.Success? ==> r == Unseal(ctx.lib, EncryptionKey(ctx).value, encoded.value))
  {
    var trimmed := TrimSpaceBytes(data);
    if !HasPrefix(trimmed, Prefix) then Success(data)
    else
      match EncryptionKey(ctx)
      case None => Failure(SecretRequired)
      case Some(key) =>
        match ctx.lib.decode64(trimmed[|Prefix|..])
        case Failure(e) => Failure(e)
        case Success(payload) => Unseal(ctx.lib, key, payload)
  }

  /** The tail of `maybeDecrypt`: split off the nonce and open the sealed
      rest, failing on a short payload or on a failed authentication. */
  function Unseal(lib: Crypto, key: Bytes, payload: Bytes): (r: Result<Bytes>)
    ensures |payload| < NonceSize ==> r == Failure(Truncated)
    ensures |payload| >= NonceSize ==>
      var unsealed := lib.open(key, payload[..NonceSize], payload[NonceSize..]);
      && (unsealed.None? ==> r == Failure(AuthFailed))
      && (unsealed.Some? ==> r == Success(unsealed.value))
  {
    if |payload| < NonceSize then Failure(Truncated)
    else
      match lib.open(key, payload[..NonceSize], payload[NonceSize..])
      case None => Failure(AuthFailed)
      case Some(plain) => Success(plain)
  }

  /** An envelope neither starts nor ends with white space. */
  lemma EnvelopeEdges(ctx: Context, nonce: Nonce, data: Bytes)
    requires Lawful(ctx.lib) && ctx.secret != ""
    ensures var out := MaybeEncrypt(ctx, nonce, data);
      out != [] && !IsSpaceByte(out[0]) && !IsSpaceByte(out[|out| - 1])
  {
    var key := ctx.lib.sha256(ctx.secret);
    var b64 := ctx.lib.encode64(nonce + ctx.lib.seal(key, nonce, data));
    var out := Prefix + b64;
    if b64 != [] {
      assert out[|out| - 1] == b64[|b64| - 1];
    }
  }

  /** With a secret, decryption recovers the plaintext from an envelope even
      when the file has white space around it. */
  lemma DecryptEnvelopePadded(ctx: Context, nonce: Nonce, data: Bytes, w1: Bytes, w2: Bytes)
    requires Lawful(ctx.lib) && ctx.secret != ""
    requires forall i :: 0 <= i < |w1| ==> IsSpaceByte(w1[i])
    requires forall i :: 0 <= i < |w2| ==> IsSpaceByte(w2[i])
    ensures MaybeDecrypt(ctx, w1 + MaybeEncrypt(ctx, nonce, data) + w2) == Success(data)
  {
    var key := ctx.lib.sha256(ctx.secret);
    var sealed := ctx.lib.seal(key, nonce, data);
    var payload := nonce + sealed;
    var out := MaybeEncrypt(ctx, nonce, data);
    assert out == Prefix + ctx.lib.encode64(payload);
    EnvelopeEdges(ctx, nonce, data);
    TrimSpaceOfPadded(w1, out, w2, IsSpaceByte);
    assert out[|Prefix|..] == ctx.lib.encode64(payload);
    assert payload[..NonceSize] == nonce && payload[NonceSize..] == sealed;
  }

  /** `maybeDecrypt` undoes `maybeEncrypt` under the same secret. Without a
      secret this needs plaintext that does not itself look enveloped. */
  lemma DecryptEncrypt(ctx: Context, nonce: Nonce, data: Bytes)
    requires Lawful(ctx.lib)
    requires ctx.secret == "" ==> !Enveloped(data)
    ensures MaybeDecrypt(ctx, MaybeEncrypt(ctx, nonce, data)) == Success(data)
  {
    if ctx.secret != "" {
      var out := MaybeEncrypt(ctx, nonce, data);
      assert [] + out + [] == out;
      DecryptEnvelopePadded(ctx, nonce, data, [], []);
    }
  }
}
