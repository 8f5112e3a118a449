/** GitHub's `X-Hub-Signature-256` check (HMAC of RFC 2104 over the SHA-256 of
    FIPS 180-4) as `verify_signature` makes it, and the status branch of the
    `/webhook` route. The hex HMAC itself is a parameter: `hmacHex(key, message)`. */
module Webhooks {
  import opened Wrappers
  import opened Http

  newtype byte = b: int | 0 <= b < 256

  /** What `verify_signature` does: return `(validation_message, status)`, where
      `message` is `None` only on success, or raise the `TypeError` with which
      `hmac.compare_digest` refuses a `str` holding a non-ASCII character. */
  datatype Verdict = Verdict(message: Option<string>, status: int) | CompareRaised

  const SignaturePrefix := "sha256="
  const MissingHeaderText := "x-hub-signature-256 header is missing!"
  const MismatchText := "Request signatures didn't match!"
  const WebhookReceivedText := "Webhook received"

  /** `"sha256=" + hmac.new(secret, body, sha256).hexdigest()` */
  function ExpectedSignature(hmacHex: (string, seq<byte>) -> string, secret: string, body: seq<byte>): (s: string)
    ensures |s| == |SignaturePrefix| + |hmacHex(secret, body)|
    ensures s[..|SignaturePrefix|] == SignaturePrefix && s[|SignaturePrefix|..] == hmacHex(secret, body)
  {
    SignaturePrefix + hmacHex(secret, body)
  }

  /** Every character is ASCII, as `hmac.compare_digest` demands of `str` arguments. */
  predicate Ascii(s: string)
  {
    forall i :: 0 <= i < |s| ==> s[i] as int < 128
  }

  /** What `hexdigest()` returns: lower-case hexadecimal digits only. */
  predicate LowerHex(s: string)
  {
    forall i :: 0 <= i < |s| ==> s[i] in "0123456789abcdef"
  }

  /** A hex digest is ASCII, and so is the signature built from it. */
  lemma {:induction false} HexSignatureIsAscii(hmacHex: (string, seq<byte>) -> string, secret: string, body: seq<byte>)
    requires LowerHex(hmacHex(secret, body))
    ensures Ascii(ExpectedSignature(hmacHex, secret, body))
  {
    var digest, sig := hmacHex(secret, body), ExpectedSignature(hmacHex, secret, body);
    forall i | 0 <= i < |sig| ensures sig[i] as int < 128 {
      if i < |SignaturePrefix| {
        assert sig[i] == sig[..|SignaturePrefix|][i] == SignaturePrefix[i];
      } else {
        assert sig[i] == sig[|SignaturePrefix|..][i - |SignaturePrefix|] == digest[i - |SignaturePrefix|];
      }
    }
  }

  /** `verify_signature`: an absent or empty header is refused first; otherwise
      `compare_digest` raises when either signature holds a non-ASCII
      character, and else the header must equal the expected signature. The
      constant-time comparison is string equality here. */
  function VerifySignature(body: seq<byte>, secret: string, header: Option<string>,
                           hmacHex: (string, seq<byte>) -> string): (v: Verdict)
    ensures v.CompareRaised? <==>
      Truthy(header) && !(Ascii(header.value) && Ascii(ExpectedSignature(hmacHex, secret, body)))
    ensures v.Verdict? ==> v.status == 200 || v.status == 403
    ensures v.Verdict? ==> (v.message.None? <==> v.status == 200)
    ensures v == Verdict(None, 200) <==>
      header == Some(ExpectedSignature(hmacHex, secret, body)) && Ascii(ExpectedSignature(hmacHex, secret, body))
  {
    var expected := ExpectedSignature(hmacHex, secret, body);
    if !Truthy(header) then Verdict(Some(MissingHeaderText), 403)
    else if !Ascii(expected) || !Ascii(header.value) then CompareRaised
    else if expected != header.value then Verdict(Some(MismatchText), 403)
    else Verdict(None, 200)
  }

  /** A missing or empty header is refused whatever the body and secret. */
  lemma MissingHeaderRefused(body: seq<byte>, secret: string, header: Option<string>,
                             hmacHex: (string, seq<byte>) -> string)
    requires header == None || header == Some("")
    ensures VerifySignature(body, secret, header, hmacHex) == Verdict(Some(MissingHeaderText), 403)
  {
  }

  /** The signature GitHub computes is accepted. */
  lemma GenuineSignatureAccepted(body: seq<byte>, secret: string, hmacHex: (string, seq<byte>) -> string)
    requires LowerHex(hmacHex(secret, body))
    ensures VerifySignature(body, secret, Some(ExpectedSignature(hmacHex, secret, body)), hmacHex) == Verdict(None, 200)
  {
    HexSignatureIsAscii(hmacHex, secret, body);
  }

  /** Any other non-empty ASCII header is refused with the mismatch message. */
  lemma OtherHeaderRefused(body: seq<byte>, secret: string, header: string,
                           hmacHex: (string, seq<byte>) -> string)
    requires LowerHex(hmacHex(secret, body))
    requires header != "" && Ascii(header) && header != ExpectedSignature(hmacHex, secret, body)
    ensures VerifySignature(body, secret, Some(header), hmacHex) == Verdict(Some(MismatchText), 403)
  {
    HexSignatureIsAscii(hmacHex, secret, body);
  }

  /** A header holding a non-ASCII character makes `compare_digest` raise. */
  lemma NonAsciiHeaderRaises(body: seq<byte>, secret: string, header: string, i: nat,
                             hmacHex: (string, seq<byte>) -> string)
    requires i < |header| && header[i] as int >= 128
    ensures VerifySignature(body, secret, Some(header), hmacHex) == CompareRaised
  {
  }

  /** The expected signature is the prefix followed by the digest, so it
      determines the digest. */
  lemma {:induction false} SignatureDeterminesDigest(hmacHex: (string, seq<byte>) -> string,
                                                     secret1: string, body1: seq<byte>,
                                                     secret2: string, body2: seq<byte>)
    requires ExpectedSignature(hmacHex, secret1, body1) == ExpectedSignature(hmacHex, secret2, body2)
    ensures hmacHex(secret1, body1) == hmacHex(secret2, body2)
  {
    var s1, s2 := ExpectedSignature(hmacHex, secret1, body1), ExpectedSignature(hmacHex, secret2, body2);
    assert s1[|SignaturePrefix|..] == hmacHex(secret1, body1);
    assert s2[|SignaturePrefix|..] == hmacHex(secret2, body2);
  }

  /** A signature made for one body (or secret) is refused for another whose
      digest differs. */
  lemma TamperedMessageRefused(hmacHex: (string, seq<byte>) -> string, secret: string, body: seq<byte>,
                               secret': string, body': seq<byte>)
    requires LowerHex(hmacHex(secret, body)) && LowerHex(hmacHex(secret', body'))
    requires hmacHex(secret', body') != hmacHex(secret, body)
    ensures VerifySignature(body', secret', Some(ExpectedSignature(hmacHex, secret, body)), hmacHex)
         == Verdict(Some(MismatchText), 403)
  {
    HexSignatureIsAscii(hmacHex, secret, body);
    HexSignatureIsAscii(hmacHex, secret', body');
    if ExpectedSignature(hmacHex, secret, body) == ExpectedSignature(hmacHex, secret', body') {
      SignatureDeterminesDigest(hmacHex, secret, body, secret', body');
    }
  }

  /** The verdict depends on nothing but the header and the digest of
      `(secret, body)`: two hash functions that agree there give one verdict. */
  lemma VerdictDependsOnDigestOnly(header: Option<string>,
                                   hmac1: (string, seq<byte>) -> string, secret1: string, body1: seq<byte>,
                                   hmac2: (string, seq<byte>) -> string, secret2: string, body2: seq<byte>)
    requires hmac1(secret1, body1) == hmac2(secret2, body2)
    ensures VerifySignature(body1, secret1, header, hmac1) == VerifySignature(body2, secret2, header, hmac2)
  {
  }

  /** aiohttp's answer to a handler that raised. */
  const ServerErrorText := "500 Internal Server Error\n\nServer got itself in trouble"

  /** The status branch of the `/webhook` route: a non-200 verdict is answered
      with its message and status; a 200 verdict with "Webhook received"; a
      raise inside `verify_signature` escapes the handler and aiohttp answers 500. */
  function WebhookReply(body: seq<byte>, secret: string, header: Option<string>,
                        hmacHex: (string, seq<byte>) -> string): (r: Reply)
    ensures r.status == 200 <==>
      header == Some(ExpectedSignature(hmacHex, secret, body)) && Ascii(ExpectedSignature(hmacHex, secret, body))
    ensures r.status == 500 <==>
      Truthy(header) && !(Ascii(header.value) && Ascii(ExpectedSignature(hmacHex, secret, body)))
    ensures r.status == 200 || r.status == 403 || r.status == 500
    ensures r.status == 403 ==> r.text == MissingHeaderText || r.text == MismatchText
    ensures r.status == 403 && r.text == MissingHeaderText <==> !Truthy(header)
    ensures r.status == 200 ==> r.text == WebhookReceivedText
  {
    match VerifySignature(body, secret, header, hmacHex)
    case CompareRaised => Reply(ServerErrorText, 500)
    case Verdict(message, status) =>
      if status != 200 then Reply(message.value, status) else Reply(WebhookReceivedText, 200)
  }
}
