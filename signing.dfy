/**
 * The signature segment of a signed URL:
 * `strtr(base64_encode(hash_hmac('sha1', data, secret, true)), '/+', '_-')`.
 * HMAC-SHA1 itself is not modelled: it is the parameter `mac`, any function
 * that gives 20 bytes for a message and a key.
 */
module Signing {
  import opened Php
  import opened Base64

  /** A raw HMAC-SHA1 digest: 20 bytes. */
  type Digest = s: seq<byte> | |s| == 20 witness [0, 0, 0, 0, 0, 0, 0, 0, 0, 0, 0, 0, 0, 0, 0, 0, 0, 0, 0, 0]

  /** `hash_hmac('sha1', data, key, true)`, as a function of the message and the key. */
  type Mac = (string, string) -> Digest

  function SafeChar(c: char): char {
    if c == '/' then '_' else if c == '+' then '-' else c
  }

  function UnsafeChar(c: char): char {
    if c == '_' then '/' else if c == '-' then '+' else c
  }

  /** `strtr(s, '/+', '_-')`: the two base 64 characters that are special in a URL path are replaced. */
  function UrlSafe(s: string): (r: string)
    ensures |r| == |s|
    ensures forall i :: 0 <= i < |r| ==> r[i] != '/' && r[i] != '+'
    decreases |s|
  {
    if |s| == 0 then "" else [SafeChar(s[0])] + UrlSafe(s[1..])
  }

  /** The reverse replacement, `_` to `/` and `-` to `+`. */
  function UrlUnsafe(s: string): (r: string)
    ensures |r| == |s|
    decreases |s|
  {
    if |s| == 0 then "" else [UnsafeChar(s[0])] + UrlUnsafe(s[1..])
  }

  /** On base 64 text, which holds no `_` or `-`, the replacement is undone by its reverse. */
  lemma {:induction false} UrlSafeRoundTrip(s: string)
    requires forall i :: 0 <= i < |s| ==> s[i] != '_' && s[i] != '-'
    ensures UrlUnsafe(UrlSafe(s)) == s
    decreases |s|
  {
    if |s| > 0 {
      UrlSafeRoundTrip(s[1..]);
      assert UrlSafe(s)[1..] == UrlSafe(s[1..]);
      assert [s[0]] + s[1..] == s;
    }
  }

  /** `sign(data, secret)`: the URL-safe base 64 text of the HMAC of the path under the secret. */
  function Sign(mac: Mac, data: string, secret: string): (r: string)
    ensures |r| == 28
    ensures '/' !in r && '+' !in r
    ensures r[27] == '=' && r[26] != '='
  {
    var digest := mac(data, secret);
    var e := Encode(digest);
    EncodeLength(digest);
    Padding(digest);
    assert UrlSafe(e)[26] == SafeChar(e[26]) && UrlSafe(e)[27] == SafeChar(e[27]) by {
      UrlSafeAt(e, 26);
      UrlSafeAt(e, 27);
    }
    UrlSafe(e)
  }

  lemma {:induction false} UrlSafeAt(s: string, k: nat)
    requires k < |s|
    ensures UrlSafe(s)[k] == SafeChar(s[k])
    decreases |s|
  {
    if k > 0 {
      UrlSafeAt(s[1..], k - 1);
    }
  }

  /** Base 64 text holds neither of the characters the replacement writes. */
  lemma Base64Text(s: seq<byte>)
    ensures forall i :: 0 <= i < |Encode(s)| ==> Encode(s)[i] != '_' && Encode(s)[i] != '-'
  {
    EncodeChars(s);
  }

  /** Two signatures are equal exactly when the two HMAC digests are: the signature loses nothing of the digest. */
  lemma SignatureDeterminesDigest(mac: Mac, data1: string, secret1: string, data2: string, secret2: string)
    ensures Sign(mac, data1, secret1) == Sign(mac, data2, secret2) <==> mac(data1, secret1) == mac(data2, secret2)
  {
    var d1, d2 := mac(data1, secret1), mac(data2, secret2);
    var e1, e2 := Encode(d1), Encode(d2);
    if Sign(mac, data1, secret1) == Sign(mac, data2, secret2) {
      Base64Text(d1);
      Base64Text(d2);
      UrlSafeRoundTrip(e1);
      UrlSafeRoundTrip(e2);
      RoundTrip(d1);
      RoundTrip(d2);
    }
  }

  /** The signature reads back, through the reverse replacement and `base64_decode`, as the digest. */
  lemma SignatureDecodes(mac: Mac, data: string, secret: string)
    ensures Decode(UrlUnsafe(Sign(mac, data, secret))) == Some(mac(data, secret))
  {
    var d := mac(data, secret);
    Base64Text(d);
    UrlSafeRoundTrip(Encode(d));
    RoundTrip(d);
  }
}
