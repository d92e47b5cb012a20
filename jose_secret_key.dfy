/** `jose_secret_key(string $secret, ?string $alg = null): JWK`: the symmetric
    key for a shared secret. Two anchored patterns over the algorithm name pick
    a derived key (key wrapping, content encryption); every other name, and no
    name at all, gives the secret itself as an `oct` key.

    The patterns are matched by hand. PCRE's `$` without the `D` modifier also
    matches just before a final line feed, so one trailing "\n" is allowed
    after an otherwise matching name. Without the `u` modifier `\d` is an ASCII
    digit. */
module SecretKey {
  import opened Bytes
  import opened Wrappers
  import Base64Url

  /** The key `jose_secret_key` returns. `Derived(secret, size)` stands for the
      key that `derived_key($secret, $size)` produces (that routine is not part
      of this model); `Direct` holds the members given to the `JWK` constructor. */
  datatype SecretJwk =
    | Derived(secret: seq<byte>, size: nat)
    | Direct(parameters: map<string, string>)

  /** What `preg_match` leaves in `$matches` past the whole match: group 1 and,
      when it took part in the match, group 2. */
  datatype Captures = Captures(group1: seq<byte>, group2: Option<seq<byte>>)

  const LF: byte := 10
  const UpperA: byte := 65
  const KW: seq<byte> := [75, 87]                 // "KW"
  const GCM: seq<byte> := [71, 67, 77]            // "GCM"
  const CBC_HS: seq<byte> := [67, 66, 67, 45, 72, 83]  // "CBC-HS"

  predicate IsDigit(b: byte) { 48 <= b <= 57 }

  /** Exactly what `\d{3}` matches. */
  predicate IsThreeDigits(s: seq<byte>)
  {
    |s| == 3 && IsDigit(s[0]) && IsDigit(s[1]) && IsDigit(s[2])
  }

  /** PHP's `(int)` cast of a string of three decimal digits. */
  function DecimalValue(digits: seq<byte>): (n: nat)
    requires IsThreeDigits(digits)
    ensures n <= 999
  {
    (digits[0] as int - 48) * 100 + (digits[1] as int - 48) * 10 + (digits[2] as int - 48)
  }

  /** The zero-padded three-digit decimal form of a number below 1000; it is
      used to state, as a round trip, that DecimalValue reads the digits. */
  function ThreeDigits(n: nat): (s: seq<byte>)
    requires n <= 999
    ensures IsThreeDigits(s)
  {
    [48 + n / 10 / 10, 48 + n / 10 % 10, 48 + n % 10]
  }

  lemma DecimalValueOfThreeDigits(n: nat)
    requires n <= 999
    ensures DecimalValue(ThreeDigits(n)) == n
  {
    var q := n / 10;
    assert n == q * 10 + n % 10;
    assert q == q / 10 * 10 + q % 10;
  }

  lemma ThreeDigitsOfDecimalValue(digits: seq<byte>)
    requires IsThreeDigits(digits)
    ensures ThreeDigits(DecimalValue(digits)) == digits
  {
  }

  /** The part of the subject that an anchored pattern ending in `$` must match
      in full: the subject without one final line feed. */
  function DollarSubject(alg: seq<byte>): (t: seq<byte>)
  {
    if |alg| > 0 && alg[|alg| - 1] == LF then alg[..|alg| - 1] else alg
  }

  /** `preg_match('/^A(\d{3})(?:GCM)?KW$/', $alg, $matches)`. */
  function MatchKeyWrap(alg: seq<byte>): (m: Option<Captures>)
    ensures m.Some? ==> IsThreeDigits(m.value.group1) && m.value.group2.None?
  {
    var t := DollarSubject(alg);
    if (|t| == 6 || (|t| == 9 && t[4..7] == GCM))
      && t[0] == UpperA && IsThreeDigits(t[1..4]) && t[|t| - 2..] == KW
    then Some(Captures(t[1..4], None))
    else None
  }

  /** `preg_match('/^A(\d{3})(?:GCM|CBC-HS(\d{3}))$/', $alg, $matches)`. */
  function MatchContentEncryption(alg: seq<byte>): (m: Option<Captures>)
    ensures m.Some? ==> IsThreeDigits(m.value.group1)
    ensures m.Some? && m.value.group2.Some? ==> IsThreeDigits(m.value.group2.value)
  {
    var t := DollarSubject(alg);
    if |t| == 7 && t[0] == UpperA && IsThreeDigits(t[1..4]) && t[4..] == GCM then
      Some(Captures(t[1..4], None))
    else if |t| == 13 && t[0] == UpperA && IsThreeDigits(t[1..4]) && t[4..10] == CBC_HS
      && IsThreeDigits(t[10..]) then
      Some(Captures(t[1..4], Some(t[10..])))
    else None
  }

  /** The members of the direct key: `k` is the unpadded base64url encoding of the secret. */
  function OctParameters(secret: seq<byte>): map<string, string>
  {
    map["k" := Base64Url.Encode(secret), "kty" := "oct"]
  }

  /** `jose_secret_key($secret, $alg)`: the first pattern that matches wins. */
  function JoseSecretKey(secret: seq<byte>, alg: Option<seq<byte>>): (r: SecretJwk)
    ensures r.Derived? ==> r.secret == secret && r.size <= 999
    ensures r.Direct? ==>
      && "kty" in r.parameters && r.parameters["kty"] == "oct"
      && "k" in r.parameters && Base64Url.Decode(r.parameters["k"]) == Some(secret)
  {
    if alg.Some? && MatchKeyWrap(alg.value).Some? then
      Derived(secret, DecimalValue(MatchKeyWrap(alg.value).value.group1))
    else if alg.Some? && MatchContentEncryption(alg.value).Some? then
      var m := MatchContentEncryption(alg.value).value;
      Derived(secret, DecimalValue(m.group2.GetOr(m.group1)))
    else
      Base64Url.DecodeEncode(secret);
      Direct(OctParameters(secret))
  }

  // ---------------------------------------------------------------------------
  // The names the two patterns accept, written out as a reference.

  /** "A" + three digits + optional "GCM" + "KW", optionally followed by one line feed. */
  function KeyWrapName(digits: seq<byte>, gcm: bool, newline: bool): seq<byte>
  {
    [UpperA] + digits + (if gcm then GCM else []) + KW + (if newline then [LF] else [])
  }

  /** "A" + three digits + "GCM", or "A" + three digits + "CBC-HS" + three digits,
      optionally followed by one line feed. */
  function ContentEncryptionName(digits: seq<byte>, hmac: Option<seq<byte>>, newline: bool): seq<byte>
  {
    [UpperA] + digits + (if hmac.None? then GCM else CBC_HS + hmac.value) + (if newline then [LF] else [])
  }

  ghost predicate IsKeyWrapName(alg: seq<byte>)
  {
    exists digits, gcm, newline :: IsThreeDigits(digits) && alg == KeyWrapName(digits, gcm, newline)
  }

  ghost predicate IsContentEncryptionName(alg: seq<byte>)
  {
    exists digits, hmac: Option<seq<byte>>, newline ::
      IsThreeDigits(digits) && (hmac.Some? ==> IsThreeDigits(hmac.value))
      && alg == ContentEncryptionName(digits, hmac, newline)
  }

  lemma DollarSubjectOfName(body: seq<byte>, newline: bool)
    requires |body| > 0 && body[|body| - 1] != LF
    ensures DollarSubject(body + (if newline then [LF] else [])) == body
  {
    if newline {
      assert (body + [LF])[..|body|] == body;
    }
  }

  /** The first matcher accepts every key-wrapping name and captures its digits. */
  lemma MatchKeyWrapComplete(digits: seq<byte>, gcm: bool, newline: bool)
    requires IsThreeDigits(digits)
    ensures MatchKeyWrap(KeyWrapName(digits, gcm, newline)) == Some(Captures(digits, None))
  {
    var body := [UpperA] + digits + (if gcm then GCM else []) + KW;
    assert KeyWrapName(digits, gcm, newline) == body + (if newline then [LF] else []);
    DollarSubjectOfName(body, newline);
    assert body[1..4] == digits;
  }

  /** The first matcher accepts nothing but key-wrapping names. */
  lemma MatchKeyWrapSound(alg: seq<byte>)
    requires MatchKeyWrap(alg).Some?
    ensures alg == KeyWrapName(MatchKeyWrap(alg).value.group1, |DollarSubject(alg)| == 9,
                               |alg| > 0 && alg[|alg| - 1] == LF)
  {
    var t := DollarSubject(alg);
    var newline := |alg| > 0 && alg[|alg| - 1] == LF;
    assert alg == t + (if newline then [LF] else []);
    if |t| == 9 {
      assert t == [UpperA] + t[1..4] + t[4..7] + t[7..];
    } else {
      assert t == [UpperA] + t[1..4] + t[4..];
    }
  }

  /** The first pattern matches exactly the key-wrapping names. */
  lemma MatchKeyWrapIff(alg: seq<byte>)
    ensures MatchKeyWrap(alg).Some? <==> IsKeyWrapName(alg)
  {
    if MatchKeyWrap(alg).Some? {
      MatchKeyWrapSound(alg);
    }
    if IsKeyWrapName(alg) {
      var digits, gcm, newline :| IsThreeDigits(digits) && alg == KeyWrapName(digits, gcm, newline);
      MatchKeyWrapComplete(digits, gcm, newline);
    }
  }

  /** The second matcher accepts every content-encryption name; group 2 is the
      HMAC digits when the name has them and is unset otherwise. */
  lemma MatchContentEncryptionComplete(digits: seq<byte>, hmac: Option<seq<byte>>, newline: bool)
    requires IsThreeDigits(digits)
    requires hmac.Some? ==> IsThreeDigits(hmac.value)
    ensures MatchContentEncryption(ContentEncryptionName(digits, hmac, newline)) == Some(Captures(digits, hmac))
  {
    var body := [UpperA] + digits + (if hmac.None? then GCM else CBC_HS + hmac.value);
    assert ContentEncryptionName(digits, hmac, newline) == body + (if newline then [LF] else []);
    DollarSubjectOfName(body, newline);
    assert body[1..4] == digits;
    if hmac.Some? {
      assert body[4..10] == CBC_HS;
      assert body[10..] == hmac.value;
    } else {
      assert body[4..] == GCM;
    }
  }

  /** The second matcher accepts nothing but content-encryption names. */
  lemma MatchContentEncryptionSound(alg: seq<byte>)
    requires MatchContentEncryption(alg).Some?
    ensures var m := MatchContentEncryption(alg).value;
      alg == ContentEncryptionName(m.group1, m.group2, |alg| > 0 && alg[|alg| - 1] == LF)
  {
    var t := DollarSubject(alg);
    var newline := |alg| > 0 && alg[|alg| - 1] == LF;
    assert alg == t + (if newline then [LF] else []);
    if |t| == 13 {
      assert t == [UpperA] + t[1..4] + (t[4..10] + t[10..]);
    } else {
      assert t == [UpperA] + t[1..4] + t[4..];
    }
  }

  /** The second pattern matches exactly the content-encryption names. */
  lemma MatchContentEncryptionIff(alg: seq<byte>)
    ensures MatchContentEncryption(alg).Some? <==> IsContentEncryptionName(alg)
  {
    if MatchContentEncryption(alg).Some? {
      MatchContentEncryptionSound(alg);
      var m := MatchContentEncryption(alg).value;
      assert IsThreeDigits(m.group1) && (m.group2.Some? ==> IsThreeDigits(m.group2.value));
    }
    if IsContentEncryptionName(alg) {
      var digits, hmac: Option<seq<byte>>, newline :| IsThreeDigits(digits) && (hmac.Some? ==> IsThreeDigits(hmac.value))
        && alg == ContentEncryptionName(digits, hmac, newline);
      MatchContentEncryptionComplete(digits, hmac, newline);
    }
  }

  /** No name matches both patterns: the matched text ends in "KW" for the first
      and in "GCM" or a digit for the second, so the first never shadows the second. */
  lemma PatternsDisjoint(alg: seq<byte>)
    ensures !(MatchKeyWrap(alg).Some? && MatchContentEncryption(alg).Some?)
    ensures !(IsKeyWrapName(alg) && IsContentEncryptionName(alg))
  {
    MatchKeyWrapIff(alg);
    MatchContentEncryptionIff(alg);
  }

  // ---------------------------------------------------------------------------
  // What jose_secret_key returns, by the shape of the algorithm name.

  /** A key-wrapping name derives a key whose size is its three digits. */
  lemma KeyWrapDerives(secret: seq<byte>, digits: seq<byte>, gcm: bool, newline: bool)
    requires IsThreeDigits(digits)
    ensures JoseSecretKey(secret, Some(KeyWrapName(digits, gcm, newline))) == Derived(secret, DecimalValue(digits))
  {
    MatchKeyWrapComplete(digits, gcm, newline);
  }

  /** An AES-GCM content-encryption name derives a key sized by its three digits. */
  lemma GcmDerives(secret: seq<byte>, digits: seq<byte>, newline: bool)
    requires IsThreeDigits(digits)
    ensures JoseSecretKey(secret, Some(ContentEncryptionName(digits, None, newline))) == Derived(secret, DecimalValue(digits))
  {
    var alg := ContentEncryptionName(digits, None, newline);
    MatchContentEncryptionComplete(digits, None, newline);
    PatternsDisjoint(alg);
  }

  /** An AES-CBC-HMAC content-encryption name derives a key sized by its second
      group of digits, the HMAC size, not by its first. */
  lemma CbcHmacDerives(secret: seq<byte>, digits: seq<byte>, hmac: seq<byte>, newline: bool)
    requires IsThreeDigits(digits) && IsThreeDigits(hmac)
    ensures JoseSecretKey(secret, Some(ContentEncryptionName(digits, Some(hmac), newline))) == Derived(secret, DecimalValue(hmac))
  {
    var alg := ContentEncryptionName(digits, Some(hmac), newline);
    MatchContentEncryptionComplete(digits, Some(hmac), newline);
    PatternsDisjoint(alg);
  }

  /** The direct `oct` key is returned exactly when there is no algorithm or it
      has neither shape; it is then `{k: base64url(secret), kty: "oct"}`. */
  lemma DirectIff(secret: seq<byte>, alg: Option<seq<byte>>)
    ensures JoseSecretKey(secret, alg).Direct? <==>
      alg.None? || (!IsKeyWrapName(alg.value) && !IsContentEncryptionName(alg.value))
    ensures JoseSecretKey(secret, alg).Direct? ==> JoseSecretKey(secret, alg).parameters == OctParameters(secret)
  {
    if alg.Some? {
      MatchKeyWrapIff(alg.value);
      MatchContentEncryptionIff(alg.value);
    }
  }

  /** Which branch is taken, and the derived size, depend on the algorithm name only. */
  lemma BranchIndependentOfSecret(secret1: seq<byte>, secret2: seq<byte>, alg: Option<seq<byte>>)
    ensures JoseSecretKey(secret1, alg).Derived? == JoseSecretKey(secret2, alg).Derived?
    ensures JoseSecretKey(secret1, alg).Derived? ==> JoseSecretKey(secret1, alg).size == JoseSecretKey(secret2, alg).size
  {
  }

  // ---------------------------------------------------------------------------
  // The JOSE algorithm names.

  lemma A128KW(secret: seq<byte>)
    ensures JoseSecretKey(secret, Some(Ascii("A128KW"))) == Derived(secret, 128)
  {
    assert Ascii("A128KW") == KeyWrapName(Ascii("128"), false, false);
    KeyWrapDerives(secret, Ascii("128"), false, false);
  }

  lemma A192KW(secret: seq<byte>)
    ensures JoseSecretKey(secret, Some(Ascii("A192KW"))) == Derived(secret, 192)
  {
    assert Ascii("A192KW") == KeyWrapName(Ascii("192"), false, false);
    KeyWrapDerives(secret, Ascii("192"), false, false);
  }

  lemma A256KW(secret: seq<byte>)
    ensures JoseSecretKey(secret, Some(Ascii("A256KW"))) == Derived(secret, 256)
  {
    assert Ascii("A256KW") == KeyWrapName(Ascii("256"), false, false);
    KeyWrapDerives(secret, Ascii("256"), false, false);
  }

  lemma A128GCMKW(secret: seq<byte>)
    ensures JoseSecretKey(secret, Some(Ascii("A128GCMKW"))) == Derived(secret, 128)
  {
    assert Ascii("A128GCMKW") == KeyWrapName(Ascii("128"), true, false);
    KeyWrapDerives(secret, Ascii("128"), true, false);
  }

  lemma A192GCMKW(secret: seq<byte>)
    ensures JoseSecretKey(secret, Some(Ascii("A192GCMKW"))) == Derived(secret, 192)
  {
    assert Ascii("A192GCMKW") == KeyWrapName(Ascii("192"), true, false);
    KeyWrapDerives(secret, Ascii("192"), true, false);
  }

  lemma A256GCMKW(secret: seq<byte>)
    ensures JoseSecretKey(secret, Some(Ascii("A256GCMKW"))) == Derived(secret, 256)
  {
    assert Ascii("A256GCMKW") == KeyWrapName(Ascii("256"), true, false);
    KeyWrapDerives(secret, Ascii("256"), true, false);
  }

  lemma A128GCM(secret: seq<byte>)
    ensures JoseSecretKey(secret, Some(Ascii("A128GCM"))) == Derived(secret, 128)
  {
    assert Ascii("A128GCM") == ContentEncryptionName(Ascii("128"), None, false);
    GcmDerives(secret, Ascii("128"), false);
  }

  lemma A192GCM(secret: seq<byte>)
    ensures JoseSecretKey(secret, Some(Ascii("A192GCM"))) == Derived(secret, 192)
  {
    assert Ascii("A192GCM") == ContentEncryptionName(Ascii("192"), None, false);
    GcmDerives(secret, Ascii("192"), false);
  }

  lemma A256GCM(secret: seq<byte>)
    ensures JoseSecretKey(secret, Some(Ascii("A256GCM"))) == Derived(secret, 256)
  {
    assert Ascii("A256GCM") == ContentEncryptionName(Ascii("256"), None, false);
    GcmDerives(secret, Ascii("256"), false);
  }

  lemma A128CBC_HS256(secret: seq<byte>)
    ensures JoseSecretKey(secret, Some(Ascii("A128CBC-HS256"))) == Derived(secret, 256)
  {
    assert Ascii("A128CBC-HS256") == ContentEncryptionName(Ascii("128"), Some(Ascii("256")), false);
    CbcHmacDerives(secret, Ascii("128"), Ascii("256"), false);
  }

  lemma A192CBC_HS384(secret: seq<byte>)
    ensures JoseSecretKey(secret, Some(Ascii("A192CBC-HS384"))) == Derived(secret, 384)
  {
    assert Ascii("A192CBC-HS384") == ContentEncryptionName(Ascii("192"), Some(Ascii("384")), false);
    CbcHmacDerives(secret, Ascii("192"), Ascii("384"), false);
  }

  lemma A256CBC_HS512(secret: seq<byte>)
    ensures JoseSecretKey(secret, Some(Ascii("A256CBC-HS512"))) == Derived(secret, 512)
  {
    assert Ascii("A256CBC-HS512") == ContentEncryptionName(Ascii("256"), Some(Ascii("512")), false);
    CbcHmacDerives(secret, Ascii("256"), Ascii("512"), false);
  }

  /** One final line feed is still accepted, as PCRE's `$` allows. */
  lemma A128KWNewline(secret: seq<byte>)
    ensures JoseSecretKey(secret, Some(Ascii("A128KW\n"))) == Derived(secret, 128)
  {
    assert Ascii("A128KW\n") == KeyWrapName(Ascii("128"), false, true);
    KeyWrapDerives(secret, Ascii("128"), false, true);
  }

  lemma A128CBC_HS256Newline(secret: seq<byte>)
    ensures JoseSecretKey(secret, Some(Ascii("A128CBC-HS256\n"))) == Derived(secret, 256)
  {
    assert Ascii("A128CBC-HS256\n") == ContentEncryptionName(Ascii("128"), Some(Ascii("256")), true);
    CbcHmacDerives(secret, Ascii("128"), Ascii("256"), true);
  }

  /** Names of neither shape, and no name, give the direct key. */
  lemma DirectNoAlgorithm(secret: seq<byte>)
    ensures JoseSecretKey(secret, None) == Direct(OctParameters(secret))
  {
  }

  lemma DirectHS256(secret: seq<byte>)
    ensures JoseSecretKey(secret, Some(Ascii("HS256"))) == Direct(OctParameters(secret))
  {
  }

  lemma DirectLeadingGarbage(secret: seq<byte>)
    ensures JoseSecretKey(secret, Some(Ascii("xA128KW"))) == Direct(OctParameters(secret))
  {
  }

  lemma DirectTrailingGarbage(secret: seq<byte>)
    ensures JoseSecretKey(secret, Some(Ascii("A128KWX"))) == Direct(OctParameters(secret))
  {
  }

  lemma DirectTwoDigits(secret: seq<byte>)
    ensures JoseSecretKey(secret, Some(Ascii("A12KW"))) == Direct(OctParameters(secret))
  {
  }

  lemma DirectTwoNewlines(secret: seq<byte>)
    ensures JoseSecretKey(secret, Some(Ascii("A128KW\n\n"))) == Direct(OctParameters(secret))
  {
    var t := DollarSubject(Ascii("A128KW\n\n"));
    assert |t| == 7 && t[4] == 75;
  }
}
