/**
 * The webhook signature header and the encrypted-secret envelope (src/common/utils/crypto.util.ts).
 *
 * HMAC-SHA256 is any function to 32 bytes; AES-256-GCM is any cipher whose decryption undoes its encryption.
 */
module Crypto {
  import opened Wrappers
  import opened Text
  import opened Bytes

  // ---------- the signature header ----------

  type Digest = d: seq<Byte> | |d| == 32 witness seq(32, _ => 0)

  /** HMAC-SHA256: key, UTF-8 text. */
  type Hmac = (seq<Byte>, string) -> Digest

  function PrintInt(n: int): string {
    if n < 0 then "-" + Print(-n) else Print(n)
  }

  /** The whitespace and line terminators `parseInt` skips. */
  predicate IsSpace(c: char) {
    || 9 <= c as int <= 13 || c as int in {0x20, 0xA0, 0x1680, 0x202F, 0x205F, 0x3000, 0x2028, 0x2029, 0xFEFF}
    || 0x2000 <= c as int <= 0x200A
  }

  function TrimStart(s: string): string {
    if s != "" && IsSpace(s[0]) then TrimStart(s[1..]) else s
  }

  /** The longest prefix of decimal digits. */
  function LeadingDigits(s: string): (d: string)
    ensures AllDigits(d)
  {
    if s == "" || !IsDigit(s[0]) then "" else [s[0]] + LeadingDigits(s[1..])
  }

  function Unsigned(s: string): Option<int> {
    if LeadingDigits(s) == "" then None else Some(Numeral(LeadingDigits(s)))
  }

  /** `parseInt(s, 10)`, NaN being None. */
  function ParseInt(s: string): Option<int> {
    var t := TrimStart(s);
    if t != "" && t[0] == '-' then
      match Unsigned(t[1..]) case None => None case Some(n) => Some(-n)
    else if t != "" && t[0] == '+' then Unsigned(t[1..])
    else Unsigned(t)
  }

  /** The text that is signed. */
  function SignedInput(timestamp: int, body: string): string {
    PrintInt(timestamp) + "." + body
  }

  /** `signWebhookPayload`. */
  function Sign(hmac: Hmac, secret: string, timestamp: int, body: string): string {
    "t=" + PrintInt(timestamp) + ",v1=" + ToHex(hmac(FromHex(secret), SignedInput(timestamp, body)))
  }

  /** `Object.fromEntries(parts.map(p => p.split('=')))[key]`: the last entry with the key wins. */
  function Field(parts: seq<string>, key: string): Option<string> {
    if parts == [] then None
    else
      var entry := Split(parts[|parts| - 1], "=");
      if entry[0] == key then (if |entry| > 1 then Some(entry[1]) else None)
      else Field(parts[..|parts| - 1], key)
  }

  /** `expected.split(',v1=')[1] ?? ''`. */
  function ExpectedSignature(expected: string): string {
    var parts := Split(expected, ",v1=");
    if |parts| > 1 then parts[1] else ""
  }

  function OrEmpty(s: Option<string>): string {
    match s case None => "" case Some(v) => v
  }

  function Abs(n: int): nat {
    if n < 0 then -n else n
  }

  /** `verifyWebhookSignature`; `now` is the clock in whole seconds. */
  predicate Verify(hmac: Hmac, header: string, secret: string, body: string, toleranceMs: int, now: int) {
    var parts := Split(header, ",");
    var timestamp := ParseInt(OrEmpty(Field(parts, "t")));
    var signature := OrEmpty(Field(parts, "v1"));
    if timestamp.None? || timestamp.value == 0 || signature == "" then false
    else if Abs(now - timestamp.value) * 1000 > toleranceMs then false
    else FromHex(signature) == FromHex(ExpectedSignature(Sign(hmac, secret, timestamp.value, body)))
  }

  predicate Numeric(s: string) {
    forall c | c in s :: IsDigit(c) || c == '-'
  }

  lemma PrintIntIsNumeric(n: int)
    ensures Numeric(PrintInt(n))
  {
  }

  lemma {:induction false} LeadingDigitsOfAll(s: string)
    requires AllDigits(s)
    ensures LeadingDigits(s) == s
  {
    if s != "" {
      LeadingDigitsOfAll(s[1..]);
      assert s == [s[0]] + s[1..];
    }
  }

  /** `parseInt` undoes the printing of every integer. */
  lemma ParsePrint(n: int)
    ensures ParseInt(PrintInt(n)) == Some(n)
  {
    var m := Abs(n);
    LeadingDigitsOfAll(Print(m));
    NumeralPrint(m);
    if n < 0 {
      assert PrintInt(n)[1..] == Print(m);
    }
  }

  /** The two fields of a made header come back, and so does the expected signature. */
  lemma HeaderFields(number: string, hex: string)
    requires Numeric(number) && forall c | c in hex :: HexValue(c) >= 0
    ensures var header := "t=" + number + ",v1=" + hex;
      && Field(Split(header, ","), "t") == Some(number)
      && Field(Split(header, ","), "v1") == Some(hex)
      && ExpectedSignature(header) == hex
  {
    CutHeader(number, hex);
    CutFields(number, hex);
    TwoFields("t=" + number, "v1=" + hex, "t", "v1");
  }

  lemma CutFields(number: string, hex: string)
    requires '=' !in number && '=' !in hex
    ensures Split("t=" + number, "=") == ["t", number] && Split("v1=" + hex, "=") == ["v1", hex]
  {
    CutField("t", number);
    CutField("v1", hex);
    assert "t" + "=" + number == "t=" + number;
    assert "v1" + "=" + hex == "v1=" + hex;
  }

  lemma TwoFields(first: string, second: string, k1: string, k2: string)
    requires |Split(first, "=")| == 2 == |Split(second, "=")| && Split(first, "=")[0] == k1 != k2 == Split(second, "=")[0]
    ensures Field([first, second], k1) == Some(Split(first, "=")[1])
    ensures Field([first, second], k2) == Some(Split(second, "=")[1])
  {
    assert [first, second][..1] == [first];
  }

  lemma CutHeader(number: string, hex: string)
    requires Numeric(number) && forall c | c in hex :: HexValue(c) >= 0
    ensures Split("t=" + number + ",v1=" + hex, ",") == ["t=" + number, "v1=" + hex]
    ensures Split("t=" + number + ",v1=" + hex, ",v1=") == ["t=" + number, hex]
  {
    var first, second := "t=" + number, "v1=" + hex;
    SplitFirst(first, ",", second);
    SplitWithout(second, ",");
    assert first + "," + second == "t=" + number + ",v1=" + hex;
    SplitFirst(first, ",v1=", hex);
    SplitWithout(hex, ",v1=");
  }

  lemma CutField(key: string, value: string)
    requires '=' !in key && '=' !in value
    ensures Split(key + "=" + value, "=") == [key, value]
  {
    SplitFirst(key, "=", value);
    SplitWithout(value, "=");
  }

  /**
   * The signature a receiver must present for time `t` is the HMAC of the decimal time, a full stop and the body, under
   * the secret's bytes; nothing else is accepted, and nothing outside the tolerance or at time 0.
   */
  lemma HeaderAcceptedIff(hmac: Hmac, t: int, signature: Digest, secret: string, body: string, tol: int, now: int)
    ensures Verify(hmac, "t=" + PrintInt(t) + ",v1=" + ToHex(signature), secret, body, tol, now) <==>
      (&& t != 0 && (now - t) * 1000 <= tol && (t - now) * 1000 <= tol
       && signature == hmac(FromHex(secret), PrintInt(t) + "." + body))
  {
    var expected := hmac(FromHex(secret), PrintInt(t) + "." + body);
    PrintIntIsNumeric(t);
    HexRoundTrip(signature);
    HexRoundTrip(expected);
    HeaderFields(PrintInt(t), ToHex(signature));
    HeaderFields(PrintInt(t), ToHex(expected));
    ParsePrint(t);
    assert Sign(hmac, secret, t, body) == "t=" + PrintInt(t) + ",v1=" + ToHex(expected);
  }

  /**
   * A header made for (secret, t, body) is accepted for (secret', body') exactly when t is not 0, the clock skew
   * is within tolerance, and the two HMACs agree.
   */
  lemma SignedVerifiesIff(hmac: Hmac, secret: string, secret': string, t: int, body: string, body': string, tol: int, now: int)
    ensures Verify(hmac, Sign(hmac, secret, t, body), secret', body', tol, now) <==>
      (&& t != 0 && (now - t) * 1000 <= tol && (t - now) * 1000 <= tol
       && hmac(FromHex(secret), PrintInt(t) + "." + body) == hmac(FromHex(secret'), PrintInt(t) + "." + body'))
  {
    var d, d' := hmac(FromHex(secret), SignedInput(t, body)), hmac(FromHex(secret'), SignedInput(t, body'));
    PrintIntIsNumeric(t);
    HexRoundTrip(d);
    HexRoundTrip(d');
    HeaderFields(PrintInt(t), ToHex(d));
    HeaderFields(PrintInt(t), ToHex(d'));
    ParsePrint(t);
  }

  /** For every secret and body: a made header verifies if and only if t is not 0 and the skew is within tolerance. */
  lemma SignedVerifies(hmac: Hmac, secret: string, t: int, body: string, tol: int, now: int)
    ensures Verify(hmac, Sign(hmac, secret, t, body), secret, body, tol, now) <==>
      (t != 0 && (now - t) * 1000 <= tol && (t - now) * 1000 <= tol)
  {
    SignedVerifiesIff(hmac, secret, secret, t, body, body, tol, now);
  }

  /** Different timestamps or bodies are never signed as the same text. */
  lemma SignedInputIsInjective(t: int, body: string, t': int, body': string)
    requires SignedInput(t, body) == SignedInput(t', body')
    ensures t == t' && body == body'
  {
    PrintIntIsNumeric(t);
    PrintIntIsNumeric(t');
    SplitFirst(PrintInt(t), ".", body);
    SplitFirst(PrintInt(t'), ".", body');
    var s := SignedInput(t, body);
    assert s[..|PrintInt(t)|] == PrintInt(t) && s[..|PrintInt(t')|] == PrintInt(t');
    assert s[|PrintInt(t)| + 1..] == body && s[|PrintInt(t')| + 1..] == body';
    ParsePrint(t);
    ParsePrint(t');
  }

  // ---------- the encrypted-secret envelope ----------

  type Key = seq<Byte>
  type Iv = iv: seq<Byte> | |iv| == 12 witness seq(12, _ => 0)

  datatype Sealed = Sealed(ciphertext: seq<Byte>, tag: seq<Byte>)

  datatype Cipher = Cipher(seal: (Key, Iv, string) -> Sealed, unseal: (Key, Iv, Sealed) -> Option<string>)

  /** GCM gives a 16-byte tag, and decrypting with the same key and iv gives the plaintext back. */
  ghost predicate Lawful(cipher: Cipher) {
    forall key: Key, iv: Iv, text: string ::
      && |cipher.seal(key, iv, text).tag| == 16
      && cipher.unseal(key, iv, cipher.seal(key, iv, text)) == Some(text)
  }

  datatype CryptoError = BadKeyLength | BadEnvelope | BadIvLength | BadTagLength | NotAuthentic

  function Envelope(iv: seq<Byte>, box: Sealed): string {
    Join([ToHex(iv), ToHex(box.tag), ToHex(box.ciphertext)], ":")
  }

  /** `encryptSecret`; `iv` is the 12 random bytes. */
  function Encrypt(cipher: Cipher, plaintext: string, key: Key, iv: Iv): Result<string, CryptoError> {
    if |key| != 32 then Err(BadKeyLength) else Ok(Envelope(iv, cipher.seal(key, iv, plaintext)))
  }

  /** `decryptSecret`. */
  function Decrypt(cipher: Cipher, envelope: string, key: Key): Result<string, CryptoError> {
    if |key| != 32 then Err(BadKeyLength)
    else
      var parts := Split(envelope, ":");
      if |parts| != 3 then Err(BadEnvelope)
      else
        var iv, tag, ciphertext := FromHex(parts[0]), FromHex(parts[1]), FromHex(parts[2]);
        if |iv| != 12 then Err(BadIvLength)
        else if |tag| != 16 then Err(BadTagLength)
        else
          match cipher.unseal(key, iv, Sealed(ciphertext, tag))
          case None => Err(NotAuthentic)
          case Some(text) => Ok(text)
  }

  lemma EnvelopeParts(iv: seq<Byte>, box: Sealed)
    ensures Split(Envelope(iv, box), ":") == [ToHex(iv), ToHex(box.tag), ToHex(box.ciphertext)]
  {
    HexRoundTrip(iv);
    HexRoundTrip(box.tag);
    HexRoundTrip(box.ciphertext);
    SplitJoin([ToHex(iv), ToHex(box.tag), ToHex(box.ciphertext)], ":");
  }

  /** Under any 32-byte key, decrypting an envelope hands the cipher exactly the iv, tag and ciphertext put in. */
  lemma DecryptSeesWhatWasSealed(cipher: Cipher, iv: Iv, box: Sealed, key: Key)
    requires |key| == 32 && |box.tag| == 16
    ensures Envelope(iv, box) == ToHex(iv) + ":" + ToHex(box.tag) + ":" + ToHex(box.ciphertext)
    ensures Decrypt(cipher, ToHex(iv) + ":" + ToHex(box.tag) + ":" + ToHex(box.ciphertext), key) ==
      match cipher.unseal(key, iv, box) case None => Err(NotAuthentic) case Some(text) => Ok(text)
  {
    EnvelopeParts(iv, box);
    HexRoundTrip(iv);
    HexRoundTrip(box.tag);
    HexRoundTrip(box.ciphertext);
    JoinThree(ToHex(iv), ToHex(box.tag), ToHex(box.ciphertext), ":");
  }

  lemma JoinThree(a: string, b: string, c: string, sep: string)
    ensures Join([a, b, c], sep) == a + sep + b + sep + c
  {
    assert [a, b, c][1..] == [b, c] && [b, c][1..] == [c];
    assert Join([b, c], sep) == b + sep + c;
  }

  /** Decryption undoes encryption, and both refuse exactly the keys that are not 32 bytes long. */
  lemma DecryptUndoesEncrypt(cipher: Cipher, plaintext: string, key: Key, iv: Iv)
    requires Lawful(cipher)
    ensures if |key| == 32 then
        && Encrypt(cipher, plaintext, key, iv).Ok?
        && (var box := cipher.seal(key, iv, plaintext);
            Encrypt(cipher, plaintext, key, iv).value == ToHex(iv) + ":" + ToHex(box.tag) + ":" + ToHex(box.ciphertext))
        && Decrypt(cipher, Encrypt(cipher, plaintext, key, iv).value, key) == Ok(plaintext)
      else
        Encrypt(cipher, plaintext, key, iv) == Err(BadKeyLength)
  {
    if |key| == 32 {
      DecryptSeesWhatWasSealed(cipher, iv, cipher.seal(key, iv, plaintext), key);
    }
  }

  function CountOf(s: string, c: char): nat {
    if s == "" then 0 else (if s[0] == c then 1 else 0) + CountOf(s[1..], c)
  }

  lemma {:induction false} CountSkip(s: string, c: char, i: nat)
    requires i <= |s| && c !in s[..i]
    ensures CountOf(s, c) == CountOf(s[i..], c)
  {
    if i > 0 {
      assert s[0] == s[..i][0];
      assert forall x | x in s[1..][..i - 1] :: x in s[..i];
      CountSkip(s[1..], c, i - 1);
      assert s[1..][i - 1..] == s[i..];
    } else {
      assert s[0..] == s;
    }
  }

  /** Splitting at a character gives one piece more than it occurs. */
  lemma {:induction false} SplitCounts(s: string, c: char)
    ensures |Split(s, [c])| == CountOf(s, c) + 1
    decreases |s|
  {
    var i := IndexOf(s, [c]);
    if i < 0 {
      NoOccurrence(s, c, |s|);
      assert s[..|s|] == s && s[|s|..] == "";
      CountSkip(s, c, |s|);
    } else {
      NoOccurrence(s, c, i);
      CountSkip(s, c, i);
      assert s[i] == s[i..i + 1][0] && s[i..][0] == c && s[i..][1..] == s[i + 1..];
      SplitCounts(s[i + 1..], c);
    }
  }

  lemma NoOccurrence(s: string, c: char, i: nat)
    requires i <= |s| && (IndexOf(s, [c]) < 0 || IndexOf(s, [c]) >= i)
    ensures c !in s[..i]
  {
    forall j: nat | j < i ensures s[j] != c {
      if s[j] == c {
        assert OccursAt(s, [c], j);
        IndexOfIsFirst(s, [c], j);
        assert false;
      }
    }
  }

  /** With a good key, the format error means exactly that the envelope does not hold two colons. */
  lemma FormatErrorIff(cipher: Cipher, envelope: string, key: Key)
    requires |key| == 32
    ensures Decrypt(cipher, envelope, key) == Err(BadEnvelope) <==> CountOf(envelope, ':') != 2
  {
    SplitCounts(envelope, ':');
  }
}
