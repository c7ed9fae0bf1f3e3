/** Salted password hashes and encrypted panel tokens. SHA-256 and AES-GCM are parameters. */
module Secrets {
  import opened Schema
  import opened Base64

  type Hash = string -> ByteString

  /** base64(salt).base64(hash(salt password)); an empty password has none. */
  function HashPassword(hash: Hash, salt: ByteString, password: string): Option<string> {
    if password == [] then None else Some(Encode(salt, RAW_STD) + "." + Encode(hash(salt + password), RAW_STD))
  }

  /** The text before the first dot, and the text after it; both empty when there is none. */
  datatype Halves = Halves(before: string, after: string)

  function Halve(s: string): Halves {
    if '.' !in s then Halves([], [])
    else if s[0] == '.' then Halves([], s[1..])
    else
      var h := Halve(s[1..]);
      Halves([s[0]] + h.before, h.after)
  }

  lemma {:induction false} HalvesAt(s: string, i: nat)
    requires i < |s| && s[i] == '.' && '.' !in s[..i]
    ensures Halve(s) == Halves(s[..i], s[i + 1..])
    decreases i
  {
    if i > 0 {
      assert s[1..][..i - 1] == s[1..i] && s[..i] == [s[0]] + s[1..i];
      assert s[0] == s[..i][0];
      HalvesAt(s[1..], i - 1);
    }
  }

  /** What ComparePassword answers. */
  predicate Matches(hash: Hash, stored: string, password: string) {
    var h := Halve(stored);
    match (Decode(h.before, RAW_STD), Decode(h.after, RAW_STD))
    case (Some(salt), Some(digest)) => hash(salt + password) == digest
    case _ => false
  }

  method ComparePassword(hash: Hash, stored: string, password: string) returns (ok: bool)
    ensures ok == Matches(hash, stored, password)
  {
    var a, b: string := [], [];
    var i := 0;
    while i < |stored|
      invariant 0 <= i <= |stored|
      invariant '.' !in stored[..i]
      invariant a == [] && b == []
    {
      if stored[i] == '.' {
        a, b := stored[..i], stored[i + 1..];
        HalvesAt(stored, i);
        break;
      }
      i := i + 1;
    }
    assert i == |stored| ==> stored[..i] == stored;
    assert Halve(stored) == Halves(a, b);
    var salt := Decode(a, RAW_STD);
    if salt.None? {
      return false;
    }
    var digest := Decode(b, RAW_STD);
    if digest.None? {
      return false;
    }
    return hash(salt.value + password) == digest.value;
  }

  /** A stored hash is accepted with exactly the passwords that hash, under its salt, to what its
      own password hashes to; so always with its own. It rests on '.' not being a digit. */
  lemma PasswordRoundTrip(hash: Hash, salt: ByteString, password: string, attempt: string)
    requires password != []
    ensures HashPassword(hash, salt, password).Some?
    ensures Matches(hash, HashPassword(hash, salt, password).value, attempt) <==>
            hash(salt + attempt) == hash(salt + password)
  {
    var a, b := Encode(salt, RAW_STD), Encode(hash(salt + password), RAW_STD);
    var stored := a + "." + b;
    StdSound();
    EncodingPlain(salt, RAW_STD);
    HalvesAt(stored, |a|);
    assert stored[..|a|] == a && stored[|a| + 1..] == b;
    RoundTrip(salt, RAW_STD);
    RoundTrip(hash(salt + password), RAW_STD);
  }

  /** The text stored for a password: the salt, a dot, and the hash of the salt and the password. An
      empty password has none. */
  lemma StoredParts(hash: Hash, salt: ByteString, password: string)
    ensures HashPassword(hash, salt, password).None? <==> password == []
    ensures password != [] ==>
            var stored := HashPassword(hash, salt, password).value;
            exists i :: 0 <= i < |stored| && stored[i] == '.' && '.' !in stored[..i] && '.' !in stored[i + 1..] &&
                        Decode(stored[..i], RAW_STD) == Some(salt) &&
                        Decode(stored[i + 1..], RAW_STD) == Some(hash(salt + password))
  {
    var a, b := Encode(salt, RAW_STD), Encode(hash(salt + password), RAW_STD);
    var stored := a + "." + b;
    StdSound();
    EncodingPlain(salt, RAW_STD);
    EncodingPlain(hash(salt + password), RAW_STD);
    RoundTrip(salt, RAW_STD);
    RoundTrip(hash(salt + password), RAW_STD);
    assert stored[..|a|] == a && stored[|a| + 1..] == b && stored[|a|] == '.';
  }

  /** A text without a dot is accepted only when the password hashes to nothing at all. */
  lemma NoDotNoMatch(hash: Hash, stored: string, password: string)
    requires '.' !in stored
    ensures Matches(hash, stored, password) <==> hash(password) == []
  {
    assert Decode([], RAW_STD) == Some([]);
    assert [] + password == password;
  }

  type Seal = (ByteString, ByteString, string) -> ByteString                 // key, nonce, plaintext
  type Open = (ByteString, ByteString, string) -> Option<string>             // key, nonce, ciphertext

  const NONCE_SIZE := 12
  const NONCE: ByteString := seq(NONCE_SIZE, _ => 0 as char)

  /** base64(nonce ciphertext), under a nonce of zeros. */
  function Encrypt(hash: Hash, seal: Seal, passphrase: string, plaintext: string): string {
    Encode(NONCE + seal(hash(passphrase), NONCE, plaintext), RAW_STD)
  }

  /** The nonce is read from the text, whatever it is. */
  function Decrypt(hash: Hash, open: Open, passphrase: string, text: string): Option<string> {
    match Decode(text, RAW_STD)
    case None => None
    case Some(raw) =>
      if |raw| < NONCE_SIZE then None
      else
        DecodedBytes(text);
        open(hash(passphrase), raw[..NONCE_SIZE], raw[NONCE_SIZE..])
  }

  lemma DecodedBytes(text: string)
    ensures Decode(text, RAW_STD).Some? ==> IsBytes(Decode(text, RAW_STD).value)
  {
    StdSound();
    if Decode(text, RAW_STD).Some? {
      DecodedEncodes(Strip(text), RAW_STD);
    }
  }

  /** `open` undoes `seal`. */
  ghost predicate Opens(open: Open, seal: Seal) {
    forall key: ByteString, nonce: ByteString, x: string :: open(key, nonce, seal(key, nonce, x)) == Some(x)
  }

  /** The text an encryption yields: twelve zero bytes, and the plaintext sealed under the hash of the
      passphrase with that nonce. */
  lemma EncryptedParts(hash: Hash, seal: Seal, passphrase: string, plaintext: string)
    ensures var nonce: ByteString := seq(12, _ => 0 as char);
            Decode(Encrypt(hash, seal, passphrase, plaintext), RAW_STD) ==
            Some(nonce + seal(hash(passphrase), nonce, plaintext))
  {
    StdSound();
    RoundTrip(NONCE + seal(hash(passphrase), NONCE, plaintext), RAW_STD);
    assert NONCE == seq(12, _ => 0 as char);
  }

  /** What a decryption opens: everything after the first twelve bytes, with those as the nonce, under
      the hash of the passphrase; a text that is not base64, or is shorter, does not decrypt. */
  lemma DecryptedParts(hash: Hash, open: Open, passphrase: string, text: string, nonce: ByteString, sealed: ByteString)
    requires |nonce| == 12
    ensures Decode(text, RAW_STD) == Some(nonce + sealed) ==>
              Decrypt(hash, open, passphrase, text) == open(hash(passphrase), nonce, sealed)
    ensures Decode(text, RAW_STD).None? || |Decode(text, RAW_STD).value| < 12 ==>
              Decrypt(hash, open, passphrase, text).None?
  {
    assert (nonce + sealed)[..12] == nonce && (nonce + sealed)[12..] == sealed;
  }

  /** What is encrypted decrypts to itself under the same passphrase. */
  lemma EncryptionRoundTrip(hash: Hash, seal: Seal, open: Open, passphrase: string, plaintext: string)
    requires Opens(open, seal)
    ensures Decrypt(hash, open, passphrase, Encrypt(hash, seal, passphrase, plaintext)) == Some(plaintext)
  {
    var ct := seal(hash(passphrase), NONCE, plaintext);
    StdSound();
    RoundTrip(NONCE + ct, RAW_STD);
    assert (NONCE + ct)[..NONCE_SIZE] == NONCE && (NONCE + ct)[NONCE_SIZE..] == ct;
  }

  /** Under one passphrase, different tokens have different encryptions. */
  lemma EncryptionInjective(hash: Hash, seal: Seal, open: Open, passphrase: string, x: string, y: string)
    requires Opens(open, seal)
    requires Encrypt(hash, seal, passphrase, x) == Encrypt(hash, seal, passphrase, y)
    ensures x == y
  {
    EncryptionRoundTrip(hash, seal, open, passphrase, x);
    EncryptionRoundTrip(hash, seal, open, passphrase, y);
  }
}
