/**
 * The native password "hash" (native/crypto/joinly_crypto.cpp): `HASH_<salt>_<password>`
 * written into the caller's buffer, and a verifier that compares what follows the last `_`.
 * The salt (`rand()` seeded from the clock) is a parameter. A null pointer argument is `None`.
 */
module NativeCrypto {
  import opened Wrappers
  import CStrings
  import Decimal

  const Success := 0
  const Failure := -1
  const Prefix := "HASH_"

  /** `"HASH_" + std::to_string(salt) + "_" + password` */
  function Hashed(password: string, salt: int): (r: string)
    ensures |r| == |Prefix| + |Decimal.IntToString(salt)| + 1 + |password|
  {
    Prefix + Decimal.IntToString(salt) + "_" + password
  }

  /** A decimal rendering holds only digits and perhaps a leading `-`, so never an underscore or a NUL. */
  lemma NoUnderscoreInDecimal(i: int)
    ensures '_' !in Decimal.IntToString(i) && CStrings.IsCString(Decimal.IntToString(i))
  {
    var s := Decimal.IntToString(i);
    if i < 0 {
      assert s == "-" + Decimal.NatToString(-i);
      assert forall j :: 1 <= j < |s| ==> Decimal.IsDigit(s[j]);
    }
  }

  /** `std::string::rfind(c)`: the last position of `c`, or None (`npos`). */
  function LastIndex(s: string, c: char): (r: Option<nat>)
    ensures r.None? <==> c !in s
    ensures r.Some? ==> r.value < |s| && s[r.value] == c && c !in s[r.value + 1..]
  {
    if s == [] then None
    else if s[|s| - 1] == c then Some(|s| - 1)
    else
      var r := LastIndex(s[..|s| - 1], c);
      assert s[..|s| - 1] + [s[|s| - 1]] == s;
      if r.Some? then
        assert s[r.value + 1..] == s[..|s| - 1][r.value + 1..] + [s[|s| - 1]];
        r
      else r
  }

  /** `verify_password`: 0 when what follows the last `_` of the hash is the password, else -1. */
  function VerifyPassword(password: Option<string>, hash: Option<string>): (r: int)
    requires password.Some? ==> CStrings.IsCString(password.value)
    requires hash.Some? ==> CStrings.IsCString(hash.value)
    ensures r == Success || r == Failure
    ensures password.None? || hash.None? || '_' !in hash.value ==> r == Failure
  {
    if password.None? || hash.None? then Failure
    else match LastIndex(hash.value, '_')
      case None => Failure
      case Some(i) => if hash.value[i + 1..] == password.value then Success else Failure
  }

  /** Only the text after the last `_` counts: any prefix, the salt included, is ignored. */
  lemma VerifyLastField(password: string, head: string, tail: string)
    requires CStrings.IsCString(password) && CStrings.IsCString(head) && CStrings.IsCString(tail)
    requires '_' !in tail
    ensures VerifyPassword(Some(password), Some(head + "_" + tail)) == (if tail == password then Success else Failure)
  {
    var h := head + "_" + tail;
    assert h[|head|] == '_';
    assert h[|head| + 1..] == tail;
  }

  /** A password without `_` verifies against its own hash, whatever the salt. */
  lemma VerifyOwnHash(password: string, salt: int)
    requires CStrings.IsCString(password) && '_' !in password
    ensures VerifyPassword(Some(password), Some(Hashed(password, salt))) == Success
  {
    assert Hashed(password, salt) == (Prefix + Decimal.IntToString(salt)) + "_" + password;
    VerifyLastField(password, Prefix + Decimal.IntToString(salt), password);
  }

  /** A password with `_` never verifies against its own hash: only its last field is compared. */
  lemma VerifyRejectsUnderscore(password: string, salt: int)
    requires CStrings.IsCString(password) && '_' in password
    ensures VerifyPassword(Some(password), Some(Hashed(password, salt))) == Failure
  {
    var front := Prefix + Decimal.IntToString(salt) + "_";
    var j := LastIndex(password, '_').value;
    var tail := password[j + 1..];
    SplitAt(front, password, j);
    VerifyLastField(password, front + password[..j], tail);
  }

  /** Cutting a string at one of its positions, under any prefix. */
  lemma SplitAt(front: string, s: string, j: nat)
    requires j < |s|
    ensures front + s == (front + s[..j]) + [s[j]] + s[j + 1..]
    ensures |s[j + 1..]| < |s|
  {
    assert s == s[..j] + [s[j]] + s[j + 1..];
  }

  /** Round trip of hashing and verifying, both directions. */
  lemma VerifyHashed(password: string, salt: int)
    requires CStrings.IsCString(password)
    ensures VerifyPassword(Some(password), Some(Hashed(password, salt))) == Success <==> '_' !in password
  {
    if '_' in password {
      VerifyRejectsUnderscore(password, salt);
    } else {
      VerifyOwnHash(password, salt);
    }
  }

  /** The first position at or after `from` holding `c`, or None. */
  function IndexFrom(s: string, c: char, from: nat): (r: Option<nat>)
    ensures r.None? <==> c !in s[(if from <= |s| then from else |s|)..]
    ensures r.Some? ==> from <= r.value < |s| && s[r.value] == c && c !in s[from..r.value]
    decreases |s| - from
  {
    if from >= |s| then None
    else if s[from] == c then Some(from)
    else
      var r := IndexFrom(s, c, from + 1);
      assert s[from..] == [s[from]] + s[from + 1..];
      if r.Some? then
        assert s[from..r.value] == [s[from]] + s[from + 1..r.value];
        r
      else r
  }

  /**
   * A verifier for the format as written by `hash_password`: the salt is the field right after
   * `HASH_`, and the password is everything after the `_` that ends the salt.
   */
  function VerifyPasswordByFormat(password: Option<string>, hash: Option<string>): (r: int)
    requires password.Some? ==> CStrings.IsCString(password.value)
    requires hash.Some? ==> CStrings.IsCString(hash.value)
    ensures r == Success || r == Failure
    ensures password.None? || hash.None? ==> r == Failure
  {
    if password.None? || hash.None? then Failure
    else
      var h := hash.value;
      if |h| < |Prefix| || h[..|Prefix|] != Prefix then Failure
      else match IndexFrom(h, '_', |Prefix|)
        case None => Failure
        case Some(i) => if h[i + 1..] == password.value then Success else Failure
  }

  /** Every password verifies against its own hash by the format, `_` or not. */
  lemma VerifyByFormatHashed(password: string, salt: int)
    requires CStrings.IsCString(password)
    ensures VerifyPasswordByFormat(Some(password), Some(Hashed(password, salt))) == Success
  {
    var h := Hashed(password, salt);
    var digits := Decimal.IntToString(salt);
    NoUnderscoreInDecimal(salt);
    var k := |Prefix| + |digits|;
    assert h[..|Prefix|] == Prefix;
    assert h[k] == '_';
    assert h[|Prefix|..k] == digits;
    assert h[k + 1..] == password;
  }

  /** The format verifier still tells a wrong password from the right one. */
  lemma VerifyByFormatRejects(password: string, other: string, salt: int)
    requires CStrings.IsCString(password) && CStrings.IsCString(other) && other != password
    ensures VerifyPasswordByFormat(Some(other), Some(Hashed(password, salt))) == Failure
  {
    VerifyByFormatHashed(password, salt);
  }

  /**
   * `hash_password`: -1 on a null argument or a non-positive size; -1 with nothing written when
   * the hash and its NUL do not fit; otherwise the hash and its NUL fill the front of the buffer
   * and 0. The caller's buffer holds at least `buffer_size` characters.
   */
  method HashPassword(password: Option<string>, buffer: Option<array<char>>, bufferSize: int, salt: int) returns (rc: int)
    requires password.Some? ==> CStrings.IsCString(password.value)
    requires buffer.Some? && bufferSize > 0 ==> bufferSize <= buffer.value.Length
    modifies if buffer.Some? then {buffer.value} else {}
    ensures rc == Success || rc == Failure
    ensures rc == Success <==> password.Some? && buffer.Some? && bufferSize > 0 && |Hashed(password.value, salt)| < bufferSize
    ensures rc == Success ==>
      var h := Hashed(password.value, salt);
      && buffer.value[..|h| + 1] == h + ['\0']
      && buffer.value[|h| + 1..] == old(buffer.value[|h| + 1..])
    ensures rc == Failure && buffer.Some? ==> buffer.value[..] == old(buffer.value[..])
  {
    if password.None? || buffer.None? || bufferSize <= 0 {
      return Failure;
    }
    var hashed := Hashed(password.value, salt);
    if |hashed| >= bufferSize {
      return Failure;
    }
    CStrings.Strcpy(buffer.value, hashed);
    rc := Success;
  }
}
