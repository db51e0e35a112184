/**
 * A stand-in for the bcrypt calls the user store makes: `hashpw(password, gensalt())`
 * and `checkpw(password, hash)`. Only the facts the store relies on are kept:
 * a hash carries a version prefix and its salt, checking a password against its
 * own hash succeeds, a hash never equals the password, and a different password
 * is rejected. The digest itself is a reversible placeholder, not bcrypt's
 * key schedule.
 */
module Bcrypt {

  /** Version and cost prefix of the hashes produced here. */
  const Prefix := "$2b$12$"

  /** Length of a bcrypt salt in its text encoding. */
  const SaltLength := 22

  /** A salt as `gensalt()` would produce it; which one is chosen is up to the caller. */
  type Salt = s: string | |s| == SaltLength witness "abcdefghijklmnopqrstuv"

  /** The placeholder digest: the password reversed. */
  function Scramble(p: string): (r: string)
    ensures |r| == |p|
  {
    if p == [] then [] else Scramble(p[1..]) + [p[0]]
  }

  /** `hashpw(password, salt)`. */
  function Hash(password: string, salt: Salt): string {
    Prefix + salt + Scramble(password)
  }

  /** The shape of a hash: the prefix followed by a full salt. */
  predicate WellFormed(h: string) {
    |h| >= |Prefix| + SaltLength && h[..|Prefix|] == Prefix
  }

  /** The salt stored inside a well-formed hash. */
  function SaltOf(h: string): Salt
    requires WellFormed(h)
  {
    h[|Prefix|..|Prefix| + SaltLength]
  }

  /** `checkpw(password, h)`: hashing the password with the salt inside `h` gives `h`. */
  predicate Check(password: string, h: string) {
    WellFormed(h) && h == Hash(password, SaltOf(h))
  }

  /** A hash is well formed, carries its salt, and is never the password itself. */
  lemma HashShape(password: string, salt: Salt)
    ensures WellFormed(Hash(password, salt))
    ensures SaltOf(Hash(password, salt)) == salt
    ensures Hash(password, salt) != password
  {
    var h := Hash(password, salt);
    assert h[..|Prefix|] == Prefix;
    assert h[|Prefix|..|Prefix| + SaltLength] == salt;
    assert |h| == |Prefix| + SaltLength + |password|;
  }

  /** Checking a password against its own hash succeeds, whatever the salt. */
  lemma CheckAcceptsHash(password: string, salt: Salt)
    ensures Check(password, Hash(password, salt))
  {
    HashShape(password, salt);
  }

  /** The placeholder digest loses nothing. */
  lemma {:induction false} ScrambleInjective(p: string, q: string)
    requires Scramble(p) == Scramble(q)
    ensures p == q
  {
    if p != [] {
      assert q != [];
      var sp, sq := Scramble(p), Scramble(q);
      assert sp[|sp| - 1] == p[0] && sq[|sq| - 1] == q[0];
      assert sp[..|sp| - 1] == Scramble(p[1..]);
      assert sq[..|sq| - 1] == Scramble(q[1..]);
      ScrambleInjective(p[1..], q[1..]);
      assert p == [p[0]] + p[1..];
      assert q == [q[0]] + q[1..];
    }
  }

  /** Any other password is rejected. */
  lemma CheckRejectsOthers(password: string, other: string, salt: Salt)
    requires other != password
    ensures !Check(other, Hash(password, salt))
  {
    var h := Hash(password, salt);
    HashShape(password, salt);
    if Check(other, h) {
      var n := |Prefix| + SaltLength;
      assert Scramble(other) == h[n..] == Scramble(password);
      ScrambleInjective(other, password);
    }
  }
}
