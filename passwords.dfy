/** Password hashing as the routes use it: `bcrypt.hash(password, salt)` at registration and
    `bcrypt.compare(password, hash)` at login. The cryptography is foreign; what the routes rely on
    is that a password matches its own hash and no other password does. The digest below is a
    one-to-one stand-in with that property; the salt is an input, since it is random. */
module Passwords {

  /** Cost factor passed to `bcrypt.genSalt`. */
  const SaltRounds := 12

  /** A stored bcrypt hash: cost, salt and digest. */
  datatype PasswordHash = PasswordHash(rounds: nat, salt: nat, digest: string)

  function Reverse(s: string): (r: string)
    ensures |r| == |s|
  {
    if s == [] then [] else Reverse(s[1..]) + [s[0]]
  }

  lemma {:induction false} ReverseAppend(a: string, b: string)
    ensures Reverse(a + b) == Reverse(b) + Reverse(a)
  {
    if a == [] {
      assert a + b == b;
    } else {
      assert (a + b)[1..] == a[1..] + b;
      ReverseAppend(a[1..], b);
    }
  }

  lemma {:induction false} ReverseReverse(s: string)
    ensures Reverse(Reverse(s)) == s
  {
    if s != [] {
      ReverseAppend(Reverse(s[1..]), [s[0]]);
      assert Reverse([s[0]]) == [s[0]];
      ReverseReverse(s[1..]);
      assert [s[0]] + s[1..] == s;
    }
  }

  /** The one-to-one digest standing in for bcrypt's. */
  function Digest(password: string): string {
    Reverse(password)
  }

  /** `bcrypt.hash(password, salt)` with a salt of `SaltRounds` rounds. */
  function Hash(password: string, salt: nat): (h: PasswordHash)
    ensures h.rounds == SaltRounds && h.salt == salt
  {
    PasswordHash(SaltRounds, salt, Digest(password))
  }

  /** `bcrypt.compare(password, hash)`. */
  predicate Matches(password: string, h: PasswordHash)
    ensures h == Hash(password, h.salt) ==> Matches(password, h)
  {
    Digest(password) == h.digest
  }

  /** A hash accepts the password it was made from, and only that password, whatever the salt. */
  lemma {:induction false} MatchesExactlyOwnPassword(password: string, candidate: string, salt: nat)
    ensures Matches(candidate, Hash(password, salt)) <==> candidate == password
  {
    if Matches(candidate, Hash(password, salt)) {
      ReverseReverse(candidate);
      ReverseReverse(password);
    }
  }
}
