/**
  The password verifier: bcrypt, seen only through its interface, and the
  plugin's `getHashByPasswordOrLogError` (src/index.ts).
*/
module Password {

  /** The cost factor the plugin passes to bcrypt (its private `salt` field). */
  const SaltRounds: nat := 10

  /**
    The bcrypt library as a pair of functions: `hash(password, rounds, salt)` and
    `compare(password, hash)`. The random salt is an input of `hash`.
  */
  datatype Bcrypt = Bcrypt(hash: (string, nat, string) -> string, compare: (string, string) -> bool)

  /** What bcrypt promises: a hash is never empty and the hashed password always compares true. */
  ghost predicate Sound(bcrypt: Bcrypt)
  {
    forall password, rounds, salt ::
      bcrypt.hash(password, rounds, salt) != "" && bcrypt.compare(password, bcrypt.hash(password, rounds, salt))
  }

  /**
    Collision resistance, idealised: a hash compares true only against the password it
    was computed from.
  */
  ghost predicate Binding(bcrypt: Bcrypt)
  {
    forall password, other, rounds, salt ::
      bcrypt.compare(other, bcrypt.hash(password, rounds, salt)) ==> other == password
  }

  /** One call of `hashSync`: the salt it draws, or the exception it throws. */
  datatype SaltDraw = Drawn(salt: string) | HashThrows

  /** `getHashByPasswordOrLogError`: the bcrypt hash, or "" when hashing throws. */
  function HashOrEmpty(bcrypt: Bcrypt, password: string, draw: SaltDraw): (hash: string)
    ensures draw.HashThrows? ==> hash == ""
    ensures Sound(bcrypt) && draw.Drawn? ==> hash != "" && bcrypt.compare(password, hash)
  {
    match draw
    case Drawn(salt) => bcrypt.hash(password, SaltRounds, salt)
    case HashThrows => ""
  }

  /** The test `cached.password && bcrypt.compareSync(password, cached.password)`. */
  predicate Matches(bcrypt: Bcrypt, password: string, stored: string)
  {
    stored != "" && bcrypt.compare(password, stored)
  }

  /** An empty stored hash, the trace of a failed hash, matches no password at all. */
  lemma FailedHashMatchesNothing(bcrypt: Bcrypt, password: string, other: string)
    ensures !Matches(bcrypt, other, HashOrEmpty(bcrypt, password, HashThrows))
  {
  }

  /** With a sound bcrypt, a successfully computed hash matches the password it was computed from. */
  lemma HashMatchesItsPassword(bcrypt: Bcrypt, password: string, salt: string)
    requires Sound(bcrypt)
    ensures Matches(bcrypt, password, HashOrEmpty(bcrypt, password, Drawn(salt)))
  {
  }
}
