/** The key states of section 7 of NIST SP 800-57 Part 1 Rev. 5: which may follow which, and what
    each permits. */
module Lifecycle {
  import opened Model

  datatype Usage = Encrypt | Decrypt | Wrap | Unwrap | Link | Rotate

  function Transitions(s: LifeCycle): (r: set<LifeCycle>) {
    match s
    case PreActivation => {Destroyed, Active, Compromised}
    case Active => {Destroyed, Deactivated, Suspended, Compromised}
    case Suspended => {Destroyed, Deactivated, Compromised, Active}
    case Deactivated => {Destroyed, Compromised}
    case Compromised => {Destroyed}
    case Destroyed => {}
  }

  function Usages(s: LifeCycle): (r: set<Usage>) {
    match s
    case PreActivation => {Link}
    case Active => {Encrypt, Decrypt, Unwrap, Wrap, Rotate}
    case Suspended => {Decrypt, Unwrap}
    case Deactivated => {Decrypt, Unwrap}
    case Compromised => {Decrypt, Unwrap}
    case Destroyed => {}
  }

  /** A lifecycle change the table permits, staying put included. */
  predicate Legal(from: LifeCycle, to: LifeCycle) {
    from == to || to in Transitions(from)
  }

  /** The stretch of a history between two positions follows the table. */
  ghost predicate LegalBetween(h: seq<LifeCycle>, a: nat, b: nat)
    requires a <= b < |h|
  {
    forall i | a < i <= b :: LegalAt(h, i)
  }

  predicate LegalAt(h: seq<LifeCycle>, i: nat)
    requires 0 < i < |h|
  {
    Legal(h[i - 1], h[i])
  }

  lemma {:induction false} DecryptKeptUntilDestroyed(h: seq<LifeCycle>, a: nat, b: nat)
    requires a <= b < |h| && LegalBetween(h, a, b) && Decrypt in Usages(h[a])
    ensures Decrypt in Usages(h[b]) || h[b] == Destroyed
  {
    if a < b {
      DecryptKeptUntilDestroyed(h, a, b - 1);
      assert LegalAt(h, b);
    }
  }

  lemma {:induction false} EncryptNeverRegained(h: seq<LifeCycle>, a: nat, b: nat)
    requires a <= b < |h| && LegalBetween(h, a, b)
    requires h[a] in {Deactivated, Compromised, Destroyed}
    ensures Encrypt !in Usages(h[b])
    ensures h[b] in {Deactivated, Compromised, Destroyed}
  {
    if a < b {
      EncryptNeverRegained(h, a, b - 1);
      assert LegalAt(h, b);
    }
  }

  /** The states named above are exactly those from which no legal history reaches encryption. */
  lemma EncryptLostExactly(s: LifeCycle)
    ensures s in {Deactivated, Compromised, Destroyed} <==>
            forall h: seq<LifeCycle> | h != [] && h[0] == s && LegalBetween(h, 0, |h| - 1) :: Encrypt !in Usages(h[|h| - 1])
  {
    if s in {Deactivated, Compromised, Destroyed} {
      forall h: seq<LifeCycle> | h != [] && h[0] == s && LegalBetween(h, 0, |h| - 1)
        ensures Encrypt !in Usages(h[|h| - 1])
      {
        EncryptNeverRegained(h, 0, |h| - 1);
      }
    } else {
      var h := [s, Active];
      assert LegalBetween(h, 0, 1);
      assert Encrypt in Usages(h[|h| - 1]);
    }
  }
}
