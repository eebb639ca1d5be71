/**
 * JavaScript string search as the weather app uses it: `String.prototype.includes`,
 * which asks whether one string occurs anywhere inside another.
 */
module Strings {

  /** `sub` occurs in `s` starting at index `i`. */
  ghost predicate OccursAt(s: string, sub: string, i: nat) {
    i + |sub| <= |s| && s[i..i + |sub|] == sub
  }

  /** `s.includes(sub)`: try every start position from the left. The empty string occurs everywhere. */
  function Includes(s: string, sub: string): bool
    decreases |s|
  {
    if |sub| > |s| then false
    else if s[..|sub|] == sub then true
    else Includes(s[1..], sub)
  }

  /** Whatever `Includes` answers true for has an occurrence. */
  lemma {:induction false} IncludesSound(s: string, sub: string)
    requires Includes(s, sub)
    ensures exists i: nat :: OccursAt(s, sub, i)
    decreases |s|
  {
    if |sub| <= |s| && s[..|sub|] == sub {
      assert OccursAt(s, sub, 0);
    } else {
      IncludesSound(s[1..], sub);
      var j: nat :| OccursAt(s[1..], sub, j);
      assert s[1..][j..j + |sub|] == s[j + 1..j + 1 + |sub|];
      assert OccursAt(s, sub, j + 1);
    }
  }

  /** Every occurrence is found. */
  lemma {:induction false} IncludesComplete(s: string, sub: string, i: nat)
    requires OccursAt(s, sub, i)
    ensures Includes(s, sub)
    decreases i
  {
    if s[..|sub|] != sub {
      assert i != 0 by { assert s[..|sub|] == s[0..0 + |sub|]; }
      assert s[1..][i - 1..i - 1 + |sub|] == s[i..i + |sub|];
      IncludesComplete(s[1..], sub, i - 1);
    }
  }

  /** `Includes` is exactly substring containment. */
  lemma IncludesIff(s: string, sub: string)
    ensures Includes(s, sub) <==> exists i: nat :: OccursAt(s, sub, i)
  {
    if Includes(s, sub) {
      IncludesSound(s, sub);
    }
    forall i: nat | OccursAt(s, sub, i)
      ensures Includes(s, sub)
    {
      IncludesComplete(s, sub, i);
    }
  }
}
