/** The two JavaScript string tests the scripts rely on, `includes` and
    `startsWith`, together with an offset-based reference meaning for
    `includes` that the rest of the model states its contracts with. */
module Strings {

  /** `s.startsWith(p)`. */
  predicate StartsWith(s: string, p: string) {
    |p| <= |s| && s[..|p|] == p
  }

  /** `sub` occurs in `s` at offset `i`. */
  predicate OccursAt(s: string, sub: string, i: nat) {
    i + |sub| <= |s| && s[i..i + |sub|] == sub
  }

  /** Reference meaning of "`sub` is a substring of `s`". */
  ghost predicate Occurs(s: string, sub: string) {
    exists i: nat :: OccursAt(s, sub, i)
  }

  /** `s.includes(sub)`, computed by trying each offset from the left. */
  function Includes(s: string, sub: string): bool
    decreases |s|
  {
    StartsWith(s, sub) || (|s| > 0 && Includes(s[1..], sub))
  }

  /** The left-to-right scan agrees with the reference meaning. */
  lemma {:induction false} IncludesIffOccurs(s: string, sub: string)
    ensures Includes(s, sub) <==> Occurs(s, sub)
    decreases |s|
  {
    if StartsWith(s, sub) {
      assert OccursAt(s, sub, 0);
    } else if |s| == 0 {
      // An occurrence in the empty string would be the empty prefix.
      assert !Occurs(s, sub);
    } else {
      IncludesIffOccurs(s[1..], sub);
      if Occurs(s[1..], sub) {
        var i: nat :| OccursAt(s[1..], sub, i);
        assert s[1..][i..i + |sub|] == s[i + 1..i + 1 + |sub|];
        assert OccursAt(s, sub, i + 1);
      }
      if Occurs(s, sub) {
        var i: nat :| OccursAt(s, sub, i);
        assert i != 0;
        assert s[1..][i - 1..i - 1 + |sub|] == s[i..i + |sub|];
        assert OccursAt(s[1..], sub, i - 1);
      }
    }
  }

  /** Containment is transitive: a string that includes `a` includes every
      substring of `a`. */
  lemma IncludesTransitive(s: string, a: string, b: string)
    requires Includes(s, a) && Includes(a, b)
    ensures Includes(s, b)
  {
    IncludesIffOccurs(s, a);
    IncludesIffOccurs(a, b);
    IncludesIffOccurs(s, b);
    var i: nat :| OccursAt(s, a, i);
    var j: nat :| OccursAt(a, b, j);
    forall k | 0 <= k < |b| ensures s[i + j + k] == b[k] {
      assert a[j + k] == b[k];
      assert s[i..i + |a|][j + k] == s[i + j + k];
    }
    assert s[i + j..i + j + |b|] == b;
    assert OccursAt(s, b, i + j);
  }

  /** `needles.some(n => s.includes(n))`. */
  function IncludesAny(s: string, needles: seq<string>): (b: bool)
    ensures b <==> exists k :: 0 <= k < |needles| && Occurs(s, needles[k])
  {
    if needles == [] then false
    else
      IncludesIffOccurs(s, needles[0]);
      assert forall k :: 1 <= k < |needles| ==> needles[k] == needles[1..][k - 1];
      Includes(s, needles[0]) || IncludesAny(s, needles[1..])
  }
}
