/** Shared building blocks: an optional value and the string operations the
    orchestrator relies on (Python's substring test `sub in s` and the slice
    `s[:n]`). */
module Common {

  datatype Option<+T> = None | Some(value: T)

  /** `sub` occurs in `s` at some position: the meaning of Python's `sub in s`. */
  ghost predicate Occurs(sub: string, s: string)
  {
    exists k :: OccursAt(sub, s, k)
  }

  /** `sub` occurs in `s` starting at index `k`. */
  ghost predicate OccursAt(sub: string, s: string, k: int)
  {
    0 <= k <= |s| - |sub| && s[k..k + |sub|] == sub
  }

  /** Executable substring test: scan the start positions from the left. */
  function Contains(s: string, sub: string): (found: bool)
    ensures found <==> Occurs(sub, s)
  {
    ContainsFrom(s, sub, 0)
  }

  /** `sub` occurs in `s` at position `i` or later. */
  function ContainsFrom(s: string, sub: string, i: nat): (found: bool)
    requires i <= |s|
    ensures found <==> exists k :: i <= k && OccursAt(sub, s, k)
    decreases |s| - i
  {
    if |s| - i < |sub| then false
    else if s[i..i + |sub|] == sub then
      assert OccursAt(sub, s, i);
      true
    else
      ContainsFrom(s, sub, i + 1)
  }

  /** `sub` occurs in `s` when `s` spells it out character by character
      from position `k` on. */
  lemma SpelledAt(sub: string, s: string, k: nat)
    requires k + |sub| <= |s|
    requires forall j :: 0 <= j < |sub| ==> s[k + j] == sub[j]
    ensures Occurs(sub, s)
  {
    assert s[k..k + |sub|] == sub;
    assert OccursAt(sub, s, k);
  }

  /** A string lacking one of the characters of `sub` cannot contain `sub`. */
  lemma MissingCharacter(sub: string, s: string, i: nat)
    requires i < |sub|
    requires forall j :: 0 <= j < |s| ==> s[j] != sub[i]
    ensures !Occurs(sub, s)
  {
    forall k | 0 <= k <= |s| - |sub|
      ensures !OccursAt(sub, s, k)
    {
      assert s[k..k + |sub|][i] != sub[i];
    }
  }

  /** Python's slice `s[:n]`: the first `n` characters, or all of `s` when it is shorter. */
  function Prefix(s: string, n: nat): (p: string)
    ensures |p| == if |s| <= n then |s| else n
    ensures p <= s
  {
    if |s| <= n then s else s[..n]
  }
}
