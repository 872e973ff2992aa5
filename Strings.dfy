/** String helpers shared by the line classifier and the line reader. */
module Strings {

  /** The first position at or after `i` that holds `c`, or `|s|` (see FindStops). */
  function Find(s: string, i: nat, c: char): (j: nat)
    requires i <= |s|
    ensures i <= j <= |s|
    decreases |s| - i
  {
    if i < |s| && s[i] != c then Find(s, i + 1, c) else i
  }

  /** The search passes over characters other than `c` only and stops at the end or at a `c`. */
  lemma {:induction false} FindStops(s: string, i: nat, c: char)
    requires i <= |s|
    ensures forall k :: i <= k < Find(s, i, c) ==> s[k] != c
    ensures Find(s, i, c) < |s| ==> s[Find(s, i, c)] == c
    decreases |s| - i
  {
    if i < |s| && s[i] != c {
      FindStops(s, i + 1, c);
    }
  }

  /** A search over the `c`-free run `s[i..j]` that ends in `c` stops at `j`. */
  lemma FindExact(s: string, i: nat, j: nat, c: char)
    requires i <= j < |s|
    requires forall k :: i <= k < j ==> s[k] != c
    requires s[j] == c
    ensures Find(s, i, c) == j
  {
    FindStops(s, i, c);
  }

  /** Cutting a suffix at `j` splits it into two adjacent pieces. */
  lemma Cut(s: string, i: nat, j: nat)
    requires i <= j <= |s|
    ensures s[i..] == s[i..j] + s[j..]
  {
  }

}
