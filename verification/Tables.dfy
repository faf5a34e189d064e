/** Searching the sorted exclusion tables with a cursor. */
module Tables {
  import opened CmosTypes

  /** `i` is the first slot from 1 on that is not below `a`, or the slot past the end. */
  predicate AtCursor(t: seq<nat>, a: nat, i: nat) {
    && 1 <= i < |t|
    && (forall k :: 1 <= k < i ==> t[k] < a)
    && (i < |t| - 1 ==> a <= t[i])
  }

  /** Whatever a sorted table holds past its end, the comparison at the cursor is
      membership, except that the slot past the end passes for an entry when the
      whole table lies below the register looked up. */
  lemma CursorDecidesMembership(t: seq<nat>, a: nat, i: nat)
    requires SortedTable(t) && AtCursor(t, a, i)
    ensures t[i] == a <==> a in Entries(t) || (i == |t| - 1 && t[i] == a)
    ensures a != t[|t| - 1] ==> (t[i] == a <==> a in Entries(t))
  {
  }

  /** Move the cursor forward to register `a`; it never has to move back as long
      as the registers asked for do not decrease. */
  method Advance(t: seq<nat>, a: nat, start: nat) returns (i: nat)
    requires 2 <= |t| && 1 <= start < |t|
    requires forall k :: 1 <= k < start ==> t[k] < a
    ensures AtCursor(t, a, i) && start <= i
  {
    i := start;
    while i < |t| - 1 && a > t[i]
      invariant start <= i < |t|
      invariant forall k :: 1 <= k < i ==> t[k] < a
    {
      i := i + 1;
    }
  }

}
