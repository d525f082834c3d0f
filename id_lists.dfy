/**
 * The id lists kept on a user document (`likedProblems`, `dislikedProblems`,
 * `starredProblems`, `solvedProblems`) and the three ways the panels rewrite them:
 * `ids.filter(id => id !== x)`, Firestore's `arrayRemove(x)` (which removes every
 * instance, so it is the same function) and Firestore's `arrayUnion(x)`.
 */
module IdLists {

  /** `ids.filter(id => id !== x)`: every occurrence of `x` goes, every other id keeps its multiplicity. */
  function Without(ids: seq<string>, x: string): (r: seq<string>)
    ensures x !in r
    ensures forall y :: y != x ==> (y in r <==> y in ids)
    ensures multiset(r) == multiset(ids)[x := 0]
    ensures |r| <= |ids|
  {
    if ids == [] then []
    else
      assert ids == [ids[0]] + ids[1..];
      (if ids[0] == x then [] else [ids[0]]) + Without(ids[1..], x)
  }

  /** Removing an id that is not there leaves the list exactly as it was. */
  lemma {:induction false} WithoutAbsent(ids: seq<string>, x: string)
    requires x !in ids
    ensures Without(ids, x) == ids
  {
    if ids != [] {
      WithoutAbsent(ids[1..], x);
    }
  }

  /** Filtering distributes over concatenation. */
  lemma {:induction false} WithoutAppend(a: seq<string>, b: seq<string>, x: string)
    ensures Without(a + b, x) == Without(a, x) + Without(b, x)
  {
    if a == [] {
      assert a + b == b;
    } else {
      assert (a + b)[1..] == a[1..] + b;
      WithoutAppend(a[1..], b, x);
    }
  }

  /** Firestore's `arrayUnion(x)`: append `x` unless it is already present. */
  function ArrayUnion(ids: seq<string>, x: string): (r: seq<string>)
    ensures x in r
    ensures forall y :: y in r <==> y in ids || y == x
    ensures |ids| <= |r| <= |ids| + 1 && r[..|ids|] == ids
    ensures x in ids ==> r == ids
  {
    if x in ids then ids else ids + [x]
  }

  /**
   * The membership toggle behind starring and marking solved: when `isMember`
   * the id is removed with `arrayRemove`, otherwise added with `arrayUnion`.
   */
  function Toggle(ids: seq<string>, isMember: bool, x: string): (r: seq<string>)
    ensures x in r <==> !isMember
    ensures forall y :: y != x ==> (y in r <==> y in ids)
  {
    if isMember then Without(ids, x) else ArrayUnion(ids, x)
  }

  /** Toggling twice from the real membership restores membership; from absence it restores the list itself. */
  lemma ToggleTwice(ids: seq<string>, x: string)
    ensures var once := Toggle(ids, x in ids, x);
            var twice := Toggle(once, x in once, x);
            (forall y :: y in twice <==> y in ids) && (x !in ids ==> twice == ids)
  {
    if x !in ids {
      WithoutAppend(ids, [x], x);
      WithoutAbsent(ids, x);
    }
  }
}
