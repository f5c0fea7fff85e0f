/**
 * Tables keyed by an AUTOINCREMENT id. Listings ordered by creation time,
 * newest first, are modelled as listings by descending id: ids grow with
 * creation time, and rows created within the same second (which SQLite may
 * return in any order) are put in descending id order here.
 */
module Tables {

  /** The rows of `m` with lo <= id < hi, highest id first. */
  function Listing<T>(m: map<int, T>, lo: int, hi: int): (rows: seq<T>)
    ensures |rows| <= if lo < hi then hi - lo else 0
    decreases hi - lo
  {
    if lo >= hi then []
    else Listing(m, lo + 1, hi) + (if lo in m then [m[lo]] else [])
  }

  /** A listing holds exactly the rows whose ids lie in its range. */
  lemma {:induction false} ListingMembers<T>(m: map<int, T>, lo: int, hi: int, x: T)
    ensures x in Listing(m, lo, hi) <==> exists id :: lo <= id < hi && id in m && m[id] == x
    decreases hi - lo
  {
    if lo < hi {
      ListingMembers(m, lo + 1, hi, x);
      if lo in m && m[lo] == x {
        assert x in Listing(m, lo, hi);
      }
    }
  }

  /** The ids of `m` in the range lo <= id < hi. */
  function IdsIn<T>(m: map<int, T>, lo: int, hi: int): set<int> {
    set id | id in m && lo <= id < hi
  }

  /** When every id lies in the range, the listing has one row per id. */
  lemma ListingSize<T>(m: map<int, T>, lo: int, hi: int)
    requires forall id :: id in m ==> lo <= id < hi
    ensures |Listing(m, lo, hi)| == |m|
  {
    ListingCount(m, lo, hi);
    assert IdsIn(m, lo, hi) == m.Keys;
  }

  lemma {:induction false} ListingCount<T>(m: map<int, T>, lo: int, hi: int)
    ensures |Listing(m, lo, hi)| == |IdsIn(m, lo, hi)|
    decreases hi - lo
  {
    if lo < hi {
      ListingCount(m, lo + 1, hi);
      if lo in m {
        assert IdsIn(m, lo, hi) == IdsIn(m, lo + 1, hi) + {lo};
      } else {
        assert IdsIn(m, lo, hi) == IdsIn(m, lo + 1, hi);
      }
    } else {
      assert IdsIn(m, lo, hi) == {};
    }
  }

  /** Two tables that agree on a range list that range alike. */
  lemma {:induction false} ListingAgrees<T>(m: map<int, T>, n: map<int, T>, lo: int, hi: int)
    requires forall id :: lo <= id < hi ==> (id in m <==> id in n)
    requires forall id :: lo <= id < hi && id in m ==> m[id] == n[id]
    ensures Listing(m, lo, hi) == Listing(n, lo, hi)
    decreases hi - lo
  {
    if lo < hi {
      ListingAgrees(m, n, lo + 1, hi);
    }
  }
}
