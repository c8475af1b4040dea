/** Paging through the finalized rows (internal/api/handlers.go:
    internalCatchUpHandler). */
module Paging {
  import opened Replication
  import opened Storage
  import opened CatchUp

  datatype Page = Page(entries: seq<LogEntry>, hasMore: bool, totalAvailable: nat)

  /** The answer to from_log_index = `from`; a zero `limit` means no limit. */
  ghost function PageAfter(l: Ledger, from: int, limit: nat): Page
    requires WellFormed(l)
  {
    var items := Listing(l, from);
    var size := if 0 < limit < |items| then limit else |items|;
    Page(Entries(items[..size]), 0 < limit < |items|, |items|)
  }

  /** What a page promises its client: a prefix of what there is, all of it or the
      first `limit`; the number of rows there are; and whether some are missing. */
  lemma PageMeans(l: Ledger, from: int, limit: nat)
    requires WellFormed(l)
    ensures var page, all := PageAfter(l, from, limit), Entries(Listing(l, from));
            && page.entries <= all
            && page.totalAvailable == |all|
            && (page.hasMore <==> |page.entries| < |all|)
            && (|page.entries| < |all| ==> limit > 0 && |page.entries| == limit)
            && (limit > 0 ==> |page.entries| <= limit)
  {
  }

  method InternalCatchUp(store: SQLiteStore, from: nat, limit: nat) returns (page: Page)
    requires WellFormed(store.Contents())
    ensures page == PageAfter(store.Contents(), from, limit)
  {
    var items := store.ListFinalizedAfter(from);
    ListingIsUnique(store.Contents(), from, items);
    var entries: seq<LogEntry> := [];
    for k := 0 to |items|
      invariant entries == Entries(items[..k])
    {
      entries := entries + [EntryOf(items[k])];
      assert items[..k + 1] == items[..k] + [items[k]];
    }
    assert items[..|items|] == items;
    var totalAvailable := |entries|;
    if limit > 0 && |entries| > limit {
      entries := entries[..limit];
    }
    var hasMore := limit > 0 && totalAvailable > limit;
    page := Page(entries, hasMore, totalAvailable);
  }

  /** Later listings are suffixes of earlier ones; `cut` is where they start. */
  lemma ListingIsSuffix(l: Ledger, h: int, later: int) returns (cut: nat)
    requires WellFormed(l) && h <= later
    ensures cut <= |Listing(l, h)|
    ensures Listing(l, later) == Listing(l, h)[cut..]
    ensures forall i :: 0 <= i < cut ==> Listing(l, h)[i].logIndex <= later
    ensures forall i :: cut <= i < |Listing(l, h)| ==> later < Listing(l, h)[i].logIndex
  {
    var items := Listing(l, h);
    cut := 0;
    while cut < |items| && items[cut].logIndex <= later
      invariant cut <= |items|
      invariant forall i :: 0 <= i < cut ==> items[i].logIndex <= later
    {
      cut := cut + 1;
    }
    forall i | cut <= i < |items|
      ensures later < items[i].logIndex
    {
      assert i > cut ==> Before(items[cut], items[i]);
    }
    forall r
      ensures r in items[cut..] <==> Listed(l, later, r)
    {
      if Listed(l, later, r) {
        assert r in items;
        var i :| 0 <= i < |items| && items[i] == r;
        assert items[cut..][i - cut] == r;
      }
      if r in items[cut..] {
        var i :| 0 <= i < |items[cut..]| && items[cut..][i] == r;
        assert r == items[cut + i] && r in items;
      }
    }
    ListingIsUnique(l, later, items[cut..]);
  }

  /** Where the next request of a paging client starts. */
  ghost function LastIndex(l: Ledger, from: int, limit: nat): (last: int)
    requires WellFormed(l) && PageAfter(l, from, limit).hasMore
    ensures from < last && |Listing(l, last)| < |Listing(l, from)|
  {
    var items := Listing(l, from);
    var last := items[limit - 1].logIndex;
    assert from < last by {
      assert items[limit - 1] in items;
    }
    assert |Listing(l, last)| < |items| by {
      var cut := ListingIsSuffix(l, from, last);
    }
    last
  }

  /** Everything a client gets that asks again from the last index it was given
      until HasMore is false. The rows left decrease with every request. */
  ghost function AllPages(l: Ledger, from: int, limit: nat): seq<LogEntry>
    requires WellFormed(l)
    decreases |Listing(l, from)|
  {
    var page := PageAfter(l, from, limit);
    if !page.hasMore then page.entries
    else page.entries + AllPages(l, LastIndex(l, from, limit), limit)
  }

  ghost predicate DistinctIndices(items: seq<Payment>) {
    forall i, j :: 0 <= i < j < |items| ==> items[i].logIndex != items[j].logIndex
  }

  /** The condition holds in a table with one payment per index. */
  lemma OnePerIndexIsEnough(l: Ledger, from: int)
    requires WellFormed(l)
    requires forall p, q :: Has(l, p) && Has(l, q) && l.rows[p].logIndex == l.rows[q].logIndex ==> p == q
    ensures DistinctIndices(Listing(l, from))
  {
    var items := Listing(l, from);
    forall i, j | 0 <= i < j < |items|
      ensures items[i].logIndex != items[j].logIndex
    {
      var a, b := items[i], items[j];
      assert a in items && b in items && Before(a, b);
      assert Has(l, a.paymentID) && Has(l, b.paymentID);
    }
  }

  lemma {:induction false} PagesAreLossless(l: Ledger, from: int, limit: nat)
    requires WellFormed(l) && DistinctIndices(Listing(l, from))
    ensures AllPages(l, from, limit) == Entries(Listing(l, from))
    decreases |Listing(l, from)|
  {
    var items := Listing(l, from);
    if !PageAfter(l, from, limit).hasMore {
      assert items[..|items|] == items;
    } else {
      var last := LastIndex(l, from, limit);
      var cut := ListingIsSuffix(l, from, last);
      assert Before(items[limit - 1], items[limit]);
      assert cut == limit;
      PagesAreLossless(l, last, limit);
      assert Entries(items) == Entries(items[..limit]) + Entries(items[limit..]);
    }
  }

  lemma {:induction false} SinglesCountIndices(l: Ledger, from: int)
    requires WellFormed(l)
    ensures |AllPages(l, from, 1)| <= |Listing(l, from)|
    ensures |AllPages(l, from, 1)| == |Listing(l, from)| ==> DistinctIndices(Listing(l, from))
    decreases |Listing(l, from)|
  {
    var items := Listing(l, from);
    if !PageAfter(l, from, 1).hasMore {
    } else {
      var last := LastIndex(l, from, 1);
      var cut := ListingIsSuffix(l, from, last);
      SinglesCountIndices(l, last);
      if |AllPages(l, from, 1)| == |items| {
        assert cut == 1;
        forall i, j | 0 <= i < j < |items|
          ensures items[i].logIndex != items[j].logIndex
        {
          if i > 0 {
            assert items[1..][i - 1] == items[i] && items[1..][j - 1] == items[j];
          }
        }
      }
    }
  }

  /** Paging gives exactly the full list, each row once and in order, for every
      page size, if and only if no two listed rows share an index. */
  lemma PagingIsLosslessIffIndicesDiffer(l: Ledger, from: int)
    requires WellFormed(l)
    ensures (forall limit: nat :: AllPages(l, from, limit) == Entries(Listing(l, from)))
            <==> DistinctIndices(Listing(l, from))
  {
    if DistinctIndices(Listing(l, from)) {
      forall limit: nat
        ensures AllPages(l, from, limit) == Entries(Listing(l, from))
      {
        PagesAreLossless(l, from, limit);
      }
    } else {
      SinglesCountIndices(l, from);
      assert AllPages(l, from, 1) != Entries(Listing(l, from));
    }
  }
}
