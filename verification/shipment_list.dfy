/** The list logic of the admin dashboard and the customer portal: the search
    and status filter, the per-status statistics and the expand/collapse
    toggles. Both pages hold the same filter and statistics code. */
module ShipmentList {
  import opened Common
  import opened Records

  const AllStatuses := "all"

  /** The lower-cased search term occurs in the lower-cased tracking number,
      description (empty when absent), origin or destination. */
  predicate MatchesSearch(s: Shipment, term: string)
  {
    var t := Lower(term);
    || Contains(Lower(s.trackingNumber), t)
    || Contains(Lower(OrElse(s.description, "")), t)
    || Contains(Lower(s.origin), t)
    || Contains(Lower(s.destination), t)
  }

  predicate MatchesStatus(s: Shipment, statusFilter: string)
  {
    statusFilter == AllStatuses || s.status == statusFilter
  }

  predicate Kept(s: Shipment, term: string, statusFilter: string)
  {
    MatchesSearch(s, term) && MatchesStatus(s, statusFilter)
  }

  /** `shipments.filter(...)`. */
  function FilteredShipments(shipments: seq<Shipment>, term: string, statusFilter: string): (r: seq<Shipment>)
    ensures |r| <= |shipments|
    ensures forall x :: x in r ==> x in shipments && Kept(x, term, statusFilter)
  {
    if shipments == [] then []
    else
      (if Kept(shipments[0], term, statusFilter) then [shipments[0]] else [])
      + FilteredShipments(shipments[1..], term, statusFilter)
  }

  /** `a` is `b` with some elements left out, order kept. */
  ghost predicate IsSubsequence<T>(a: seq<T>, b: seq<T>)
    decreases |b|
  {
    if b == [] then a == []
    else (a != [] && a[0] == b[0] && IsSubsequence(a[1..], b[1..])) || IsSubsequence(a, b[1..])
  }

  /** The filtered list is the list with some shipments left out, order kept. */
  lemma {:induction false} FilteredShipmentsIsSubsequence(shipments: seq<Shipment>, term: string, statusFilter: string)
    ensures IsSubsequence(FilteredShipments(shipments, term, statusFilter), shipments)
  {
    if shipments != [] {
      FilteredShipmentsIsSubsequence(shipments[1..], term, statusFilter);
      var r := FilteredShipments(shipments, term, statusFilter);
      var rest := FilteredShipments(shipments[1..], term, statusFilter);
      if Kept(shipments[0], term, statusFilter) {
        assert r == [shipments[0]] + rest;
        assert r[0] == shipments[0] && r[1..] == rest;
      } else {
        assert r == rest;
      }
    }
  }

  /** The filter keeps each matching shipment as often as it occurs in the
      list, and no other. */
  lemma {:induction false} FilteredShipmentsCount(shipments: seq<Shipment>, term: string, statusFilter: string, x: Shipment)
    ensures multiset(FilteredShipments(shipments, term, statusFilter))[x]
      == if Kept(x, term, statusFilter) then multiset(shipments)[x] else 0
  {
    if shipments != [] {
      var head, tail := shipments[0], shipments[1..];
      assert shipments == [head] + tail;
      FilteredShipmentsCount(tail, term, statusFilter, x);
    }
  }

  /** A shipment is in the filtered list iff it is in the list and matches. */
  lemma FilteredShipmentsMembership(shipments: seq<Shipment>, term: string, statusFilter: string, x: Shipment)
    ensures x in FilteredShipments(shipments, term, statusFilter) <==> x in shipments && Kept(x, term, statusFilter)
  {
    FilteredShipmentsCount(shipments, term, statusFilter, x);
  }

  /** An empty search with the `all` filter shows the whole list. */
  lemma {:induction false} FilteredShipmentsShowsAll(shipments: seq<Shipment>)
    ensures FilteredShipments(shipments, "", AllStatuses) == shipments
  {
    if shipments != [] {
      ContainsEmpty(Lower(shipments[0].trackingNumber));
      assert Lower("") == "";
      FilteredShipmentsShowsAll(shipments[1..]);
    }
  }

  // ---------------------------------------------------------------------------
  // Statistics
  // ---------------------------------------------------------------------------

  datatype Stats = Stats(total: nat, inTransit: nat, delivered: nat, pending: nat, exception: nat)

  /** `shipments.filter(s => s.status === status).length`. */
  function CountStatus(shipments: seq<Shipment>, status: string): (n: nat)
    ensures n <= |shipments|
  {
    if shipments == [] then 0
    else (if shipments[0].status == status then 1 else 0) + CountStatus(shipments[1..], status)
  }

  predicate IsCounted(status: string)
  {
    status in {"in_transit", "delivered", "pending", "exception"}
  }

  /** Shipments whose status is none of the four counted ones. */
  function CountUncounted(shipments: seq<Shipment>): nat
  {
    if shipments == [] then 0
    else (if IsCounted(shipments[0].status) then 0 else 1) + CountUncounted(shipments[1..])
  }

  /** `getStatusStats()`. */
  function StatusStats(shipments: seq<Shipment>): (st: Stats)
    ensures st.total == |shipments|
    ensures st.inTransit == |FilteredShipments(shipments, "", "in_transit")|
    ensures st.delivered == |FilteredShipments(shipments, "", "delivered")|
    ensures st.pending == |FilteredShipments(shipments, "", "pending")|
    ensures st.exception == |FilteredShipments(shipments, "", "exception")|
  {
    CountStatusIsFilterLength(shipments, "in_transit");
    CountStatusIsFilterLength(shipments, "delivered");
    CountStatusIsFilterLength(shipments, "pending");
    CountStatusIsFilterLength(shipments, "exception");
    Stats(|shipments|,
      CountStatus(shipments, "in_transit"),
      CountStatus(shipments, "delivered"),
      CountStatus(shipments, "pending"),
      CountStatus(shipments, "exception"))
  }

  /** The four counts and the shipments in any other status (such as
      `out_for_delivery`) add up to the total; so the four never exceed it. */
  lemma {:induction false} StatusStatsPartition(shipments: seq<Shipment>)
    ensures var st := StatusStats(shipments);
      st.inTransit + st.delivered + st.pending + st.exception + CountUncounted(shipments) == st.total
  {
    if shipments != [] {
      StatusStatsPartition(shipments[1..]);
    }
  }

  /** Each per-status count is the length of the list the status filter shows
      with an empty search. */
  lemma {:induction false} CountStatusIsFilterLength(shipments: seq<Shipment>, status: string)
    requires status != AllStatuses
    ensures CountStatus(shipments, status) == |FilteredShipments(shipments, "", status)|
  {
    if shipments != [] {
      ContainsEmpty(Lower(shipments[0].trackingNumber));
      assert Lower("") == "";
      CountStatusIsFilterLength(shipments[1..], status);
    }
  }

  // ---------------------------------------------------------------------------
  // Expand / collapse
  // ---------------------------------------------------------------------------

  /** Copy the set, then delete `x` if present or add it if absent. */
  function Toggle<T(==,!new)>(expanded: set<T>, x: T): (r: set<T>)
    ensures x in r <==> x !in expanded
    ensures forall y :: y != x ==> (y in r <==> y in expanded)
  {
    if x in expanded then expanded - {x} else expanded + {x}
  }

  /** Toggling the same id twice restores the set. */
  lemma ToggleTwice<T(!new)>(expanded: set<T>, x: T)
    ensures Toggle(Toggle(expanded, x), x) == expanded
  {
  }
}
