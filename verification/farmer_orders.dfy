/** The farmer's order table (eswika-frontend/src/pages/FarmerOrders.jsx):
    which fetched orders the status buttons and the search box let through,
    and the badge colour of each status. */
module FarmerOrders {
  import opened Common
  import opened Text
  import Models

  /** The fields of a fetched order the filter and the badge read. */
  datatype OrderView = OrderView(id: nat, status: string, deliveryAddress: string)

  /** The status buttons, in the order they are drawn. */
  const OrderStatuses: seq<string> := ["all", "pending", "processing", "shipped", "delivered", "cancelled"]

  /** `statusFilter === 'all' || order.status === statusFilter`. */
  predicate MatchesStatus(statusFilter: string, o: OrderView)
  {
    statusFilter == "all" || o.status == statusFilter
  }

  /** The address, lower-cased, contains the lower-cased query, or the
      decimal id contains the query as typed. */
  predicate MatchesSearch(query: string, o: OrderView)
  {
    Includes(ToLower(o.deliveryAddress), ToLower(query)) || Includes(NatToString(o.id), query)
  }

  /** `filteredOrders`. */
  function FilteredOrders(orders: seq<OrderView>, statusFilter: string, query: string): (r: seq<OrderView>)
    ensures forall o :: o in r <==> o in orders && MatchesStatus(statusFilter, o) && MatchesSearch(query, o)
    ensures forall o :: multiset(r)[o] ==
              if MatchesStatus(statusFilter, o) && MatchesSearch(query, o) then multiset(orders)[o] else 0
    ensures IsSubsequence(r, orders)
    ensures statusFilter != "all" ==> forall o :: o in r ==> o.status == statusFilter
  {
    Filter(orders, (o: OrderView) => MatchesStatus(statusFilter, o) && MatchesSearch(query, o))
  }

  /** The initial filter, `'all'` with an empty search box, shows every
      fetched order in the order it came. */
  lemma {:induction false} InitialFilterShowsAll(orders: seq<OrderView>)
    ensures FilteredOrders(orders, "all", "") == orders
  {
    forall o | o in orders
      ensures MatchesSearch("", o)
    {
      EmptyIsIncluded(ToLower(o.deliveryAddress));
    }
    FilterKeepsAll(orders, (o: OrderView) => MatchesStatus("all", o) && MatchesSearch("", o));
  }

  /** An empty search matches every order, so only the status filter acts. */
  lemma {:induction false} EmptySearchMatchesAll(o: OrderView)
    ensures MatchesSearch("", o)
  {
    EmptyIsIncluded(ToLower(o.deliveryAddress));
  }

  /** Typing an order's number finds that order. */
  lemma {:induction false} SearchById(o: OrderView)
    ensures MatchesSearch(NatToString(o.id), o)
  {
    assert OccursAt(NatToString(o.id), NatToString(o.id), 0);
  }

  /** Lower-casing never makes or unmakes a digit. */
  lemma LowerCharDigit(c: char)
    ensures IsDigit(LowerChar(c)) <==> IsDigit(c)
    ensures IsDigit(c) ==> LowerChar(c) == c
  {
  }

  /** Lower-casing twice is lower-casing once. */
  lemma {:induction false} ToLowerIdempotent(s: string)
    ensures ToLower(ToLower(s)) == ToLower(s)
  {
    assert forall i :: 0 <= i < |s| ==> LowerChar(LowerChar(s[i])) == LowerChar(s[i]);
  }

  /** Whatever occurs in a run of digits is itself a run of digits. */
  lemma {:induction false} IncludedInDigits(hay: string, needle: string)
    requires AllDigits(hay) && Includes(hay, needle)
    ensures AllDigits(needle)
  {
    var i :| OccursAt(hay, needle, i);
    forall k | 0 <= k < |needle|
      ensures IsDigit(needle[k])
    {
      assert needle[k] == hay[i..i + |needle|][k] == hay[i + k];
    }
  }

  /** The search ignores the case of the query: typing it in capitals finds
      the same orders. */
  lemma {:induction false} SearchIgnoresQueryCase(query: string, o: OrderView)
    ensures MatchesSearch(ToLower(query), o) <==> MatchesSearch(query, o)
  {
    ToLowerIdempotent(query);
    var digits := NatToString(o.id);
    if AllDigits(query) {
      forall i | 0 <= i < |query|
        ensures ToLower(query)[i] == query[i]
      {
        LowerCharDigit(query[i]);
      }
      assert ToLower(query) == query;
    } else {
      var k :| 0 <= k < |query| && !IsDigit(query[k]);
      LowerCharDigit(query[k]);
      assert !AllDigits(ToLower(query));
      if Includes(digits, query) {
        IncludedInDigits(digits, query);
      }
      if Includes(digits, ToLower(query)) {
        IncludedInDigits(digits, ToLower(query));
      }
    }
  }

  /** The badge classes of the five known statuses. */
  const StatusColors: map<string, string> := map[
    "pending" := "bg-yellow-100 text-yellow-800",
    "processing" := "bg-blue-100 text-blue-800",
    "shipped" := "bg-purple-100 text-purple-800",
    "delivered" := "bg-green-100 text-green-800",
    "cancelled" := "bg-red-100 text-red-800"
  ]

  const DefaultColor := "bg-gray-100 text-gray-800"

  /** `getStatusColor(status)`. */
  function StatusColor(status: string): string
  {
    if status in StatusColors then StatusColors[status] else DefaultColor
  }

  /** Each known status has its own colour; every other status is gray. */
  lemma StatusColorTable(status: string)
    ensures StatusColor("pending") == "bg-yellow-100 text-yellow-800"
    ensures StatusColor("processing") == "bg-blue-100 text-blue-800"
    ensures StatusColor("shipped") == "bg-purple-100 text-purple-800"
    ensures StatusColor("delivered") == "bg-green-100 text-green-800"
    ensures StatusColor("cancelled") == "bg-red-100 text-red-800"
    ensures StatusColor(status) == DefaultColor <==> status !in StatusColors
  {
  }

  /** The orders the store makes for a payment still to be settled carry
      `awaiting_payment`: no status button but "all" shows them, and their
      badge is gray. */
  lemma AwaitingPaymentOnlyUnderAll(o: OrderView, statusFilter: string)
    requires o.status == Models.StatusAwaitingPayment
    requires statusFilter in OrderStatuses
    ensures MatchesStatus(statusFilter, o) <==> statusFilter == "all"
    ensures StatusColor(o.status) == DefaultColor
  {
  }
}
