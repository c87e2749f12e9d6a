/** The pure rules of src/components/dashboard/admin/OrderManagement.tsx:
    the status colour badge, the next status in the fulfilment flow, and the
    "Mark as" action that advances an order. */
module OrderManagement {
  import opened Wrappers
  import opened Text
  import opened Types
  import Helpers

  /** `getStatusColor`: its switch over the status string, with a gray default. */
  function GetStatusColor(status: string): string {
    if status == "DELIVERED" then "bg-green-100 text-green-800"
    else if status == "SHIPPED" then "bg-blue-100 text-blue-800"
    else if status == "CONFIRMED" || status == "PACKED" then "bg-yellow-100 text-yellow-800"
    else if status == "PLACED" then "bg-gray-100 text-gray-800"
    else if status == "CANCELLED" then "bg-red-100 text-red-800"
    else "bg-gray-100 text-gray-800"
  }

  const GrayBadge := "bg-gray-100 text-gray-800"

  /** The badge colours: CONFIRMED and PACKED share yellow, PLACED shares the
      gray of every unknown string, and the other three are distinct. */
  lemma StatusColorClasses(status: string)
    ensures GetStatusColor("CONFIRMED") == GetStatusColor("PACKED") == "bg-yellow-100 text-yellow-800"
    ensures GetStatusColor("PLACED") == GrayBadge
    ensures status !in {"DELIVERED", "SHIPPED", "CONFIRMED", "PACKED", "PLACED", "CANCELLED"} ==> GetStatusColor(status) == GrayBadge
    ensures GetStatusColor(status) == GrayBadge <==> status !in {"DELIVERED", "SHIPPED", "CONFIRMED", "PACKED", "CANCELLED"}
    ensures GetStatusColor("CANCELLED") == "bg-red-100 text-red-800"
    ensures GetStatusColor("SHIPPED") == "bg-blue-100 text-blue-800"
    ensures GetStatusColor("DELIVERED") == "bg-green-100 text-green-800"
  {
  }

  /** The admin badge and `getOrderStatusColor` of the helpers group the
      statuses identically: two status strings share a badge in one map
      exactly when they share it in the other. */
  lemma ColorMapsAgree(s: string, t: string)
    ensures GetStatusColor(s) == GetStatusColor(t) <==> Helpers.GetOrderStatusColor(s) == Helpers.GetOrderStatusColor(t)
  {
    BadgesByHue(s);
    BadgesByHue(t);
    BadgesDistinct(HueOf(s), HueOf(t));
  }

  /** The colour family both maps pick for a status string. */
  datatype Hue = Green | Blue | Yellow | Gray | Red

  function HueOf(status: string): Hue {
    if status == "DELIVERED" then Green
    else if status == "SHIPPED" then Blue
    else if status == "CONFIRMED" || status == "PACKED" then Yellow
    else if status == "CANCELLED" then Red
    else Gray
  }

  function AdminBadge(h: Hue): string {
    match h
    case Green => "bg-green-100 text-green-800"
    case Blue => "bg-blue-100 text-blue-800"
    case Yellow => "bg-yellow-100 text-yellow-800"
    case Gray => "bg-gray-100 text-gray-800"
    case Red => "bg-red-100 text-red-800"
  }

  function HelperBadge(h: Hue): string {
    match h
    case Green => "text-green-600 bg-green-100"
    case Blue => "text-blue-600 bg-blue-100"
    case Yellow => "text-yellow-600 bg-yellow-100"
    case Gray => "text-gray-600 bg-gray-100"
    case Red => "text-red-600 bg-red-100"
  }

  /** Each map is its hue's badge. */
  lemma BadgesByHue(s: string)
    ensures GetStatusColor(s) == AdminBadge(HueOf(s))
    ensures Helpers.GetOrderStatusColor(s) == HelperBadge(HueOf(s))
  {
  }

  /** Different hues give different badges in both maps. */
  lemma BadgesDistinct(h: Hue, k: Hue)
    ensures AdminBadge(h) == AdminBadge(k) <==> h == k
    ensures HelperBadge(h) == HelperBadge(k) <==> h == k
  {
    if h != k {
      assert AdminBadge(h)[3] != AdminBadge(k)[3] || AdminBadge(h)[5] != AdminBadge(k)[5];
      assert HelperBadge(h)[5] != HelperBadge(k)[5] || HelperBadge(h)[7] != HelperBadge(k)[7];
    }
  }

  /** The fulfilment order of `statusFlow`; CANCELLED is not part of it. */
  const StatusFlow: seq<OrderStatus> := [Placed, Confirmed, Packed, Shipped, Delivered]

  /** `getNextStatus`: `indexOf` in the flow, then the following entry while
      there is one. A status outside the flow has index -1, so its "next"
      is the first entry. */
  function GetNextStatus(current: OrderStatus): (r: Option<OrderStatus>)
    ensures r.Some? ==> r.value in StatusFlow && r.value != Cancelled
    ensures r.None? ==> current == Delivered
  {
    var i := IndexOf(StatusFlow, current);
    if i < |StatusFlow| - 1 then Some(StatusFlow[i + 1]) else None
  }

  /** The flow itself: each status before DELIVERED moves to the following one
      and DELIVERED has none. */
  lemma NextStatusFollowsFlow(k: int)
    requires 0 <= k < |StatusFlow|
    ensures GetNextStatus(StatusFlow[k]) == if k < |StatusFlow| - 1 then Some(StatusFlow[k + 1]) else None
  {
    assert StatusFlow[k] in StatusFlow;
    assert forall j | 0 <= j < |StatusFlow| && j != k :: StatusFlow[j] != StatusFlow[k];
  }

  /** The whole map, case by case. */
  lemma NextStatusTable()
    ensures GetNextStatus(Placed) == Some(Confirmed)
    ensures GetNextStatus(Confirmed) == Some(Packed)
    ensures GetNextStatus(Packed) == Some(Shipped)
    ensures GetNextStatus(Shipped) == Some(Delivered)
    ensures GetNextStatus(Delivered) == None
    ensures GetNextStatus(Cancelled) == Some(Placed)
  {
    NextStatusFollowsFlow(0);
    NextStatusFollowsFlow(1);
    NextStatusFollowsFlow(2);
    NextStatusFollowsFlow(3);
    NextStatusFollowsFlow(4);
    CancelledGoesToPlaced();
  }

  /** The quirk: CANCELLED is not in the flow, so its next status is PLACED. */
  lemma CancelledGoesToPlaced()
    ensures IndexOf(StatusFlow, Cancelled) == -1
    ensures GetNextStatus(Cancelled) == Some(Placed)
  {
  }

  /** The next status is never CANCELLED, and it is absent only for DELIVERED. */
  lemma NeverCancelled(s: OrderStatus)
    ensures GetNextStatus(s) != Some(Cancelled)
    ensures GetNextStatus(s).None? <==> s == Delivered
  {
    NextStatusTable();
  }

  /** `getNextStatus` applied `n` times, stopping once there is no next status. */
  function Advance(s: OrderStatus, n: nat): Option<OrderStatus>
    decreases n
  {
    if n == 0 then Some(s)
    else match GetNextStatus(s)
      case None => None
      case Some(t) => Advance(t, n - 1)
  }

  /** From PLACED, DELIVERED comes after exactly four advances, and a fifth
      advance yields nothing; CANCELLED takes one more. */
  lemma PlacedReachesDeliveredInFour()
    ensures forall n: nat :: n < 4 ==> Advance(Placed, n) != Some(Delivered)
    ensures Advance(Placed, 4) == Some(Delivered)
    ensures Advance(Placed, 5).None?
    ensures Advance(Cancelled, 5) == Some(Delivered)
  {
    forall n: nat | n < 4 {
      EveryStatusEndsDelivered(Placed, n);
    }
    EveryStatusEndsDelivered(Placed, 4);
    EveryStatusEndsDelivered(Placed, 5);
    EveryStatusEndsDelivered(Cancelled, 5);
  }

  /** How many advances take `s` to DELIVERED. */
  function StepsToDelivered(s: OrderStatus): nat {
    match s
    case Placed => 4
    case Confirmed => 3
    case Packed => 2
    case Shipped => 1
    case Delivered => 0
    case Cancelled => 5
  }

  /** Advancing one step at a time, every status ends at DELIVERED after
      `StepsToDelivered(s)` advances, never meets CANCELLED on the way, and
      has nothing after that. */
  lemma {:induction false} EveryStatusEndsDelivered(s: OrderStatus, n: nat)
    ensures n < StepsToDelivered(s) ==> Advance(s, n).Some? && Advance(s, n).value != Delivered
    ensures n > 0 ==> Advance(s, n) != Some(Cancelled)
    ensures n == StepsToDelivered(s) ==> Advance(s, n) == Some(Delivered)
    ensures n > StepsToDelivered(s) ==> Advance(s, n).None?
    decreases n
  {
    if n > 0 {
      OneStepCloser(s);
      if s != Delivered {
        EveryStatusEndsDelivered(GetNextStatus(s).value, n - 1);
      }
    }
  }

  /** One advance brings every status but DELIVERED one step closer to it,
      and never to CANCELLED. */
  lemma OneStepCloser(s: OrderStatus)
    ensures s == Delivered <==> GetNextStatus(s).None?
    ensures s != Delivered ==> GetNextStatus(s).value != Cancelled &&
                               StepsToDelivered(GetNextStatus(s).value) + 1 == StepsToDelivered(s)
  {
    NextStatusTable();
  }

  /** `replace('_', ' ')` on a string: the first underscore becomes a space. */
  function ReplaceFirstUnderscore(s: string): (r: string)
    ensures '_' !in s ==> r == s
    ensures |r| == |s|
    ensures forall k :: 0 <= k < |s| ==> r[k] == if k == IndexOf(s, '_') then ' ' else s[k]
  {
    var i := IndexOf(s, '_');
    if i == -1 then s else s[..i] + " " + s[i + 1..]
  }

  /** The "Mark as" button of an order row: offered only when there is a next
      status, labelled with that status. */
  function MarkAsLabel(status: OrderStatus): Option<string> {
    match GetNextStatus(status)
    case None => None
    case Some(next) => Some("Mark as " + ReplaceFirstUnderscore(StatusName(next)))
  }

  /** The action is offered exactly when `getNextStatus` is non-null, it is
      labelled with the next status' name, and a CANCELLED order is offered
      "Mark as PLACED". */
  lemma MarkAsOfferedIffNext(status: OrderStatus)
    ensures MarkAsLabel(status).Some? <==> GetNextStatus(status).Some?
    ensures MarkAsLabel(status).Some? ==> MarkAsLabel(status).value == "Mark as " + StatusName(GetNextStatus(status).value)
    ensures status == Cancelled ==> MarkAsLabel(status) == Some("Mark as " + StatusName(Placed))
    ensures status == Delivered ==> MarkAsLabel(status).None?
  {
    NextStatusTable();
    var next := GetNextStatus(status);
    if next.Some? {
      NamesHaveNoUnderscore(next.value);
    }
  }

  lemma NamesHaveNoUnderscore(s: OrderStatus)
    ensures '_' !in StatusName(s)
  {
  }

  /** The colour of the payment-status line: green when completed, yellow
      while pending, red otherwise. */
  function PaymentStatusColor(p: PaymentStatus): (r: string)
    ensures r == "text-green-600" <==> p == Completed
    ensures r == "text-yellow-600" <==> p == Pending
    ensures p == PaymentFailed ==> r == "text-red-600"
  {
    if p == Completed then "text-green-600" else if p == Pending then "text-yellow-600" else "text-red-600"
  }
}
