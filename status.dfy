/** The storefront's status vocabulary: the canonical statuses with their badge
    label and tone, the table from every backend status string to a canonical
    key, and the three resolvers built on them. A raw status is `None` for
    `null`/`undefined`; `""` is the other falsy string. */
module Status {
  import opened Wrappers

  /** What a badge shows for a canonical status (`text` is the entry's `label`). */
  datatype Badge = Badge(text: string, tone: string)

  const Unknown: string := "unknown"

  const CanonicalStatuses: map<string, Badge> := map[
    "order_placed" := Badge("Order Placed", "amber"),
    "preparing" := Badge("Preparing Shipment", "rose"),
    "in_transit" := Badge("In Transit", "sky"),
    "out_for_delivery" := Badge("Out for Delivery", "indigo"),
    "delivered" := Badge("Delivered", "emerald"),
    "payment_pending" := Badge("Payment Pending", "amber"),
    "paid" := Badge("Paid", "emerald"),
    "canceled" := Badge("Canceled", "slate"),
    "unknown" := Badge("Status Unknown", "slate")
  ]

  const BackendStatusToCanonical: map<string, string> := map[
    "Dipesan" := "order_placed",
    "Dalam Pengiriman" := "out_for_delivery",
    "Selesai" := "delivered",
    "Processing" := "preparing",
    "shipment_processing" := "preparing",
    "Shipped" := "in_transit",
    "In Transit" := "in_transit",
    "on_delivery" := "out_for_delivery",
    "Delivered" := "delivered",
    "Tertunda" := "payment_pending",
    "Berhasil" := "paid",
    "Failed" := "canceled",
    "Canceled" := "canceled"
  ]

  /** The names every plain JavaScript object inherits from `Object.prototype`;
      indexing a plain object literal with one of them yields a function or an
      object, never `undefined`. */
  const PrototypeMembers: set<string> := {
    "constructor", "toString", "toLocaleString", "valueOf", "hasOwnProperty",
    "isPrototypeOf", "propertyIsEnumerable", "__proto__", "__defineGetter__",
    "__defineSetter__", "__lookupGetter__", "__lookupSetter__"
  }

  const UnknownBadge: Badge := Badge("Status Unknown", "slate")

  predicate Truthy(raw: Option<string>) {
    raw.Some? && raw.value != ""
  }

  /** What `BACKEND_STATUS_TO_CANONICAL[raw]` evaluates to: an own entry, an
      inherited prototype member, or `undefined`. */
  datatype Indexed = Entry(key: string) | Inherited(member: string) | Undefined

  function IndexBackend(raw: string): Indexed {
    if raw in BackendStatusToCanonical then Entry(BackendStatusToCanonical[raw])
    else if raw in PrototypeMembers then Inherited(raw)
    else Undefined
  }

  /** `resolveCanonicalStatusKey` as written: a truthy inherited member passes the
      `|| 'unknown'` fallback, so the result is not always a string key. */
  function ResolveCanonicalStatusKeyAsWritten(raw: Option<string>): (r: Indexed)
    ensures r.Undefined? == false
    ensures r.Inherited? <==> Truthy(raw) && raw.value in PrototypeMembers
  {
    if !Truthy(raw) then Entry(Unknown)
    else match IndexBackend(raw.value)
      case Entry(k) => Entry(k)
      case Inherited(m) => Inherited(m)
      case Undefined => Entry(Unknown)
  }

  /** The backend name "toString" resolves to an inherited function rather than to
      "unknown". */
  lemma PrototypeNameLeaks()
    ensures ResolveCanonicalStatusKeyAsWritten(Some("toString")) == Inherited("toString")
    ensures !ResolveCanonicalStatusKeyAsWritten(Some("toString")).Entry?
  {
  }

  /** `resolveCanonicalStatusKey` with an own-property lookup: always a canonical
      key, and "unknown" exactly when the raw status is falsy or not a backend status. */
  function ResolveCanonicalStatusKey(raw: Option<string>): (r: string)
    ensures r in CanonicalStatuses
    ensures r == Unknown <==> !Truthy(raw) || raw.value !in BackendStatusToCanonical
    ensures Truthy(raw) && raw.value in BackendStatusToCanonical ==> r == BackendStatusToCanonical[raw.value]
  {
    if !Truthy(raw) || raw.value !in BackendStatusToCanonical then Unknown
    else BackendStatusToCanonical[raw.value]
  }

  /** The corrected key agrees with the code as written everywhere except on the
      inherited names. */
  lemma KeyAgreesOffPrototype(raw: Option<string>)
    requires !(Truthy(raw) && raw.value in PrototypeMembers)
    ensures ResolveCanonicalStatusKeyAsWritten(raw) == Entry(ResolveCanonicalStatusKey(raw))
  {
  }

  /** `resolveCanonicalStatus`, as written. Indexing `CANONICAL_STATUSES` with an
      inherited function converts it to its source text, which names no status. */
  function ResolveCanonicalStatus(raw: Option<string>): (b: Badge)
    ensures b in CanonicalStatuses.Values
  {
    if !Truthy(raw) then CanonicalStatuses[Unknown]
    else match ResolveCanonicalStatusKeyAsWritten(raw)
      case Entry(k) => if k in CanonicalStatuses then CanonicalStatuses[k] else CanonicalStatuses[Unknown]
      case Inherited(_) => CanonicalStatuses[Unknown]
      case Undefined => CanonicalStatuses[Unknown]
  }

  /** The badge is always the one of the corrected key, so the badge resolver is
      right even where the key resolver is not. */
  lemma BadgeMatchesKey(raw: Option<string>)
    ensures ResolveCanonicalStatus(raw) == CanonicalStatuses[ResolveCanonicalStatusKey(raw)]
    ensures ResolveCanonicalStatus(raw) == UnknownBadge <==> ResolveCanonicalStatusKey(raw) == Unknown
  {
    if Truthy(raw) && raw.value in BackendStatusToCanonical {
      var k := BackendStatusToCanonical[raw.value];
      assert k in CanonicalStatuses && k != Unknown;
      assert CanonicalStatuses[k] != UnknownBadge;
    }
  }

  /** Every status the order service writes resolves to a real badge: Dipesan,
      Dalam Pengiriman and Selesai. */
  lemma OrderStatusesKnown()
    ensures ResolveCanonicalStatusKey(Some("Dipesan")) == "order_placed"
    ensures ResolveCanonicalStatusKey(Some("Dalam Pengiriman")) == "out_for_delivery"
    ensures ResolveCanonicalStatusKey(Some("Selesai")) == "delivered"
  {
  }

  /** Every status the payment service writes resolves to a real badge: Tertunda
      and Berhasil. */
  lemma PaymentStatusesKnown()
    ensures ResolveCanonicalStatusKey(Some("Tertunda")) == "payment_pending"
    ensures ResolveCanonicalStatusKey(Some("Berhasil")) == "paid"
  {
  }

  /** Every status ShipXpress writes resolves to a real badge: Processing, Shipped,
      In Transit and Delivered. */
  lemma ShipXpressStatusesKnown()
    ensures ResolveCanonicalStatusKey(Some("Processing")) == "preparing"
    ensures ResolveCanonicalStatusKey(Some("Shipped")) == "in_transit"
    ensures ResolveCanonicalStatusKey(Some("In Transit")) == "in_transit"
    ensures ResolveCanonicalStatusKey(Some("Delivered")) == "delivered"
  {
  }

  /** The lookup is exact and case-sensitive: "delivered" is not a backend status. */
  lemma LookupCaseSensitive()
    ensures ResolveCanonicalStatusKey(Some("delivered")) == Unknown
    ensures ResolveCanonicalStatus(Some("delivered")) == UnknownBadge
  {
    assert "delivered" !in BackendStatusToCanonical;
  }

  /** The fields of an order `resolveOrderStatus` reads. */
  datatype OrderView = OrderView(shipmentStatus: Option<string>, status: Option<string>)

  /** `resolveOrderStatus`: the shipment status wins when it is set and non-empty,
      else the order's own status; no order at all is unknown. */
  function ResolveOrderStatus(order: Option<OrderView>): (b: Badge)
    ensures order.None? ==> b == UnknownBadge
    ensures order.Some? && Truthy(order.value.shipmentStatus) ==> b == ResolveCanonicalStatus(order.value.shipmentStatus)
    ensures order.Some? && !Truthy(order.value.shipmentStatus) ==> b == ResolveCanonicalStatus(order.value.status)
  {
    if order.None? then CanonicalStatuses[Unknown]
    else
      var source := if Truthy(order.value.shipmentStatus) then order.value.shipmentStatus else order.value.status;
      ResolveCanonicalStatus(source)
  }
}
