/**
  The Segment analytics integration for Easy Digital Downloads (EDD).

  Cart and checkout actions happen on one request, and the analytics call that
  reports them is made on the next page render. The integration bridges the
  two with cookies: a producer writes a payload under a fixed cookie name, and
  a consumer on a later render reads the payload and turns it into a track
  event. If there is no usable payload, the consumer hands back the value the
  pipeline gave it. Catalog, order and page-query lookups belong to WordPress
  and EDD; here they are values of arrow-typed fields the caller supplies.
 */
module EasyDigitalDownloads {
  import opened PhpValues

  // Cookie names; each doubles as the `http_event` tag of the event it feeds.
  const ADDED_TO_CART := "added_to_cart"
  const REMOVED_FROM_CART := "removed_from_cart"
  const COMPLETED_PURCHASE := "completed_purchase"

  // Keys of the arrays the integration builds and reads.
  const DOWNLOAD_ID := "download_id"
  const OPTIONS := "options"
  const PAYMENT_ID := "payment_id"
  const QUANTITY := "quantity"
  const PRICE_ID := "price_id"
  const ID := "id"
  const NAME := "name"
  const PRICE := "price"
  const CATEGORY := "category"
  const SKU := "sku"
  const TERM_ID := "term_id"
  const USER_INFO := "user_info"

  // Form fields of the submitted add-to-cart form.
  const QUANTITY_FIELD := "edd_download_quantity"
  const QUANTITY_FIELD_PREFIX := "edd_download_quantity_"

  const DOWNLOAD_TAG := "download_tag"

  /** What a cookie holds, once `maybe_get_cookie_data` has decoded it: the
      decoded data, or a string that `json_decode` rejects. */
  datatype Payload = Encoded(data: Value) | Malformed

  /** The visitor's cookies by name. */
  type Store = map<string, Payload>

  /** Read-only catalog lookups, keyed by download id (`edd_*`, `get_the_title`,
      `get_the_terms`). */
  datatype Catalog = Catalog(
    hasVariablePrices: int -> bool,        // edd_has_variable_prices
    priceOptionAmount: (int, Value) -> Value, // edd_get_price_option_amount
    downloadPrice: int -> Value,           // edd_get_download_price
    title: int -> Value,                   // the title with its tags stripped
    categoryNames: int -> seq<string>,     // names of the download_category terms
    useSkus: bool,                         // edd_use_skus
    sku: int -> Value,                     // edd_get_download_sku
    singularLabel: string)                 // edd_get_label_singular

  /** The order facts `completed_order` adds to the payment meta. */
  datatype OrderField =
    | PaymentKey | PaymentNumber | TransactionId | Subtotal | Total | Tax
    | Currency | Gateway | UserIp | CustomerId | IsGuest

  /** Read-only order lookups, keyed by payment id (`edd_get_payment_*`). */
  datatype Orders = Orders(
    meta: Value -> map<string, Value>,     // edd_get_payment_meta
    field: (OrderField, Value) -> Value)

  /** The WordPress main query of the page being rendered. */
  datatype Query = Query(
    isDownloadTaxonomy: bool,  // is_tax( download_tag or download_category )
    termTaxonomy: string,      // the queried term's taxonomy
    termId: Value,             // the queried term's id
    termTitle: string,         // single_term_title
    isSingularDownload: bool,  // is_singular( 'download' )
    objectId: int)             // get_queried_object_id

  /** Event names. Translation and `sprintf` are left abstract: each name is the
      template it comes from together with the values filled into it. */
  datatype Title =
    | ViewedTag(term: string, singular: string)       // "Viewed %s %s Tag"
    | ViewedCategory(term: string, singular: string)  // "Viewed %s %s Category"
    | Added(singular: string)                         // "Added %s"
    | Removed(singular: string)                       // "Removed %s"
    | CompletedOrder                               // "Completed Order"
    | ViewedItem(singular: string)                    // "Viewed %s"

  /** What a hook hands back to the pipeline: the value it was given, untouched,
      or an `analytics.page()` or `analytics.track()` call. */
  datatype Event =
    | Untouched(raw: Value)
    | Page(page: Title, properties: map<string, Value>)
    | Track(event: Title, properties: map<string, Value>, httpEvent: Option<string>)

  // ---------------------------------------------------------------------------
  // Producers: the payloads written on the request where the action happens

  /** The form field holding the quantity of one price variant. */
  function VariantField(priceId: Value): string {
    QUANTITY_FIELD_PREFIX + ToStr(priceId)
  }

  /** The options `add_to_cart` stores: EDD's options, with the quantity
      recovered from the submitted form (`rawPost` is `$_POST['post_data']`,
      `post` what `parse_str` makes of it) when EDD did not pass one. A set
      variant field beats the generic field, which counts only when non-empty. */
  function BackfilledOptions(options: map<string, Value>, rawPost: Value, post: map<string, Value>): (r: map<string, Value>)
    ensures Empty(rawPost) || IsSet(options, QUANTITY) ==> r == options
    ensures r != options ==> QUANTITY in r && r[QUANTITY].Int? && r[QUANTITY].i >= 0
    ensures r == options[QUANTITY := Get(r, QUANTITY)] || r == options
    ensures !Empty(rawPost) && !IsSet(options, QUANTITY) && IsSet(options, PRICE_ID)
            && IsSet(post, VariantField(options[PRICE_ID]))
            ==> Get(r, QUANTITY) == Int(AbsInt(post[VariantField(options[PRICE_ID])]))
    ensures !Empty(rawPost) && !IsSet(options, QUANTITY)
            && !(IsSet(options, PRICE_ID) && IsSet(post, VariantField(options[PRICE_ID])))
            ==> r == if Empty(Get(post, QUANTITY_FIELD)) then options
                     else options[QUANTITY := Int(AbsInt(post[QUANTITY_FIELD]))]
  {
    if Empty(rawPost) || IsSet(options, QUANTITY) then options
    else if IsSet(options, PRICE_ID) && IsSet(post, VariantField(options[PRICE_ID])) then
      options[QUANTITY := Int(AbsInt(post[VariantField(options[PRICE_ID])]))]
    else if !Empty(Get(post, QUANTITY_FIELD)) then
      options[QUANTITY := Int(AbsInt(post[QUANTITY_FIELD]))]
    else options
  }

  /** `update_add_to_cart_quantity`, step by step as the source does it: the
      generic field first, then the variant field over it. */
  method UpdateAddToCartQuantity(options: map<string, Value>, rawPost: Value, post: map<string, Value>)
    returns (updated: map<string, Value>)
    ensures updated == BackfilledOptions(options, rawPost, post)
  {
    updated := options;
    if Empty(rawPost) || IsSet(options, QUANTITY) {
      return;
    }
    if !Empty(Get(post, QUANTITY_FIELD)) {
      updated := updated[QUANTITY := Int(AbsInt(post[QUANTITY_FIELD]))];
    }
    if IsSet(updated, PRICE_ID) {
      var priceId := updated[PRICE_ID];
      var field := VariantField(priceId);
      if IsSet(post, field) {
        updated := updated[QUANTITY := Int(AbsInt(post[field]))];
      }
    }
  }

  /** The `{download_id, options}` array the cart producers store. */
  function CartPayload(downloadId: Value, options: map<string, Value>): (p: Value)
    ensures p.Arr? && p.entries.Keys == {DOWNLOAD_ID, OPTIONS} && Truthy(p)
    ensures Index(p, DOWNLOAD_ID) == downloadId && Index(p, OPTIONS) == Arr(options)
  {
    Arr(map[DOWNLOAD_ID := downloadId, OPTIONS := Arr(options)])
  }

  /** `$cart[$cart_key]`, null where there is no such slot. */
  function CartSlot(cart: seq<Value>, cartKey: int): Value {
    if 0 <= cartKey < |cart| then cart[cartKey] else Null
  }

  /** `$cart_item['options']` when it is set, otherwise an empty array. */
  function CartItemOptions(item: Value): map<string, Value> {
    var o := Index(item, OPTIONS);
    if o.Arr? then o.entries else map[]
  }

  /** What `remove_from_cart` stores for cart slot `cartKey`: nothing when the
      slot is missing or its `id` is empty, otherwise the item's id and its
      options with `quantity` forced to 0 and every other option kept. */
  function RemovalPayload(cart: seq<Value>, cartKey: int): (p: Option<Value>)
    ensures p.None? <==> CartSlot(cart, cartKey) == Null || Empty(Index(CartSlot(cart, cartKey), ID))
    ensures p.Some? ==>
              var o := Index(p.value, OPTIONS);
              && p.value.Arr? && p.value.entries.Keys == {DOWNLOAD_ID, OPTIONS}
              && Index(p.value, DOWNLOAD_ID) == Index(CartSlot(cart, cartKey), ID)
              && o.Arr? && Get(o.entries, QUANTITY) == Int(0)
              && o.entries.Keys == CartItemOptions(CartSlot(cart, cartKey)).Keys + {QUANTITY}
              && forall k :: (k in CartItemOptions(CartSlot(cart, cartKey)) && k != QUANTITY)
                               ==> o.entries[k] == CartItemOptions(CartSlot(cart, cartKey))[k]
  {
    var item := CartSlot(cart, cartKey);
    if item == Null || Empty(Index(item, ID)) then None
    else Some(CartPayload(Index(item, ID), CartItemOptions(item)[QUANTITY := Int(0)]))
  }

  /** The `{payment_id}` array `complete_order` stores. */
  function PurchasePayload(paymentId: Value): (p: Value)
    ensures p.Arr? && p.entries.Keys == {PAYMENT_ID} && Truthy(p)
    ensures Index(p, PAYMENT_ID) == paymentId
  {
    Arr(map[PAYMENT_ID := paymentId])
  }

  /** The integration object. Its state is the visitor's Segment cookies, which
      the producers write and the consumers read on a later render. */
  class Integration {
    var cookies: Store

    constructor (cookies: Store)
      ensures this.cookies == cookies
    {
      this.cookies := cookies;
    }

    /** `Segment_Cookie::set_cookie( name, json_encode( data ) )`: the new
        payload replaces whatever was stored under `name`. */
    method SetCookie(name: string, data: Value)
      modifies this
      ensures cookies == old(cookies)[name := Encoded(data)]
    {
      cookies := cookies[name := Encoded(data)];
    }

    /** `add_to_cart`: stores the download id and the back-filled options. */
    method AddToCart(downloadId: Value, options: map<string, Value>, rawPost: Value, post: map<string, Value>)
      modifies this
      ensures cookies == old(cookies)[ADDED_TO_CART := Encoded(CartPayload(downloadId, BackfilledOptions(options, rawPost, post)))]
    {
      var updated := UpdateAddToCartQuantity(options, rawPost, post);
      var details := map[DOWNLOAD_ID := downloadId, OPTIONS := Arr(updated)];
      SetCookie(ADDED_TO_CART, Arr(details));
    }

    /** `remove_from_cart`: stores the removed item with quantity 0, or writes
        nothing when the cart slot has no usable item. */
    method RemoveFromCart(cartKey: int, cart: seq<Value>)
      modifies this
      ensures RemovalPayload(cart, cartKey).None? ==> cookies == old(cookies)
      ensures RemovalPayload(cart, cartKey).Some? ==>
                cookies == old(cookies)[REMOVED_FROM_CART := Encoded(RemovalPayload(cart, cartKey).value)]
    {
      var cartItem := if 0 <= cartKey < |cart| then cart[cartKey] else Null;
      if cartItem == Null || Empty(Index(cartItem, ID)) {
        return;
      }
      var itemOptions := if Index(cartItem, OPTIONS).Arr? then Index(cartItem, OPTIONS).entries else map[];
      itemOptions := itemOptions[QUANTITY := Int(0)];
      var item := map[DOWNLOAD_ID := Index(cartItem, ID), OPTIONS := Arr(itemOptions)];
      SetCookie(REMOVED_FROM_CART, Arr(item));
    }

    /** `complete_order`: stores the payment id. */
    method CompleteOrder(paymentId: Value)
      modifies this
      ensures cookies == old(cookies)[COMPLETED_PURCHASE := Encoded(PurchasePayload(paymentId))]
    {
      var item := map[PAYMENT_ID := paymentId];
      SetCookie(COMPLETED_PURCHASE, Arr(item));
    }
  }

  // ---------------------------------------------------------------------------
  // Item resolution

  /** `wp_parse_args` of the passed options: an array is used as it is. */
  function PassedOptions(passed: Value): map<string, Value> {
    if passed.Arr? then passed.entries else map[]
  }

  /** Comma-joined names, as `implode( ', ', ... )` makes them. */
  function Implode(separator: string, parts: seq<string>): string {
    if |parts| == 0 then ""
    else if |parts| == 1 then parts[0]
    else parts[0] + separator + Implode(separator, parts[1..])
  }

  /** The `price_id` of the merged options: the passed one, null by default. */
  function ItemPriceId(passed: Value): Value {
    Get(PassedOptions(passed), PRICE_ID)
  }

  /** The `quantity` of the merged options: `intval` of a set passed quantity,
      so that 0 survives; 1 by default; a passed null stays null. */
  function ItemQuantity(passed: Value): Value {
    var opts := PassedOptions(passed);
    if IsSet(opts, QUANTITY) then Int(IntVal(opts[QUANTITY]))
    else if QUANTITY in opts then opts[QUANTITY] else Int(1)
  }

  /** The price `build_download_item` reports: the variant's price when the
      download has variable prices and a price id is given, else the base price. */
  function ItemPrice(id: int, priceId: Value, catalog: Catalog): Value {
    if catalog.hasVariablePrices(id) && priceId != Null
    then catalog.priceOptionAmount(id, priceId) else catalog.downloadPrice(id)
  }

  /** The array `build_download_item` returns, field by field; `sku` is the
      one key that may be missing. */
  datatype Item = Item(id: int, name: Value, price: Value, priceId: int, quantity: Value,
                       category: string, sku: Option<Value>)

  /** The item as the PHP array the analytics call receives. */
  function Properties(item: Item): (p: map<string, Value>)
    ensures p.Keys == {ID, NAME, PRICE, PRICE_ID, QUANTITY, CATEGORY} + (if item.sku.Some? then {SKU} else {})
    ensures p[ID] == Int(item.id) && p[NAME] == item.name && p[PRICE] == item.price
    ensures p[PRICE_ID] == Int(item.priceId) && p[QUANTITY] == item.quantity && p[CATEGORY] == Str(item.category)
    ensures item.sku.Some? ==> p[SKU] == item.sku.value
  {
    var fields := map[ID := Int(item.id), NAME := item.name, PRICE := item.price,
                      PRICE_ID := Int(item.priceId), QUANTITY := item.quantity, CATEGORY := Str(item.category)];
    match item.sku
    case Some(sku) => fields[SKU := sku]
    case None => fields
  }

  /** `build_download_item`: the analytics view of a download. The options
      passed in are merged over `{quantity: 1, price_id: null}`, except that a
      set `quantity` is taken through `intval`, so an explicit 0 survives. */
  function DownloadItem(downloadId: Value, passed: Value, catalog: Catalog): (item: Item)
    ensures item.id == AbsInt(downloadId)
    ensures IsSet(PassedOptions(passed), QUANTITY) ==> item.quantity == Int(IntVal(Index(passed, QUANTITY)))
    ensures QUANTITY !in PassedOptions(passed) ==> item.quantity == Int(1)
    ensures QUANTITY in PassedOptions(passed) && !IsSet(PassedOptions(passed), QUANTITY) ==> item.quantity == Null
    ensures item.priceId == IntVal(Index(passed, PRICE_ID))
    ensures catalog.hasVariablePrices(item.id) && Index(passed, PRICE_ID) != Null
            ==> item.price == catalog.priceOptionAmount(item.id, Index(passed, PRICE_ID))
    ensures !(catalog.hasVariablePrices(item.id) && Index(passed, PRICE_ID) != Null)
            ==> item.price == catalog.downloadPrice(item.id)
    ensures item.name == catalog.title(item.id)
    ensures item.category == Implode(", ", catalog.categoryNames(item.id))
    ensures item.sku.Some? <==> catalog.useSkus
    ensures catalog.useSkus ==> item.sku == Some(catalog.sku(item.id))
  {
    var id := AbsInt(downloadId);
    Item(id, catalog.title(id), ItemPrice(id, ItemPriceId(passed), catalog), IntVal(ItemPriceId(passed)),
         ItemQuantity(passed), Implode(", ", catalog.categoryNames(id)),
         if catalog.useSkus then Some(catalog.sku(id)) else None)
  }

  /** `build_download_item` as the source computes it: a merge over the
      defaults, then the quantity override, then the price, then the optional SKU. */
  method BuildDownloadItem(downloadId: Value, passed: Value, catalog: Catalog) returns (item: Item)
    ensures item == DownloadItem(downloadId, passed, catalog)
  {
    var defaults := map[QUANTITY := Int(1), PRICE_ID := Null];
    var id := AbsInt(downloadId);
    var options := defaults + PassedOptions(passed);
    assert options[PRICE_ID] == ItemPriceId(passed);
    if Index(passed, QUANTITY) != Null {
      options := options[QUANTITY := Int(IntVal(Index(passed, QUANTITY)))];
    } else {
      assert options[QUANTITY] == ItemQuantity(passed);
    }
    var price;
    if catalog.hasVariablePrices(id) && options[PRICE_ID] != Null {
      price := catalog.priceOptionAmount(id, options[PRICE_ID]);
    } else {
      price := catalog.downloadPrice(id);
    }
    item := Item(id, catalog.title(id), price, IntVal(options[PRICE_ID]), options[QUANTITY],
                 Implode(", ", catalog.categoryNames(id)), None);
    if catalog.useSkus {
      item := item.(sku := Some(catalog.sku(id)));
    }
  }

  // ---------------------------------------------------------------------------
  // Consumers: the events built on a later render

  /** `maybe_get_cookie_data`: false when the cookie is absent or does not
      decode, otherwise the decoded data. */
  function MaybeGetCookieData(cookies: Store, name: string): (data: Value)
    ensures name !in cookies || cookies[name].Malformed? || cookies[name].data == Null ==> data == Bool(false)
    ensures name in cookies && cookies[name].Encoded? && cookies[name].data != Null ==> data == cookies[name].data
    ensures data != Null
  {
    if name !in cookies then Bool(false)
    else match cookies[name]
      case Malformed => Bool(false)
      case Encoded(d) => if d == Null then Bool(false) else d
  }

  /** `added_to_cart`: the pending add-to-cart payload as a track event. */
  function AddedToCart(arg: Event, cookies: Store, catalog: Catalog): (e: Event)
    ensures !Truthy(MaybeGetCookieData(cookies, ADDED_TO_CART)) ==> e == arg
    ensures Truthy(MaybeGetCookieData(cookies, ADDED_TO_CART)) ==>
              var data := MaybeGetCookieData(cookies, ADDED_TO_CART);
              && e.Track? && e.event == Added(catalog.singularLabel)
              && e.httpEvent == Some(ADDED_TO_CART)
              && e.properties == Properties(DownloadItem(Index(data, DOWNLOAD_ID), Index(data, OPTIONS), catalog))
  {
    var data := MaybeGetCookieData(cookies, ADDED_TO_CART);
    if !Truthy(data) then arg
    else Track(Added(catalog.singularLabel),
               Properties(DownloadItem(Index(data, DOWNLOAD_ID), Index(data, OPTIONS), catalog)),
               Some(ADDED_TO_CART))
  }

  /** `removed_from_cart`: the pending removal payload as a track event. */
  function RemovedFromCart(arg: Event, cookies: Store, catalog: Catalog): (e: Event)
    ensures !Truthy(MaybeGetCookieData(cookies, REMOVED_FROM_CART)) ==> e == arg
    ensures Truthy(MaybeGetCookieData(cookies, REMOVED_FROM_CART)) ==>
              var data := MaybeGetCookieData(cookies, REMOVED_FROM_CART);
              && e.Track? && e.event == Removed(catalog.singularLabel)
              && e.httpEvent == Some(REMOVED_FROM_CART)
              && e.properties == Properties(DownloadItem(Index(data, DOWNLOAD_ID), Index(data, OPTIONS), catalog))
  {
    var data := MaybeGetCookieData(cookies, REMOVED_FROM_CART);
    if !Truthy(data) then arg
    else Track(Removed(catalog.singularLabel),
               Properties(DownloadItem(Index(data, DOWNLOAD_ID), Index(data, OPTIONS), catalog)),
               Some(REMOVED_FROM_CART))
  }

  /** The facts `completed_order` writes over the payment meta: the payment id
      and, from the order lookups, key, number, transaction id, subtotal,
      total, tax, currency and gateway. */
  function OrderFacts(paymentId: Value, orders: Orders): map<string, Value> {
    map[ID := paymentId,
        "key" := orders.field(PaymentKey, paymentId),
        "payment_number" := orders.field(PaymentNumber, paymentId),
        "transaction_id" := orders.field(TransactionId, paymentId),
        "subtotal" := orders.field(Subtotal, paymentId),
        "total" := orders.field(Total, paymentId),
        "tax" := orders.field(Tax, paymentId),
        "currency" := orders.field(Currency, paymentId),
        "gateway" := orders.field(Gateway, paymentId)]
  }

  /** The buyer facts `completed_order` writes into `user_info`. */
  function UserFacts(paymentId: Value, orders: Orders): map<string, Value> {
    map["ip" := orders.field(UserIp, paymentId),
        "customer_id" := orders.field(CustomerId, paymentId),
        "is_guest" := orders.field(IsGuest, paymentId)]
  }

  /** `$meta['user_info']` as the nested writes find it: the array it holds,
      or a fresh array when it is unset. */
  function PriorUserInfo(meta: map<string, Value>): map<string, Value> {
    if USER_INFO in meta && meta[USER_INFO].Arr? then meta[USER_INFO].entries else map[]
  }

  /** The properties of the completed-order event: the payment meta with the
      order facts written over it and the buyer facts written into its
      `user_info`; every other meta entry and `user_info` entry is kept. */
  function OrderProperties(paymentId: Value, orders: Orders): (p: map<string, Value>)
    ensures p.Keys == orders.meta(paymentId).Keys + OrderFacts(paymentId, orders).Keys + {USER_INFO}
    ensures ID in p && p[ID] == paymentId
    ensures forall k :: k in OrderFacts(paymentId, orders) ==> p[k] == OrderFacts(paymentId, orders)[k]
    ensures forall k :: (k in orders.meta(paymentId) && k !in OrderFacts(paymentId, orders) && k != USER_INFO)
                        ==> p[k] == orders.meta(paymentId)[k]
    ensures p[USER_INFO].Arr?
    ensures p[USER_INFO].entries.Keys == PriorUserInfo(orders.meta(paymentId)).Keys + UserFacts(paymentId, orders).Keys
    ensures forall k :: k in UserFacts(paymentId, orders) ==> p[USER_INFO].entries[k] == UserFacts(paymentId, orders)[k]
    ensures forall k :: (k in PriorUserInfo(orders.meta(paymentId)) && k !in UserFacts(paymentId, orders))
                        ==> p[USER_INFO].entries[k] == PriorUserInfo(orders.meta(paymentId))[k]
  {
    var meta := orders.meta(paymentId) + OrderFacts(paymentId, orders);
    meta[USER_INFO := Arr(PriorUserInfo(meta) + UserFacts(paymentId, orders))]
  }

  /** `completed_order`: the pending purchase as a "Completed Order" event. */
  function CompletedOrderEvent(arg: Event, cookies: Store, orders: Orders): (e: Event)
    ensures !Truthy(MaybeGetCookieData(cookies, COMPLETED_PURCHASE)) ==> e == arg
    ensures Truthy(MaybeGetCookieData(cookies, COMPLETED_PURCHASE)) ==>
              var data := MaybeGetCookieData(cookies, COMPLETED_PURCHASE);
              && e.Track? && e.event == CompletedOrder
              && e.httpEvent == Some(COMPLETED_PURCHASE)
              && e.properties == OrderProperties(Index(data, PAYMENT_ID), orders)
              && e.properties[ID] == Index(data, PAYMENT_ID)
  {
    var data := MaybeGetCookieData(cookies, COMPLETED_PURCHASE);
    if !Truthy(data) then arg
    else Track(CompletedOrder, OrderProperties(Index(data, PAYMENT_ID), orders), Some(COMPLETED_PURCHASE))
  }

  // ---------------------------------------------------------------------------
  // Live-context shapers

  /** `viewed_category`: on a download tag or category archive, a page call
      named after the term; elsewhere the value it was given. */
  function ViewedCategoryPage(arg: Event, query: Query, catalog: Catalog): (e: Event)
    ensures !query.isDownloadTaxonomy ==> e == arg
    ensures query.isDownloadTaxonomy ==>
              && e.Page? && e.properties == map[TERM_ID := query.termId]
              && (e.page.ViewedTag? <==> query.termTaxonomy == DOWNLOAD_TAG)
              && (e.page.ViewedTag? || e.page.ViewedCategory?)
              && e.page.term == query.termTitle && e.page.singular == catalog.singularLabel
  {
    if !query.isDownloadTaxonomy then arg
    else
      var name := if query.termTaxonomy == DOWNLOAD_TAG
                  then ViewedTag(query.termTitle, catalog.singularLabel)
                  else ViewedCategory(query.termTitle, catalog.singularLabel);
      Page(name, map[TERM_ID := query.termId])
  }

  /** `viewed_product`: on a single download page, a track call with the item,
      less its quantity and price id; elsewhere the value it was given. */
  function ViewedProduct(arg: Event, query: Query, catalog: Catalog): (e: Event)
    ensures !query.isSingularDownload ==> e == arg
    ensures query.isSingularDownload ==>
              && e.Track? && e.event == ViewedItem(catalog.singularLabel) && e.httpEvent.None?
              && QUANTITY !in e.properties && PRICE_ID !in e.properties
              && e.properties == Properties(DownloadItem(Int(query.objectId), Arr(map[]), catalog)) - {QUANTITY, PRICE_ID}
  {
    if !query.isSingularDownload then arg
    else
      var item := Properties(DownloadItem(Int(query.objectId), Arr(map[]), catalog));
      Track(ViewedItem(catalog.singularLabel), item - {QUANTITY, PRICE_ID}, None)
  }
}
