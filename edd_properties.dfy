/**
  Properties that relate several operations of the integration: what a
  consumer makes of the payload a producer wrote, that a store with nothing
  usable leaves the pipeline's value alone, and worked cart and checkout
  scenarios driven through the Integration object.
 */
module EddProperties {
  import opened PhpValues
  import opened EasyDigitalDownloads

  // ---------------------------------------------------------------------------
  // The store

  /** A payload written under a name is what `maybe_get_cookie_data` reads back
      under that name, and writing it changes what no other name reads. */
  lemma CookieRoundTrip(cookies: Store, name: string, other: string, data: Value)
    requires data != Null && other != name
    ensures MaybeGetCookieData(cookies[name := Encoded(data)], name) == data
    ensures MaybeGetCookieData(cookies[name := Encoded(data)], other) == MaybeGetCookieData(cookies, other)
  {
  }

  /** With no cookie, every consumer hands back the value it was given. */
  lemma NothingPendingPassesThrough(arg: Event, catalog: Catalog, orders: Orders)
    ensures AddedToCart(arg, map[], catalog) == arg
    ensures RemovedFromCart(arg, map[], catalog) == arg
    ensures CompletedOrderEvent(arg, map[], orders) == arg
  {
  }

  /** A cookie that does not decode counts as no cookie. */
  lemma MalformedPassesThrough(cookies: Store, arg: Event, catalog: Catalog, orders: Orders)
    ensures AddedToCart(arg, cookies[ADDED_TO_CART := Malformed], catalog) == arg
    ensures RemovedFromCart(arg, cookies[REMOVED_FROM_CART := Malformed], catalog) == arg
    ensures CompletedOrderEvent(arg, cookies[COMPLETED_PURCHASE := Malformed], orders) == arg
  {
  }

  // ---------------------------------------------------------------------------
  // Producer, then consumer

  /** What `add_to_cart` writes, `added_to_cart` reports: the download with the
      back-filled options; a back-filled quantity reaches the event, and with
      none the event says 1. */
  lemma AddThenRender(cookies: Store, downloadId: Value, options: map<string, Value>,
                      rawPost: Value, post: map<string, Value>, arg: Event, catalog: Catalog)
    ensures var stored := BackfilledOptions(options, rawPost, post);
            var e := AddedToCart(arg, cookies[ADDED_TO_CART := Encoded(CartPayload(downloadId, stored))], catalog);
            && e == Track(Added(catalog.singularLabel), Properties(DownloadItem(downloadId, Arr(stored), catalog)), Some(ADDED_TO_CART))
            && (IsSet(stored, QUANTITY) ==> e.properties[QUANTITY] == Int(IntVal(stored[QUANTITY])))
            && (QUANTITY !in stored ==> Get(e.properties, QUANTITY) == Int(1))
  {
  }

  /** Whatever quantity the cart held, the removal event reports quantity 0;
      it names the removed download and keeps the line's price option. */
  lemma RemoveThenRender(cookies: Store, cart: seq<Value>, cartKey: int, arg: Event, catalog: Catalog)
    requires RemovalPayload(cart, cartKey).Some?
    ensures var e := RemovedFromCart(arg, cookies[REMOVED_FROM_CART := Encoded(RemovalPayload(cart, cartKey).value)], catalog);
            && e.Track? && e.event == Removed(catalog.singularLabel) && e.httpEvent == Some(REMOVED_FROM_CART)
            && Get(e.properties, QUANTITY) == Int(0)
            && e.properties[ID] == Int(AbsInt(Index(CartSlot(cart, cartKey), ID)))
            && e.properties[PRICE_ID] == Int(IntVal(Get(CartItemOptions(CartSlot(cart, cartKey)), PRICE_ID)))
  {
    var p := RemovalPayload(cart, cartKey).value;
    assert Truthy(p);
    assert IsSet(PassedOptions(Index(p, OPTIONS)), QUANTITY);
  }

  /** What `complete_order` writes, `completed_order` reports as the order of
      that payment. */
  lemma CompleteThenRender(cookies: Store, paymentId: Value, arg: Event, orders: Orders)
    ensures var e := CompletedOrderEvent(arg, cookies[COMPLETED_PURCHASE := Encoded(PurchasePayload(paymentId))], orders);
            && e == Track(CompletedOrder, OrderProperties(paymentId, orders), Some(COMPLETED_PURCHASE))
            && e.properties[ID] == paymentId
  {
  }

  // ---------------------------------------------------------------------------
  // Item resolution

  /** An explicit quantity of 0 overrides the default 1; no quantity gives 1. */
  lemma ExplicitZeroQuantity(downloadId: Value, catalog: Catalog)
    ensures DownloadItem(downloadId, Arr(map[QUANTITY := Int(0)]), catalog).quantity == Int(0)
    ensures DownloadItem(downloadId, Arr(map[]), catalog).quantity == Int(1)
    ensures DownloadItem(downloadId, Null, catalog).quantity == Int(1)
  {
    assert IsSet(PassedOptions(Arr(map[QUANTITY := Int(0)])), QUANTITY);
  }

  /** A missing or null price id is reported as 0 and selects the base price. */
  lemma NullPriceIdIsZero(downloadId: Value, options: map<string, Value>, catalog: Catalog)
    requires Get(options, PRICE_ID) == Null
    ensures DownloadItem(downloadId, Arr(options), catalog).priceId == 0
    ensures DownloadItem(downloadId, Arr(options), catalog).price == catalog.downloadPrice(AbsInt(downloadId))
  {
  }

  // ---------------------------------------------------------------------------
  // Quantity back-fill

  /** The variant field is tested with `isset`, so even an empty one wins over
      a non-empty generic field, and yields quantity 0. */
  lemma EmptyVariantFieldGivesZero(priceId: int)
    ensures var post := map[QUANTITY_FIELD := Str("5"), VariantField(Int(priceId)) := Str("")];
            BackfilledOptions(map[PRICE_ID := Int(priceId)], Str("post"), post)[QUANTITY] == Int(0)
  {
    var post := map[QUANTITY_FIELD := Str("5"), VariantField(Int(priceId)) := Str("")];
    assert VariantField(Int(priceId)) in post && post[VariantField(Int(priceId))] == Str("");
    assert StrToInt("") == 0;
  }

  /** The form field of one variant is not the field of another, nor the
      generic one; a price id that arrives as its decimal string names the
      same field as the integer. */
  lemma VariantFieldsDistinct(m: int, n: int)
    requires m != n
    ensures VariantField(Int(m)) != VariantField(Int(n))
    ensures VariantField(Int(m)) != QUANTITY_FIELD
    ensures VariantField(Str(IntToDecimal(m))) == VariantField(Int(m))
  {
    DecimalInjective(m, n);
    assert VariantField(Int(m))[..|QUANTITY_FIELD_PREFIX|] == QUANTITY_FIELD_PREFIX;
    assert VariantField(Int(n))[..|QUANTITY_FIELD_PREFIX|] == QUANTITY_FIELD_PREFIX;
    assert |VariantField(Int(m))| > |QUANTITY_FIELD|;
  }

  // ---------------------------------------------------------------------------
  // Scenarios through the Integration object

  /** Download 42 is added with price option 2 while the form said 3 for that
      option: the next render reports "Added" with quantity 3 and price id 2. */
  method AddToCartScenario(catalog: Catalog, arg: Event) returns (e: Event)
    ensures e.Track? && e.event == Added(catalog.singularLabel) && e.httpEvent == Some(ADDED_TO_CART)
    ensures Get(e.properties, ID) == Int(42) && Get(e.properties, QUANTITY) == Int(3) && Get(e.properties, PRICE_ID) == Int(2)
  {
    IntValOfDecimal(2);
    IntValOfDecimal(3);
    assert IntToDecimal(2) == "2" && IntToDecimal(3) == "3";
    var field := "edd_download_quantity_2";
    assert VariantField(Int(2)) == field;
    var shop := new Integration(map[]);
    shop.AddToCart(Int(42), map[PRICE_ID := Int(2)], Str("edd_download_quantity_2=3"), map[field := Str("3")]);
    assert BackfilledOptions(map[PRICE_ID := Int(2)], Str("edd_download_quantity_2=3"), map[field := Str("3")])
           == map[PRICE_ID := Int(2), QUANTITY := Int(3)];
    e := AddedToCart(arg, shop.cookies, catalog);
  }

  /** Removing a cart line that held 4 of a download reports quantity 0 and
      keeps the line's price option. */
  method RemoveFromCartScenario(catalog: Catalog, arg: Event) returns (e: Event)
    ensures e.Track? && e.event == Removed(catalog.singularLabel) && e.httpEvent == Some(REMOVED_FROM_CART)
    ensures Get(e.properties, ID) == Int(7) && Get(e.properties, QUANTITY) == Int(0) && Get(e.properties, PRICE_ID) == Int(1)
  {
    var line := Arr(map[ID := Int(7), OPTIONS := Arr(map[QUANTITY := Int(4), PRICE_ID := Int(1)])]);
    var shop := new Integration(map[]);
    shop.RemoveFromCart(0, [line]);
    assert RemovalPayload([line], 0).Some?;
    RemoveThenRender(map[], [line], 0, arg, catalog);
    e := RemovedFromCart(arg, shop.cookies, catalog);
  }

  /** Removing a slot the cart does not have writes nothing, so the next render
      passes the pipeline's value through. */
  method RemoveMissingSlotScenario(catalog: Catalog, arg: Event, cart: seq<Value>) returns (e: Event)
    ensures e == arg
  {
    var shop := new Integration(map[]);
    shop.RemoveFromCart(|cart|, cart);
    e := RemovedFromCart(arg, shop.cookies, catalog);
  }

  /** Payment 777 completes: the next render reports "Completed Order" for it. */
  method CompleteOrderScenario(orders: Orders, arg: Event) returns (e: Event)
    ensures e.Track? && e.event == CompletedOrder && e.httpEvent == Some(COMPLETED_PURCHASE)
    ensures Get(e.properties, ID) == Int(777)
  {
    var shop := new Integration(map[]);
    shop.CompleteOrder(Int(777));
    e := CompletedOrderEvent(arg, shop.cookies, orders);
  }

  /** Two adds before a render: the store keeps only the second, so neither
      the first download nor its options are ever reported. */
  method LastAddWinsScenario(cookies: Store, first: Value, second: Value,
                             firstOptions: map<string, Value>, secondOptions: map<string, Value>,
                             rawPost: Value, post: map<string, Value>, catalog: Catalog, arg: Event)
    returns (e: Event)
    ensures e == Track(Added(catalog.singularLabel),
                       Properties(DownloadItem(second, Arr(BackfilledOptions(secondOptions, rawPost, post)), catalog)),
                       Some(ADDED_TO_CART))
  {
    var shop := new Integration(cookies);
    shop.AddToCart(first, firstOptions, rawPost, post);
    shop.AddToCart(second, secondOptions, rawPost, post);
    e := AddedToCart(arg, shop.cookies, catalog);
  }

  /** A purchase does not disturb a pending add-to-cart event. */
  method PurchaseKeepsCartEventScenario(cookies: Store, paymentId: Value, catalog: Catalog, arg: Event)
    returns (before: Event, after: Event)
    ensures before == after
  {
    var shop := new Integration(cookies);
    before := AddedToCart(arg, shop.cookies, catalog);
    shop.CompleteOrder(paymentId);
    after := AddedToCart(arg, shop.cookies, catalog);
  }
}
