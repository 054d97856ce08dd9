# Segment analytics for Easy Digital Downloads, in Dafny

This project models the Easy Digital Downloads (EDD) integration of the Segment
analytics plugin for WordPress, `integrations/ecommerce/easy-digital-downloads.php`.
It also proves properties of that model.

The integration reports cart and checkout activity to Segment. A cart or checkout
action happens during one request. The analytics call that reports it is made
during a later page render. The integration bridges the two requests with a
cookie:

- **Producers** run when EDD fires an action. `add_to_cart`, `remove_from_cart`
  and `complete_order` each write a payload under a fixed cookie name:
  `added_to_cart`, `removed_from_cart` or `completed_purchase`.
- **Consumers** run on a later render. `added_to_cart`, `removed_from_cart` and
  `completed_order` read their cookie through `maybe_get_cookie_data`. If the
  cookie holds usable data, they return a track event tagged with the cookie
  name (`http_event`). Otherwise they return their first argument unchanged.
- **Item resolution** (`build_download_item`) turns a download id and its
  options into the item properties of an event.
- **Live-context shapers** (`viewed_category`, `viewed_product`) build page or
  track calls from the current page query, and pass their argument through on
  any other page.

Files:

- `php_values.dfy`, module `PhpValues`: PHP's loosely typed values and the
  built-ins the integration relies on. These are `empty()`, `isset()`,
  truthiness, array reads, `intval()`, WordPress's `absint()` and string
  conversion. It also proves that decimal strings round-trip through `intval`.
- `easy_digital_downloads.dfy`, module `EasyDigitalDownloads`: the integration.
  - The class `Integration` holds the visitor's cookies. It has the three
    producers as methods.
  - The payloads they write are described by the functions `BackfilledOptions`,
    `CartPayload`, `RemovalPayload` and `PurchasePayload`.
  - The consumers, the shapers and item resolution are functions over the
    cookie contents, the page query and the catalog and order lookups.
- `edd_properties.dfy`, module `EddProperties`: lemmas that connect producers
  to consumers, and worked scenarios driven through an `Integration` object.

The WordPress and EDD lookups are modelled as values of arrow-typed fields that
the caller supplies. These are catalog lookups (`edd_has_variable_prices`,
`edd_get_price_option_amount`, `edd_get_download_price`, titles, category names,
`edd_use_skus`, `edd_get_download_sku`, `edd_get_label_singular`), order
lookups (`edd_get_payment_meta` and the `edd_get_payment_*` accessors) and the
page query (`is_tax`, `is_singular`, the queried term and object). The cart
(`edd_get_cart_contents`) and the submitted form (`$_POST['post_data']` and what
`parse_str` makes of it) are method parameters. Translated, `sprintf`-formatted
event names are the datatype `Title`: the template together with the values put
into it.

Three behaviours of the code that a reader might not expect:

- **A `quantity` passed as null.** `build_download_item` merges the passed
  options over the defaults. It then overrides `quantity` only when the passed
  value is `isset`. So a passed `quantity` that is null stays null, and does not
  become the default 1. `DownloadItem` states this case.
- **An empty variant quantity field.** `update_add_to_cart_quantity` tests the
  variant field with `isset` and the generic field with `! empty`. So an empty
  variant field still wins, and writes quantity 0
  (`EddProperties.EmptyVariantFieldGivesZero`).
- **Reading a cookie.** The integration never clears a cookie, and
  `Segment_Cookie` is not part of this model. So here a read changes nothing.

## Model

| member | source | states |
|---|---|---|
| `EasyDigitalDownloads.BackfilledOptions` | integrations/ecommerce/easy-digital-downloads.php:107-127 | options come back unchanged when the post data is empty or `quantity` is already set; only `quantity` can change, and a written quantity is a non-negative integer; a set variant field `edd_download_quantity_<price_id>` wins; otherwise a non-empty generic field is used; otherwise nothing changes |
| `EasyDigitalDownloads.UpdateAddToCartQuantity` | integrations/ecommerce/easy-digital-downloads.php:107-127 | the source's step-by-step overwrite (generic field first, variant field over it) yields exactly `BackfilledOptions` |
| `EasyDigitalDownloads.CartPayload` | integrations/ecommerce/easy-digital-downloads.php:92-95 | the stored payload is an array with exactly the keys `download_id` and `options`, holding the given id and options, and it is truthy |
| `EasyDigitalDownloads.Integration.SetCookie` | integrations/ecommerce/easy-digital-downloads.php:97 | setting a cookie replaces the entry under that name and leaves every other entry alone |
| `EasyDigitalDownloads.Integration.AddToCart` | integrations/ecommerce/easy-digital-downloads.php:88-98 | the store afterwards is the old store with `added_to_cart` set to `{download_id, back-filled options}`; no other entry changes |
| `EasyDigitalDownloads.RemovalPayload` | integrations/ecommerce/easy-digital-downloads.php:164-184 | no payload if and only if the cart slot is missing or its `id` is empty; otherwise `download_id` is the item's id and the options are the item's options with `quantity` set to 0 and every other key kept |
| `EasyDigitalDownloads.Integration.RemoveFromCart` | integrations/ecommerce/easy-digital-downloads.php:164-184 | writes nothing when there is no removal payload; otherwise sets only `removed_from_cart` to it |
| `EasyDigitalDownloads.PurchasePayload` | integrations/ecommerce/easy-digital-downloads.php:222-224 | the stored payload has exactly the key `payment_id`, holding the payment id |
| `EasyDigitalDownloads.Integration.CompleteOrder` | integrations/ecommerce/easy-digital-downloads.php:219-227 | the store afterwards is the old store with `completed_purchase` set to `{payment_id}`; no other entry changes |
| `EasyDigitalDownloads.Properties` | integrations/ecommerce/easy-digital-downloads.php:363-374 | the item array has exactly `id, name, price, price_id, quantity, category`, plus `sku` when the item has one, each holding the item's field |
| `EasyDigitalDownloads.DownloadItem` | integrations/ecommerce/easy-digital-downloads.php:341-377 | `id` is `absint` of the download id; `quantity` is `intval` of a set passed quantity (so 0 survives), 1 when none is passed, null when a null is passed; `price_id` is `intval` of the passed price id (null gives 0); the price is the variant's price exactly when the download has variable prices and a price id is given, else the base price; a SKU is present if and only if SKUs are enabled |
| `EasyDigitalDownloads.BuildDownloadItem` | integrations/ecommerce/easy-digital-downloads.php:341-377 | the source's merge, quantity override, price choice and conditional SKU yield exactly `DownloadItem` |
| `EasyDigitalDownloads.MaybeGetCookieData` | integrations/ecommerce/easy-digital-downloads.php:315-331 | false when the cookie is absent, malformed or decodes to null; otherwise the decoded data; never null |
| `EasyDigitalDownloads.AddedToCart` | integrations/ecommerce/easy-digital-downloads.php:141-156 | with falsy cookie data the argument comes back unchanged; otherwise an "Added" track event tagged `added_to_cart` whose properties are the resolved item of the stored id and options |
| `EasyDigitalDownloads.RemovedFromCart` | integrations/ecommerce/easy-digital-downloads.php:197-212 | with falsy cookie data the argument comes back unchanged; otherwise a "Removed" track event tagged `removed_from_cart` whose properties are the resolved item |
| `EasyDigitalDownloads.OrderProperties` | integrations/ecommerce/easy-digital-downloads.php:249-266 | the payment meta with `id` set to the payment id and key, number, transaction id, subtotal, total, tax, currency and gateway written over it; `user_info` holds the buyer ip, customer id and guest flag; every other meta entry and `user_info` entry is kept |
| `EasyDigitalDownloads.CompletedOrderEvent` | integrations/ecommerce/easy-digital-downloads.php:240-275 | with falsy cookie data the argument comes back unchanged; otherwise a "Completed Order" track event tagged `completed_purchase` whose `id` is the stored payment id |
| `EasyDigitalDownloads.ViewedCategoryPage` | integrations/ecommerce/easy-digital-downloads.php:54-75 | off a download tag or category archive the argument comes back unchanged; on one, a page call with properties exactly `{term_id}`, named with the "Tag" template if and only if the term's taxonomy is `download_tag`, otherwise the "Category" template |
| `EasyDigitalDownloads.ViewedProduct` | integrations/ecommerce/easy-digital-downloads.php:289-304 | off a single download page the argument comes back unchanged; on one, a "Viewed" track event with no `http_event`, whose properties are the resolved item without `quantity` and `price_id` |
| `PhpValues.AbsInt` | integrations/ecommerce/easy-digital-downloads.php:116 | `absint` is `intval` or its negation, and never negative |
| `PhpValues.DecimalRoundTrip` | integrations/ecommerce/easy-digital-downloads.php:121-122 | converting an integer to a string and back with `intval` gives the integer back |
| `PhpValues.IntValOfDecimal` | integrations/ecommerce/easy-digital-downloads.php:116-122 | `intval` and `absint` read a submitted decimal quantity as its number |
| `PhpValues.DecimalInjective` | integrations/ecommerce/easy-digital-downloads.php:121 | distinct integer price ids give distinct strings |
| `EddProperties.VariantFieldsDistinct` | integrations/ecommerce/easy-digital-downloads.php:121 | distinct integer price ids name distinct quantity fields, and no integer price id's field is the generic field; a price id given as the decimal string of an integer names the same field as that integer |
| `EddProperties.CookieRoundTrip` | integrations/ecommerce/easy-digital-downloads.php:315-331 | data written under a name is read back under that name, and what other names read is unchanged |
| `EddProperties.NothingPendingPassesThrough` | integrations/ecommerce/easy-digital-downloads.php:143-149 | with no cookies, all three consumers return their argument |
| `EddProperties.MalformedPassesThrough` | integrations/ecommerce/easy-digital-downloads.php:319-328 | a cookie that does not decode makes each consumer return its argument |
| `EddProperties.AddThenRender` | integrations/ecommerce/easy-digital-downloads.php:88-156 | what `add_to_cart` stores, `added_to_cart` reports as the resolved item: a back-filled quantity reaches the event, and with none the event says 1 |
| `EddProperties.RemoveThenRender` | integrations/ecommerce/easy-digital-downloads.php:164-212 | whatever the cart held, the removal event reports quantity 0, the removed download's id and the line's price id |
| `EddProperties.CompleteThenRender` | integrations/ecommerce/easy-digital-downloads.php:219-275 | what `complete_order` stores, `completed_order` reports as that payment's order, with `id` equal to the payment id |
| `EddProperties.ExplicitZeroQuantity` | integrations/ecommerce/easy-digital-downloads.php:352-355 | an explicit quantity 0 overrides the default 1; empty or missing options give 1 |
| `EddProperties.NullPriceIdIsZero` | integrations/ecommerce/easy-digital-downloads.php:357-367 | a missing or null price id is reported as 0 and selects the base price |
| `EddProperties.EmptyVariantFieldGivesZero` | integrations/ecommerce/easy-digital-downloads.php:115-124 | an empty variant field beats a non-empty generic field, because it is tested with `isset`, and yields quantity 0 |
| `EddProperties.AddToCartScenario` | integrations/ecommerce/easy-digital-downloads.php:88-156 | adding download 42 with price option 2, when the form gave 3 for that option, is reported as "Added" with id 42, quantity 3 and price id 2 |
| `EddProperties.RemoveFromCartScenario` | integrations/ecommerce/easy-digital-downloads.php:164-212 | removing a cart line that held 4 is reported with quantity 0, and the line's price id is kept |
| `EddProperties.RemoveMissingSlotScenario` | integrations/ecommerce/easy-digital-downloads.php:168-172 | removing a slot the cart does not have leaves the next render's argument untouched |
| `EddProperties.CompleteOrderScenario` | integrations/ecommerce/easy-digital-downloads.php:219-275 | completing payment 777 is reported as "Completed Order" tagged `completed_purchase` with id 777 |
| `EddProperties.LastAddWinsScenario` | integrations/ecommerce/easy-digital-downloads.php:88-98 | two adds before a render, with their own download ids and options, leave only the second download and its options to be reported |
| `EddProperties.PurchaseKeepsCartEventScenario` | integrations/ecommerce/easy-digital-downloads.php:219-227 | completing an order does not change what `added_to_cart` reports |

## Left out

- Hook wiring: `init` and the bootstrap function only register WordPress callbacks. They are not modelled.
- The `Segment_Cookie` class is not part of this model. The store is a plain map from cookie name to payload, where a write replaces the entry. Cookie expiry and any clearing on read are not modelled.
- JSON and form parsing: `json_encode`/`json_decode`, `wp_unslash` and `parse_str` are foreign. A payload is the structured data itself, with an explicit `Malformed` case. Producer payloads are assumed to round-trip through JSON unchanged.
- Concurrency between requests: each request is a sequence of calls on one `Integration` object.
- A consumer's argument comes from whatever filter ran before it in the pipeline. It is modelled as any `Event`, including `Untouched(v)` for a plain PHP value.
- Display strings: translation (`__`), `sprintf`, `single_term_title` and `wp_strip_all_tags` are abstract. Event names are `Title` values, and the stripped title is one catalog lookup.
- `PhpValues.IntVal`: for strings it reads leading white space, a sign and a run of decimal digits. It does not model exponent forms such as `"1e3"`, or saturation at 64-bit bounds. PHP integers are unbounded here, and floats are absent: prices are opaque values.
- PHP array keys are strings. PHP's integer keys are taken to be their decimal strings, and key order is not modelled.
- Reading an offset of a value that is not an array gives null (`Index`). PHP's string-offset behaviour is not modelled.
- Non-array option values: when `options` in a cart item or cookie is a non-array value, it is treated as an empty array. The same goes for a non-array `user_info` in the payment meta. For most scalars, PHP would raise an error instead. `wp_parse_args` on a query string is not modelled.
- `edd_get_payment_meta` is taken to return an array. A non-array return is not modelled.
- `get_the_terms` is modelled as the list of category names. Its false or error return is taken to be the empty list.
- A cookie value that is not a string is used as it is, without JSON decoding. The model's store holds only values that were JSON-encoded by the producers, so this path is not modelled.
