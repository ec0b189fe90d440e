# PayPal helper: a verified model

This project models the core of a small PHP PayPal integration library in Dafny:

- **`PaypalLinkBuilder`** (module `LinkBuilder`, file `paypal_link_builder.dfy`) builds a payment
  link. It is a class whose setters write fixed keys into a parameter map in place. `addItem`
  hands out the references `i1`, `i2`, ... and writes the indexed `item_name_k`, `amount_k` and
  `quantity_k` fields. `setCustomParameter` writes `on<i>`/`os<i>` and counts its calls in
  `option_index`. The link is the base URL followed by the encoded map. The class invariant
  `Valid()` says four things:
  - items are numbered from 1;
  - `upload=1` is present exactly when an item was added;
  - `option_index` is present exactly when a custom option was set, and then equals their count;
  - `cmd` is `_cart` or `_xclick`, and `_cart` whenever the cart flag is set.
- **`PaypalData`** (module `IpnData`, file `paypal_data.dfy`) is the typed view of a confirmed
  IPN (Instant Payment Notification) callback. It keeps the raw fields unchanged. Its accessors
  default to the literal `"null"` (and the price to the default `Zero`). It rebuilds the custom options by
  pairing every `option_name…` field with its `option_value…` twin. `Create` is the
  constructor's loop, and it is proved to build the record that `Build` specifies.
- **`Paypal::verifyRequest`** (module `IpnVerifier`, file `paypal.dfy`) is a pure function of
  four inputs: the verifier's `sandboxMode`, the raw fields, the host name that the caller's
  address resolved to, and the result of the HTTPS exchange. It returns the request it sends
  (none when the origin is refused) and the outcome: a `PaypalData`, a request error, or a
  verification error with the source's message.
- Module `PhpArrays` (file `php_arrays.dfy`) holds the PHP semantics the three classes rely on:
  - ordered string arrays with `isset` lookup;
  - the left-biased array union `+`;
  - decimal rendering of integers in string concatenation;
  - `str_replace`;
  - PHP truthiness of a nullable string.

The builder's quirks are reproduced as written:
- `setCartName` appends `ss` to the first item's name.
- `setIsShoppingCart(false)` still sets `cmd=_cart`.
- `setNote`/`setShipping` store the "enable" flag under `no_note`/`no_shipping` unchanged.
- `option_index` counts calls rather than echoing the index argument.

The model follows the code where it says more or less than its names and comments:
- `setStoreInfo` takes nullable parts, but it tests them with PHP truthiness. So `""` and
  `"0"` are skipped like null.
- The docblock of `setCustomParameter` says booleans become `0`/`1`. The code stores them as
  booleans, and the conversion belongs to the query encoding.

The response check uses PHP's loose `switch` comparison. Against the non-numeric strings
`VERIFIED` and `INVALID`, this is byte equality, so the model compares with `==`.

## Model

| member | source | states |
|---|---|---|
| `PhpArrays.GetAt` | src/PaypalData.php:30-33 | in a PHP array, `isset($a[$k]) ? $a[$k]` yields the value stored under that key |
| `PhpArrays.GetFound` | src/PaypalData.php:38-39 | a value found by lookup is the value of an entry carrying that key |
| `PhpArrays.LeftUnion` | src/Paypal.php:36 | `$left + $right` starts with all of `left`, adds at most the entries of `right`, and adds only entries whose key `left` does not hold |
| `PhpArrays.GetLeftUnion` | src/Paypal.php:36 | in `$left + $right` a key of the left array keeps its left value; every other key keeps its right value |
| `PhpArrays.LeftUnionDistinct` | src/Paypal.php:36 | the union of two arrays has each key once |
| `PhpArrays.NatToStringInjective` | src/PaypalLinkBuilder.php:191-195 | distinct item indices render as distinct decimal strings |
| `PhpArrays.IntToStringInjective` | src/PaypalLinkBuilder.php:203-207 | distinct option indices, negative ones included, render as distinct strings |
| `PhpArrays.ReplaceAll` | src/PaypalData.php:37 | `str_replace` with an empty search text changes nothing; with a replacement at least as long as the search text the result is no shorter, and with one of equal length it has the same length |
| `PhpArrays.ReplaceAllNoOccurrence` | src/PaypalData.php:37 | `str_replace` leaves a string without the search text unchanged |
| `PhpArrays.ReplaceAllLeading` | src/PaypalData.php:37 | a string that starts with the search text starts with the replacement after `str_replace` |
| `IpnData.Create` | src/PaypalData.php:27-43 | the constructor's single pass over the fields in order builds exactly the specified record, for every input array (construction is total) |
| `IpnData.Build` | src/PaypalData.php:27-43 | the constructed record keeps the raw fields, and every custom option's name is the value of one of the fields |
| `IpnData.PaypalData.GetRawData` | src/PaypalData.php:70-73 | the raw fields as received; constructing again from them gives the same record |
| `IpnData.PaypalData.GetPrice` | src/PaypalData.php:30-53 | for a constructed record, the price is the default `Zero` exactly when `mc_gross` is absent, and `FloatOf(text)` of that field's text otherwise |
| `IpnData.PaypalData.GetCurrency` | src/PaypalData.php:31-58 | for a constructed record, the `mc_currency` field's value when present, `"null"` otherwise |
| `IpnData.PaypalData.GetCustom` | src/PaypalData.php:32-63 | for a constructed record, the `custom` field's value when present, `"null"` otherwise |
| `IpnData.PaypalData.GetPayerEmail` | src/PaypalData.php:33-68 | for a constructed record, the `payer_email` field's value when present, `"null"` otherwise |
| `IpnData.TwinOfOptionName` | src/PaypalData.php:36-37 | the twin of an `option_name…` key starts with `option_value`, so it differs from the key and never qualifies as an `option_name…` key itself |
| `IpnData.OptionAtSpec` | src/PaypalData.php:36-40 | an entry contributes an option exactly when its key starts with `option_name` and its twin key is present, and then it contributes the twin's value; keys without the prefix never contribute |
| `IpnData.OptionsKeys` | src/PaypalData.php:35-42 | an option name is in the rebuilt map exactly when some visited `option_name…` field with a present twin carries it as its value |
| `IpnData.OptionsLastWins` | src/PaypalData.php:35-42 | when several `option_name…` fields carry the same value, the one later in iteration order decides the option's value |
| `IpnData.OptionsComeFromEntries` | src/PaypalData.php:35-42 | every value in the rebuilt map is the twin value of some contributing entry under that name |
| `IpnData.PaypalData.GetCustomParameter` | src/PaypalData.php:35-48 | for a constructed record, `getCustomParameter(key)` is non-null exactly when some contributing field has value `key`, and then it is the twin value of the last such field; otherwise null, never an error |
| `IpnData.ColorOption` | src/PaypalData.php:35-48 | `option_name0=color` with `option_value0=red` gives option `color` = `red`; without `option_value0` the option is null |
| `IpnVerifier.ValidationPayload` | src/Paypal.php:36 | the payload starts with `cmd=_notify-validate`, is at most one entry longer than the callback, and carries no other `cmd` entry |
| `IpnVerifier.PayloadSpec` | src/Paypal.php:36 | the outbound payload has each key once and starts with `cmd=_notify-validate`; the callback's fields follow in their own order, with the callback's own `cmd` field removed if it had one; every other key looks up to the callback's value |
| `IpnVerifier.PayloadDropsCallerCmd` | src/Paypal.php:36 | a `cmd` field in the callback data is discarded, because PHP's `+` keeps the left-hand key |
| `IpnVerifier.Paypal.Endpoint` | src/Paypal.php:38 | the sandbox endpoint exactly in sandbox mode, the production endpoint exactly otherwise |
| `IpnVerifier.Paypal.Interpret` | src/Paypal.php:49-68 | a response succeeds exactly when it is the string `VERIFIED`, or `INVALID` in sandbox mode, and then yields the data built from the raw fields; every other outcome is a verification error, and a non-string transport result is the "request failed" error |
| `IpnVerifier.Paypal.VerifyRequest` | src/Paypal.php:30-69 | a request is sent exactly when the origin host is `notify.paypal.com`, to the mode's endpoint with the payload; the call succeeds exactly when the host matches and the transport returned the string `VERIFIED`, or `INVALID` in sandbox mode; it then returns the data built from the unchanged raw fields; the request error arises exactly when the host does not match |
| `IpnVerifier.UnknownOrigin` | src/Paypal.php:32-34 | any other host gives the unknown-domain request error, and no request is issued |
| `IpnVerifier.TransportFailure` | src/Paypal.php:49-68 | a transport result that is not a string gives the "Verification request to PayPal server failed" error |
| `IpnVerifier.InvalidResponse` | src/Paypal.php:54-61 | `INVALID` gives the invalid-request error in production and succeeds in sandbox mode |
| `IpnVerifier.UnknownResponse` | src/Paypal.php:54-64 | any other response string, compared byte for byte, gives the unknown-response error, whose message quotes that string |
| `LinkBuilder.ItemKeysDistinct` | src/PaypalLinkBuilder.php:188-195 | different item indices give different `item_name_`, `amount_` and `quantity_` keys and different `i<k>` references, so a reference is never handed out twice |
| `LinkBuilder.ItemKeysApart` | src/PaypalLinkBuilder.php:188-195 | no key of item j equals `upload` or any key written for another item k |
| `LinkBuilder.OptionKeysApart` | src/PaypalLinkBuilder.php:203-209 | `on<i>`, `os<i>` and `option_index` are three different keys |
| `LinkBuilder.OptionKeysDistinct` | src/PaypalLinkBuilder.php:203-207 | different option indices write different `on<i>` keys and different `os<i>` keys |
| `LinkBuilder.Suffix` | src/PaypalLinkBuilder.php:99-109 | a part adds nothing exactly when it is null, `""` or `"0"` |
| `LinkBuilder.StoreInfo` | src/PaypalLinkBuilder.php:95-112 | the `bn` code starts with the company, and equals it exactly when none of service, product and country is truthy |
| `LinkBuilder.FirstItemKeys` | src/PaypalLinkBuilder.php:158-180 | the `_1` keys written by `setCartName`, `setQuantity` and `setCartAmount` are item 1's keys; the first three references are `i1`, `i2`, `i3` |
| `LinkBuilder.PaypalLinkBuilder.constructor` | src/PaypalLinkBuilder.php:24-40 | starts with `cmd` = `_cart` for a cart and `_xclick` otherwise, `currency_code=USD`, `no_shipping=true`, `no_note=true`, `charset=utf-8`, item index 1 and no custom options |
| `LinkBuilder.PaypalLinkBuilder.SetCallBack` | src/PaypalLinkBuilder.php:47-55 | always sets `notify_url`; sets `callback_url` and `callback_timeout` only for an instant callback |
| `LinkBuilder.PaypalLinkBuilder.SetSuccessUrl` | src/PaypalLinkBuilder.php:60-63 | overwrites only `return`; counters unchanged |
| `LinkBuilder.PaypalLinkBuilder.SetFailUrl` | src/PaypalLinkBuilder.php:68-71 | overwrites only `cancel_return`; counters unchanged |
| `LinkBuilder.PaypalLinkBuilder.SetCurrencyCode` | src/PaypalLinkBuilder.php:76-79 | overwrites only `currency_code` |
| `LinkBuilder.PaypalLinkBuilder.SetCustom` | src/PaypalLinkBuilder.php:84-87 | overwrites only `custom` |
| `LinkBuilder.PaypalLinkBuilder.SetStoreInfo` | src/PaypalLinkBuilder.php:95-112 | overwrites only `bn`, with the company followed by `_part` for each truthy part in order |
| `LinkBuilder.PaypalLinkBuilder.SetLanguage` | src/PaypalLinkBuilder.php:117-120 | overwrites only `lc` |
| `LinkBuilder.PaypalLinkBuilder.SetCharset` | src/PaypalLinkBuilder.php:125-128 | overwrites only `charset` |
| `LinkBuilder.PaypalLinkBuilder.SetNote` | src/PaypalLinkBuilder.php:133-136 | stores the given flag unchanged under `no_note` |
| `LinkBuilder.PaypalLinkBuilder.SetShipping` | src/PaypalLinkBuilder.php:141-144 | stores the given flag unchanged under `no_shipping` |
| `LinkBuilder.PaypalLinkBuilder.SetAccount` | src/PaypalLinkBuilder.php:149-153 | writes the account to both `business` and `receiver_email`, nothing else |
| `LinkBuilder.PaypalLinkBuilder.SetCartName` | src/PaypalLinkBuilder.php:158-162 | `item_name` = name and `item_name_1` = name followed by `ss` |
| `LinkBuilder.PaypalLinkBuilder.SetQuantity` | src/PaypalLinkBuilder.php:167-171 | the same quantity under `quantity` and `quantity_1` |
| `LinkBuilder.PaypalLinkBuilder.SetCartAmount` | src/PaypalLinkBuilder.php:176-180 | the same amount under `amount` and `amount_1` |
| `LinkBuilder.PaypalLinkBuilder.AddItem` | src/PaypalLinkBuilder.php:188-196 | returns `i<k>` for the index k before the call, and then increments the index by exactly 1; writes exactly `upload=1`, `item_name_k`, `amount_k` and `quantity_k`; every other item's fields and the custom-option count stay unchanged |
| `LinkBuilder.PaypalLinkBuilder.SetCustomParameter` | src/PaypalLinkBuilder.php:203-209 | sets `on<i>` to the name and `os<i>` to the value, increments the call count by one, and sets `option_index` to that count, not to i |
| `LinkBuilder.PaypalLinkBuilder.SetImage` | src/PaypalLinkBuilder.php:215-218 | overwrites only `image_url` |
| `LinkBuilder.PaypalLinkBuilder.SetIsShoppingCart` | src/PaypalLinkBuilder.php:223-228 | records the flag and sets `cmd=_cart` whatever the flag |
| `LinkBuilder.PaypalLinkBuilder.IsShoppingCart` | src/PaypalLinkBuilder.php:233-236 | when the flag is set, `cmd` is `_cart` |
| `LinkBuilder.PaypalLinkBuilder.ToString` | src/PaypalLinkBuilder.php:241-244 | the link always begins with the base URL, and the encoded parameters follow it |
| `LinkBuilder.ThreeItems` | src/PaypalLinkBuilder.php:188-196 | three `addItem` calls return `i1`, `i2`, `i3` and leave items 1 to 3 with their own name, amount and quantity, and `upload=1` |
| `LinkBuilder.CartFlagAndCommand` | src/PaypalLinkBuilder.php:223-236 | after `setIsShoppingCart(b)`, `isShoppingCart()` returns b but `cmd` is `_cart` |
| `LinkBuilder.SettersIdempotent` | src/PaypalLinkBuilder.php:60-153 | calling `setSuccessUrl`, `setNote` and `setAccount` a second time with the same arguments leaves the parameters unchanged |

## Left out

- The HTTPS exchange (curl session options, TLS verification, `Connection: Close`) is network
  I/O. Its result is the input `curl`: `false`/`true` or a response string.
- `gethostbyaddr($_SERVER['REMOTE_ADDR'])` is a DNS lookup over ambient request state. The
  resolved host name is the input `remoteHost`.
- `http_build_query` is a foreign library, so URL encoding is not modelled. This includes
  rendering `true`/`false` as `1`/`0`.
  - Field order is modelled for the verification request: it carries the payload's ordered
    field list, and `IpnVerifier.PayloadSpec` states that order.
  - `LinkBuilder.PaypalLinkBuilder.ToString` takes the encoder as a function parameter.
- The builder's parameters are a map, so their insertion order is not modelled. The provider
  does not depend on the order.
- IpnData.PaypalData.GetPrice: `Zero` means "`mc_gross` absent", not "price 0". PHP's
  `(float)` cast gives 0.0 for texts such as `"0.00"`, `""` or `"abc"`, so `FloatOf(t)` may
  itself be 0.0, and the PHP getter cannot tell it from the absent default.
- Floating point is not modelled:
  - `mc_gross`'s `(float)` cast is kept as an uninterpreted `FloatOf(text)`.
  - Amounts and prices passed to the builder are `real`, so double rounding is not modelled.
- PHP turns numeric-string array keys into integer keys. The model does not do this, so it
  does not capture that a numeric field name in the callback makes `substr` throw a
  `TypeError` under `strict_types`. It also does not capture that a numeric option name
  becomes an integer key in `customParameters`.
- The callback's raw values are strings (form data). Nested array values are not modelled.
- Exception classes are a tagged `PaypalError` (`RequestException` or `VerificationException`
  with the source's message), not class identities.
- The constructor parameters `$baseUrl` and `$isShoppingCart` are untyped in PHP. They are
  modelled as a string and a boolean. `setCustomParameter`'s untyped `$value` is the `Value`
  datatype.
