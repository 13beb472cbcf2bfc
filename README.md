# Blackcat sale adapter: a verified model

`api/blackcat.js` is the serverless endpoint a checkout calls to create a PIX
sale at the Blackcat payment gateway. Its logic lives in four pure
functions, and this project models them in Dafny:

- `onlyDigits` strips every non-digit from a value's string form.
- `hasTangibleItem` tells whether an order needs a shipping block.
- `mapToCreateSalePayload` validates the checkout's order and builds the
  gateway's create-sale payload. It throws on the first failed check.
- `normalizeForFrontend` takes the gateway's answer, whatever its shape. It
  fills in `id`, `transactionId` and `pix.qrcode`, keeps every other key,
  and re-wraps the data in the gateway's `data` envelope when there was one.

The files:

- `wrappers.dfy`: `Option` stands for a property that may be `undefined`;
  `Result` stands for a call that may throw.
- `js_value.dfy` (module `JsValue`): a JSON value type and the JavaScript
  semantics the adapter relies on. That covers truthiness, property reads,
  `||` chains (`Or`, and `FirstTruthy` as the reference "first truthy
  candidate" definition), object spread (`Spread`), `String()` and `Number()`.
- `blackcat.dfy` (module `Blackcat`): the four functions. Each of the five
  explicit `throw`s of the mapper is an `Err` carrying a `SaleError`. The
  TypeError that `String()` or `Number()` can raise is not modelled (see
  "## Left out").
  - `Blackcat.KeepDigits` and `Blackcat.OnlyDigits` model `onlyDigits`
    (api/blackcat.js:3-5).
  - `Blackcat.IsTangible` and `Blackcat.HasTangibleItem` model the item test
    and `hasTangibleItem` (api/blackcat.js:7-9).
  - `Blackcat.MapToCreateSalePayload` models `mapToCreateSalePayload`
    (api/blackcat.js:11-81). `DocumentSource`, `MappedCustomer`,
    `MappedShipping` and `SalePayload` are the pieces it builds, at lines
    23-33, 47-56 and 64-80.
  - `Blackcat.ResolvedTransactionId` (line 87), `Blackcat.PixObject`
    (line 89) and `Blackcat.ResolvedPixCode` (lines 90-93) are the `||`
    chains of `normalizeForFrontend`.
  - `Blackcat.NormalizeData` (lines 95-100) and
    `Blackcat.NormalizeForFrontend` (lines 83-103) model the rest of it.
- `blackcat_properties.dfy` (module `BlackcatProperties`): the lemmas.

Numbers are integers (amounts are in centavos). Objects are maps, so key
order is not represented.

## Model

| member | source | states |
|---|---|---|
| Blackcat.KeepDigits | api/blackcat.js:4 | the regex replace leaves only digits, never lengthens the string, and leaves a digit string as it is |
| Blackcat.OnlyDigits | api/blackcat.js:3-5 | `onlyDigits` returns a digit-only string; a falsy value gives ""; a string gives its digits |
| BlackcatProperties.KeepDigitsConcat | api/blackcat.js:4 | filtering distributes over concatenation, so every digit is kept in its original order |
| BlackcatProperties.KeepDigitsMembers | api/blackcat.js:4 | a character is in the result exactly when it is a digit of the input |
| BlackcatProperties.OnlyDigitsIdempotent | api/blackcat.js:3-5 | `onlyDigits` applied to its own result returns that result unchanged |
| BlackcatProperties.OnlyDigitsOfNumber | api/blackcat.js:3-5 | a non-zero number sent as phone or document keeps its decimal digits and loses its sign |
| BlackcatProperties.OnlyDigitsOrEmpty | api/blackcat.js:31-32 | `onlyDigits` of `x` defaulted to "" equals `onlyDigits` of `x` |
| BlackcatProperties.TangibleIsFlaggedObject | api/blackcat.js:8 | an item is tangible exactly when it is an object whose `tangible` is the boolean `true` |
| BlackcatProperties.HasTangibleItemNeedsElements | api/blackcat.js:7-9 | a non-array or an empty array never needs shipping |
| BlackcatProperties.HasTangibleItemAppend | api/blackcat.js:7-9 | the test holds for a concatenation exactly when it holds for one of the parts |
| BlackcatProperties.MappedCustomerChecks | api/blackcat.js:28-38 | the customer check fails exactly when name or email is falsy or phone or document has no digit; when it passes, the mapped customer is the order's data |
| BlackcatProperties.DocumentFromNumber | api/blackcat.js:23-32 | a truthy document of object type (an object or an array) gives the digits of its `number`, whatever type that has; any other document gives its own digits |
| BlackcatProperties.MappedShippingChecks | api/blackcat.js:47-61 | the address check fails exactly when street, city or state is falsy, the street number prints as "", or the zip code has no digit |
| BlackcatProperties.MappedShippingContents | api/blackcat.js:47-56 | a complete address maps to an 8-key shipping block: required fields copied, digit-only zip, "" defaults, country defaulting to "BR" |
| BlackcatProperties.MapToCreateSalePayloadErrors | api/blackcat.js:14-62 | each error is raised exactly when every earlier check passed and its own check fails (amount, items, customer, missing address, incomplete address); success exactly when all pass |
| BlackcatProperties.MapToCreateSalePayloadAccepts | api/blackcat.js:64-80 | on success the payload has the fixed keys, `shipping` iff some item is tangible, and each optional key iff its value is truthy, with that value; it carries the amount, currency or "BRL", "PIX" and the items |
| BlackcatProperties.MapToCreateSalePayloadCustomer | api/blackcat.js:20-38 | on success `customer` has name, email, and non-empty digit-only phone and document drawn from the order |
| BlackcatProperties.MapToCreateSalePayloadShipping | api/blackcat.js:40-62 | on success `shipping` is present exactly when some item is tangible, and it is the mapped complete address |
| BlackcatProperties.SalePayloadKeys | api/blackcat.js:64-80 | the literal's keys are the five fixed ones, `shipping` when present, and the optional ones |
| BlackcatProperties.SalePayloadFixed | api/blackcat.js:65-69 | no optional field overwrites amount, currency, paymentMethod, items or customer |
| BlackcatProperties.SalePayloadExtras | api/blackcat.js:70-79 | `shipping` appears exactly when given; optional fields keep their values |
| BlackcatProperties.AmountFromNumeral | api/blackcat.js:14 | an amount sent as a decimal string is read as its numeric value |
| JsValue.FirstTruthy | api/blackcat.js:87-93 | the value of a chain of JavaScript "or" operators is its first truthy candidate, else the fallback, and it is truthy when any candidate is |
| JsValue.Spread | api/blackcat.js:96 | `{...v}` copies exactly an object's fields, or an array's elements or a string's characters under the keys "0" to length minus one, and nothing for null, booleans and numbers |
| JsValue.ParseDecimalOfDecimal | api/blackcat.js:14 | reading back the decimal numeral of `n` gives `n` |
| JsValue.GetSpread | api/blackcat.js:96 | a non-index key reads the same through a spread copy |
| BlackcatProperties.TransactionIdIsFirstTruthy | api/blackcat.js:87 | the transaction id is the first truthy of `data.transactionId`, `data.id`, `root.transactionId`, `root.id`, else null |
| BlackcatProperties.PixObjectIsFirstTruthy | api/blackcat.js:89 | the pix object is `data.pix`, else `root.pix`, else `{}` |
| BlackcatProperties.PixCodeIsFirstTruthy | api/blackcat.js:90-93 | the PIX code is the first truthy of the seven candidate keys in source order, else null |
| Blackcat.NormalizeData | api/blackcat.js:95-100 | the normalised data has the data's keys plus id, transactionId and pix; other keys unchanged; an existing truthy id or transactionId kept, else the resolved id; pix keeps its keys and gets `qrcode` (existing truthy value, else the resolved code) |
| Blackcat.NormalizeForFrontend | api/blackcat.js:83-103 | with a truthy `root.data` the result is the root with only `data` replaced by the normalised data; otherwise it is the normalised root itself |
| BlackcatProperties.IdsExposed | api/blackcat.js:87-98 | once any candidate names the transaction, both `id` and `transactionId` of the result are truthy |
| BlackcatProperties.GetNormalized | api/blackcat.js:96 | every key of the data that is not an array index and that normalisation does not write reads the same afterwards |
| BlackcatProperties.GetNormalizedPix | api/blackcat.js:99 | every key of the pix object that is not an array index, other than `qrcode`, reads the same afterwards |
| BlackcatProperties.FrontendSeesNormalizedData | api/blackcat.js:83-103 | applying the function's own `data`-or-root lookup to its result gives the normalised data |
| BlackcatProperties.NoPixCodeStaysNone | api/blackcat.js:90-99 | when no PIX code was found, a second pass finds none either |
| BlackcatProperties.PixStable | api/blackcat.js:89-99 | a second pass leaves the pix object as it is |
| BlackcatProperties.IdsStable | api/blackcat.js:87-98 | a second pass resolves the same id and transactionId |
| BlackcatProperties.NormalizeDataFixedPoint | api/blackcat.js:95-100 | data that already holds what a pass writes is a fixed point |
| BlackcatProperties.NormalizeDataStable | api/blackcat.js:95-100 | normalising normalised data changes nothing, given an envelope with no new transaction id |
| BlackcatProperties.IdempotentWithEnvelope | api/blackcat.js:83-103 | with a truthy `data`, normalising twice equals normalising once |
| BlackcatProperties.IdempotentWithoutEnvelope | api/blackcat.js:83-103 | without a truthy `data`, normalising twice equals normalising once |
| BlackcatProperties.NormalizeIdempotent | api/blackcat.js:83-103 | `normalizeForFrontend` is idempotent |
| BlackcatProperties.PixCodeSurfaces | api/blackcat.js:90-102 | a code the gateway returns under `data.pix.qrCode`, with no truthy `data.pix.qrcode`, reaches the frontend under `data.pix.qrcode` whatever other keys the pix object has, and `qrCode` is kept |

## Left out

- The `handler` of `api/blackcat.js` (lines 105-131) is left out. It only checks the HTTP method, reads `process.env`, calls `fetch` and writes the response.
- `api/blackcat-status.js` and `brand2/azulebranco/api/blackcat.js` are left out. They are pass-through proxies with the same kind of I/O plumbing.
- `JSON.parse` and `JSON.stringify` are foreign library calls. The model starts from an already-parsed JSON value.
- Numbers are integers. IEEE floats, fractional amounts, NaN and Infinity are not represented. `Number.isFinite` holds of every integer, and a NaN result is `None`.
- JsValue.ToNumber: `Number()` of a string covers only "" (zero) and plain decimal digits. Leading and trailing whitespace, a sign, a decimal point, an exponent and hex or binary prefixes all read as NaN here, although JavaScript accepts them.
- JsValue.ToJsString: `String(x)` and `Number(x)` throw a TypeError when `x` is an object with its own `toString` key, such as `{"toString":"x"}`, or an array holding such an object. The model instead prints "[object Object]" (or joins the array), and never fails. Where the source would throw, the mapper still returns a payload or a `SaleError`:
  - the street number (line 49), phone (line 31), document (line 32) and zip code (line 51) read such a value as that tag, or as the joined array;
  - for the amount (line 14), the mapper returns `InvalidAmount` where the source throws.
- JsValue.NumberToString: integers print as plain decimal numerals. The exponent form that JavaScript uses from 1e21 up is not modelled.
- JsValue.Spread: a string spreads one entry per character. JavaScript spreads UTF-16 code units, and the model has no such encoding.
- JsValue.Get: a property read on a non-object is `undefined`. JavaScript would also answer index keys and `length` for strings and arrays. The adapter reads `length` once, at line 18, on a value already known to be an array; that read is modelled directly as `|items| == 0` in `MapToCreateSalePayload`.
- Object key order is not modelled: objects are maps.
- Error message texts are not modelled. Each `throw` is one `SaleError` constructor.
- The webhook status mapping, the tracking-record builder and relay forwarding are not in the modelled file.
