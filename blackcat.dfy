/** The sale-creation adapter's pure core: the order-to-gateway payload
    mapper and the normaliser of the gateway's answer (api/blackcat.js). */
module Blackcat {
  import opened Wrappers
  import opened JsValue

  // ---------------------------------------------------------------------
  // onlyDigits

  /** `s.replace(/\D/g, "")`: drops every character outside '0'..'9'. */
  function KeepDigits(s: string): (r: string)
    ensures AllDigits(r)
    ensures |r| <= |s|
    ensures AllDigits(s) ==> r == s
  {
    if s == [] then []
    else (if IsDigit(s[0]) then [s[0]] else []) + KeepDigits(s[1..])
  }

  /** `onlyDigits(v)`: `String(v || "")` with every non-digit removed. */
  function OnlyDigits(v: Option<Json>): (r: string)
    ensures AllDigits(r)
    ensures !Truthy(v) ==> r == ""
    ensures v.Some? && v.value.Str? ==> r == KeepDigits(v.value.s)
  {
    KeepDigits(ToJsString(Or(v, Str(""))))
  }

  // ---------------------------------------------------------------------
  // hasTangibleItem

  /** `it && it.tangible === true` */
  predicate IsTangible(item: Json)
  {
    Truthy(Some(item)) && Get(item, "tangible") == Some(Bool(true))
  }

  /** `Array.isArray(items) && items.some(IsTangible)` */
  predicate HasTangibleItem(items: Json)
  {
    items.Arr? && exists it | it in items.elems :: IsTangible(it)
  }

  // ---------------------------------------------------------------------
  // mapToCreateSalePayload

  datatype SaleError =
    | InvalidAmount       // amount is not a finite number above zero
    | MissingItems        // items is missing, not an array, or empty
    | IncompleteCustomer  // name, email, phone or document is empty
    | MissingAddress      // a tangible item and no customer.address
    | IncompleteAddress   // street, number, zip, city or state is empty

  /** The optional fields copied to the gateway payload when truthy. */
  const OptionalKeys: set<string> :=
    {"pix", "metadata", "postbackUrl", "externalRef",
     "utm_source", "utm_medium", "utm_campaign", "utm_content", "utm_term"}

  /** The fields every gateway payload has. */
  const BaseKeys: set<string> :=
    {"amount", "currency", "paymentMethod", "items", "customer"}

  /** `frontPayload || {}` */
  function PayloadOf(front: Json): Json
  {
    Or(Some(front), Obj(map[]))
  }

  /** `Number(p.amount)`; None when it is NaN. */
  function AmountOf(p: Json): Option<int>
  {
    ToNumber(Get(p, "amount"))
  }

  /** `Array.isArray(p.items) ? p.items : []` */
  function ItemsOf(p: Json): seq<Json>
  {
    match Get(p, "items")
    case Some(Arr(xs)) => xs
    case _ => []
  }

  /** `p.customer || {}` */
  function CustomerOf(p: Json): Json
  {
    Or(Get(p, "customer"), Obj(map[]))
  }

  /** `customer?.address || null` */
  function AddressOf(customer: Json): Json
  {
    Or(Get(customer, "address"), Null)
  }

  /** `docFromFront`: `customer.document.number` when the document is an
      object (`typeof` answers "object" for arrays too), else the document. */
  function DocumentSource(customer: Json): Option<Json>
  {
    var doc := Get(customer, "document");
    if Truthy(doc) && (doc.value.Obj? || doc.value.Arr?) then Get(doc.value, "number") else doc
  }

  /** `mappedCustomer` */
  function MappedCustomer(customer: Json): Json
  {
    CustomerObject(
      Or(Get(customer, "name"), Str("")),
      Or(Get(customer, "email"), Str("")),
      Str(OnlyDigits(Some(Or(Get(customer, "phone"), Str(""))))),
      Str(OnlyDigits(Some(Or(DocumentSource(customer), Str(""))))))
  }

  /** The customer object literal. */
  function CustomerObject(name: Json, email: Json, phone: Json, document: Json): Json
  {
    Obj(map["name" := name, "email" := email, "phone" := phone, "document" := document])
  }

  /** The `shipping` object built from a truthy address. */
  function MappedShipping(addr: Json): Json
  {
    ShippingObject(
      Or(Get(addr, "street"), Str("")),
      Str(ToJsString(Or(Get(addr, "streetNumber"), Str("")))),
      Or(Get(addr, "complement"), Str("")),
      Str(OnlyDigits(Some(Or(Get(addr, "zipCode"), Str(""))))),
      Or(Get(addr, "neighborhood"), Str("")),
      Or(Get(addr, "city"), Str("")),
      Or(Get(addr, "state"), Str("")),
      Or(Get(addr, "country"), Str("BR")))
  }

  /** The shipping object literal. */
  function ShippingObject(street: Json, streetNumber: Json, complement: Json, zipCode: Json,
                          neighborhood: Json, city: Json, state: Json, country: Json): Json
  {
    Obj(map[
      "street" := street,
      "streetNumber" := streetNumber,
      "complement" := complement,
      "zipCode" := zipCode,
      "neighborhood" := neighborhood,
      "city" := city,
      "state" := state,
      "country" := country])
  }

  /** The customer check: `!name || !email || !phone || !document` fails. */
  predicate CustomerFilled(c: Json)
  {
    Truthy(Get(c, "name")) && Truthy(Get(c, "email")) && Truthy(Get(c, "phone")) && Truthy(Get(c, "document"))
  }

  /** The address check: `!street || !streetNumber || !zipCode || !city || !state` fails. */
  predicate ShippingFilled(sh: Json)
  {
    && Truthy(Get(sh, "street")) && Truthy(Get(sh, "streetNumber")) && Truthy(Get(sh, "zipCode"))
    && Truthy(Get(sh, "city")) && Truthy(Get(sh, "state"))
  }

  /** The conditional spreads `...(p.k ? { k: p.k } : {})`. */
  function OptionalFields(p: Json): map<string, Json>
  {
    map k | k in OptionalKeys && Truthy(Get(p, k)) :: Get(p, k).value
  }

  /** `mapToCreateSalePayload(frontPayload)`; each `throw` is an `Err`. */
  function MapToCreateSalePayload(front: Json): Result<Json, SaleError>
  {
    var p := PayloadOf(front);
    var amount := AmountOf(p);
    if amount.None? || amount.value <= 0 then Err(InvalidAmount)
    else
      var items := ItemsOf(p);
      if |items| == 0 then Err(MissingItems)
      else
        var customer := CustomerOf(p);
        var mapped := MappedCustomer(customer);
        if !CustomerFilled(mapped) then Err(IncompleteCustomer)
        else
          var needsShipping := HasTangibleItem(Arr(items));
          var addr := AddressOf(customer);
          if needsShipping && !Truthy(Some(addr)) then Err(MissingAddress)
          else if needsShipping && !ShippingFilled(MappedShipping(addr)) then Err(IncompleteAddress)
          else
            Ok(SalePayload(amount.value, Or(Get(p, "currency"), Str("BRL")), Arr(items), mapped,
                           if needsShipping then Some(MappedShipping(addr)) else None,
                           OptionalFields(p)))
  }

  /** The returned object literal: the fixed fields, `shipping` when there
      is one, then the optional fields. */
  function SalePayload(amount: int, currency: Json, items: Json, customer: Json,
                       shipping: Option<Json>, optional: map<string, Json>): Json
  {
    Obj(
      map[
        "amount" := Num(amount),
        "currency" := currency,
        "paymentMethod" := Str("PIX"),
        "items" := items,
        "customer" := customer]
      + (if shipping.Some? then map["shipping" := shipping.value] else map[])
      + optional)
  }

  // ---------------------------------------------------------------------
  // normalizeForFrontend

  /** `apiResult || {}` */
  function RootOf(apiResult: Json): Json
  {
    Or(Some(apiResult), Obj(map[]))
  }

  /** `root.data || root` */
  function DataOf(root: Json): Json
  {
    Or(Get(root, "data"), root)
  }

  /** The transaction id: `data.transactionId || data.id ||
      root.transactionId || root.id || null`. */
  function ResolvedTransactionId(root: Json, data: Json): Json
  {
    Or(Get(data, "transactionId"), Or(Get(data, "id"),
      Or(Get(root, "transactionId"), Or(Get(root, "id"), Null))))
  }

  /** `data.pix || root.pix || {}` */
  function PixObject(root: Json, data: Json): Json
  {
    Or(Get(data, "pix"), Or(Get(root, "pix"), Obj(map[])))
  }

  /** The PIX copy-paste code: the `||` chain over the known key names of the
      pix object and then of the data, else null. */
  function ResolvedPixCode(pixObj: Json, data: Json): Json
  {
    Or(Get(pixObj, "qrcode"), Or(Get(pixObj, "qrCode"), Or(Get(pixObj, "copyPaste"),
      Or(Get(pixObj, "code"), Or(Get(data, "qrcode"), Or(Get(data, "qrCode"),
      Or(Get(data, "pixCode"), Null)))))))
  }

  const NormalizedKeys: set<string> := {"id", "transactionId", "pix"}

  /** `normalizedData`: the gateway's data object with `id`,
      `transactionId` and `pix.qrcode` filled in and everything else kept. */
  function NormalizeData(root: Json, data: Json): (nd: Json)
    ensures nd.Obj?
    ensures nd.fields.Keys == Spread(data).Keys + NormalizedKeys
    ensures forall k | k in Spread(data) && k !in NormalizedKeys :: nd.fields[k] == Spread(data)[k]
    ensures Truthy(Get(data, "id")) ==> nd.fields["id"] == Get(data, "id").value
    ensures !Truthy(Get(data, "id")) ==> nd.fields["id"] == ResolvedTransactionId(root, data)
    ensures Truthy(Get(data, "transactionId")) ==> nd.fields["transactionId"] == Get(data, "transactionId").value
    ensures !Truthy(Get(data, "transactionId")) ==> nd.fields["transactionId"] == ResolvedTransactionId(root, data)
    ensures var pix := nd.fields["pix"];
            var src := PixObject(root, data);
            && pix.Obj?
            && pix.fields.Keys == Spread(src).Keys + {"qrcode"}
            && (forall k | k in Spread(src) && k != "qrcode" :: pix.fields[k] == Spread(src)[k])
            && (Truthy(Get(src, "qrcode")) ==> pix.fields["qrcode"] == Get(src, "qrcode").value)
            && (!Truthy(Get(src, "qrcode")) ==> pix.fields["qrcode"] == ResolvedPixCode(src, data))
  {
    var transactionId := ResolvedTransactionId(root, data);
    var pixObj := PixObject(root, data);
    var pixCode := ResolvedPixCode(pixObj, data);
    Obj(Spread(data)[
      "id" := Or(Get(data, "id"), transactionId)][
      "transactionId" := Or(Get(data, "transactionId"), transactionId)][
      "pix" := Obj(Spread(pixObj)["qrcode" := Or(Get(pixObj, "qrcode"), pixCode)])])
  }

  /** `normalizeForFrontend(apiResult)`: the normalised data, re-wrapped in
      the gateway's envelope when the answer carried a truthy `data`. */
  function NormalizeForFrontend(apiResult: Json): (r: Json)
    ensures r.Obj?
    ensures var root := RootOf(apiResult);
            Truthy(Get(root, "data")) ==>
              && root.Obj?
              && r.fields.Keys == root.fields.Keys
              && r.fields["data"] == NormalizeData(root, DataOf(root))
              && (forall k | k in root.fields && k != "data" :: r.fields[k] == root.fields[k])
    ensures var root := RootOf(apiResult);
            !Truthy(Get(root, "data")) ==> r == NormalizeData(root, root)
  {
    var root := RootOf(apiResult);
    var normalizedData := NormalizeData(root, DataOf(root));
    if Truthy(Get(root, "data")) then Obj(Spread(root)["data" := normalizedData]) else normalizedData
  }
}
