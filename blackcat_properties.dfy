/** What the sale-creation adapter promises, stated over the model in
    blackcat.dfy and proved. */
module BlackcatProperties {
  import opened Wrappers
  import opened JsValue
  import opened Blackcat

  // ---------------------------------------------------------------------
  // onlyDigits

  /** Filtering distributes over concatenation: every digit is kept, in
      its original order, and nothing else is. */
  lemma {:induction false} KeepDigitsConcat(a: string, b: string)
    ensures KeepDigits(a + b) == KeepDigits(a) + KeepDigits(b)
  {
    if a == [] {
      assert a + b == b;
    } else {
      assert (a + b)[0] == a[0];
      assert (a + b)[1..] == a[1..] + b;
      KeepDigitsConcat(a[1..], b);
    }
  }

  /** A character survives the filter exactly when it is a digit of the
      input. */
  lemma {:induction false} KeepDigitsMembers(s: string, c: char)
    ensures c in KeepDigits(s) <==> c in s && IsDigit(c)
  {
    if s != [] {
      KeepDigitsMembers(s[1..], c);
      assert s == [s[0]] + s[1..];
    }
  }

  /** `onlyDigits(onlyDigits(v))` is `onlyDigits(v)`. */
  lemma OnlyDigitsIdempotent(v: Option<Json>)
    ensures OnlyDigits(Some(Str(OnlyDigits(v)))) == OnlyDigits(v)
  {
  }

  /** A phone or document sent as a JSON number keeps its digits and loses
      its sign. */
  lemma OnlyDigitsOfNumber(n: int)
    requires n != 0
    ensures OnlyDigits(Some(Num(n))) == Decimal(if n < 0 then -n else n)
  {
    if n < 0 {
      KeepDigitsConcat("-", Decimal(-n));
    }
  }

  /** `onlyDigits(x || "")` is `onlyDigits(x)`. */
  lemma OnlyDigitsOrEmpty(v: Option<Json>)
    ensures OnlyDigits(Some(Or(v, Str("")))) == OnlyDigits(v)
  {
  }

  // ---------------------------------------------------------------------
  // hasTangibleItem

  /** An item is tangible exactly when it is an object whose `tangible` is
      the boolean `true`: null, primitives, arrays and a `"true"` string
      never are. */
  lemma TangibleIsFlaggedObject(item: Json)
    ensures IsTangible(item) <==> item.Obj? && "tangible" in item.fields && item.fields["tangible"] == Bool(true)
  {
  }

  /** Non-arrays and empty arrays never need shipping. */
  lemma HasTangibleItemNeedsElements(items: Json)
    requires !items.Arr? || items.elems == []
    ensures !HasTangibleItem(items)
  {
  }

  /** The test holds for a concatenation exactly when it holds for a part. */
  lemma HasTangibleItemAppend(a: seq<Json>, b: seq<Json>)
    ensures HasTangibleItem(Arr(a + b)) <==> HasTangibleItem(Arr(a)) || HasTangibleItem(Arr(b))
  {
    if HasTangibleItem(Arr(a + b)) {
      var it :| it in a + b && IsTangible(it);
      assert it in a || it in b;
    }
    if HasTangibleItem(Arr(a)) {
      var it :| it in a && IsTangible(it);
      assert it in a + b;
    }
    if HasTangibleItem(Arr(b)) {
      var it :| it in b && IsTangible(it);
      assert it in a + b;
    }
  }

  // ---------------------------------------------------------------------
  // mapToCreateSalePayload: the checks, stated on the order itself

  /** `Number(p.amount)` is finite and above zero. */
  ghost predicate PositiveAmount(p: Json)
  {
    AmountOf(p).Some? && AmountOf(p).value > 0
  }

  /** `p.items` is a non-empty array. */
  ghost predicate HasItems(p: Json)
  {
    Get(p, "items").Some? && Get(p, "items").value.Arr? && Get(p, "items").value.elems != []
  }

  /** name and email are truthy; phone and document keep at least one digit. */
  ghost predicate CustomerComplete(customer: Json)
  {
    && Truthy(Get(customer, "name"))
    && Truthy(Get(customer, "email"))
    && OnlyDigits(Get(customer, "phone")) != ""
    && OnlyDigits(DocumentSource(customer)) != ""
  }

  /** street, city and state are truthy, the street number prints as a
      non-empty string and the zip code keeps at least one digit. */
  ghost predicate AddressComplete(addr: Json)
  {
    && Truthy(Get(addr, "street"))
    && ToJsString(Or(Get(addr, "streetNumber"), Str(""))) != ""
    && OnlyDigits(Get(addr, "zipCode")) != ""
    && Truthy(Get(addr, "city"))
    && Truthy(Get(addr, "state"))
  }

  /** The mapped customer: name and email are the order's values, phone
      and document are non-empty digit strings drawn from the order. */
  ghost predicate CustomerMapped(c: Json, customer: Json)
  {
    && c.Obj? && c.fields.Keys == {"name", "email", "phone", "document"}
    && Truthy(Get(customer, "name")) && c.fields["name"] == Get(customer, "name").value
    && Truthy(Get(customer, "email")) && c.fields["email"] == Get(customer, "email").value
    && c.fields["phone"] == Str(OnlyDigits(Get(customer, "phone")))
    && c.fields["document"] == Str(OnlyDigits(DocumentSource(customer)))
    && OnlyDigits(Get(customer, "phone")) != ""
    && OnlyDigits(DocumentSource(customer)) != ""
  }

  /** The mapped shipping block: the address's required fields are copied,
      the zip code is a non-empty digit string, optional text fields
      default to "" and the country to "BR". */
  ghost predicate ShippingMapped(sh: Json, addr: Json)
  {
    && sh.Obj?
    && sh.fields.Keys == {"street", "streetNumber", "complement", "zipCode",
                          "neighborhood", "city", "state", "country"}
    && Truthy(Get(addr, "street")) && sh.fields["street"] == Get(addr, "street").value
    && Truthy(Get(addr, "city")) && sh.fields["city"] == Get(addr, "city").value
    && Truthy(Get(addr, "state")) && sh.fields["state"] == Get(addr, "state").value
    && Truthy(Get(addr, "streetNumber"))
    && sh.fields["streetNumber"] == Str(ToJsString(Get(addr, "streetNumber").value))
    && sh.fields["streetNumber"] != Str("")
    && sh.fields["zipCode"] == Str(OnlyDigits(Get(addr, "zipCode")))
    && OnlyDigits(Get(addr, "zipCode")) != ""
    && sh.fields["complement"] == Or(Get(addr, "complement"), Str(""))
    && sh.fields["neighborhood"] == Or(Get(addr, "neighborhood"), Str(""))
    && sh.fields["country"] == (if Truthy(Get(addr, "country")) then Get(addr, "country").value else Str("BR"))
  }

  /** The fields of the customer object literal. */
  lemma CustomerObjectFields(name: Json, email: Json, phone: Json, document: Json)
    ensures var m := CustomerObject(name, email, phone, document);
            && m.Obj? && m.fields.Keys == {"name", "email", "phone", "document"}
            && m.fields["name"] == name && m.fields["email"] == email
            && m.fields["phone"] == phone && m.fields["document"] == document
  {
  }

  lemma MappedCustomerChecks(customer: Json)
    ensures CustomerFilled(MappedCustomer(customer)) <==> CustomerComplete(customer)
    ensures CustomerComplete(customer) ==> CustomerMapped(MappedCustomer(customer), customer)
  {
    var m := MappedCustomer(customer);
    CustomerObjectFields(Or(Get(customer, "name"), Str("")), Or(Get(customer, "email"), Str("")),
                         Str(OnlyDigits(Some(Or(Get(customer, "phone"), Str(""))))),
                         Str(OnlyDigits(Some(Or(DocumentSource(customer), Str(""))))));
    OnlyDigitsOrEmpty(Get(customer, "phone"));
    OnlyDigitsOrEmpty(DocumentSource(customer));
    GetField(m, "name");
    GetField(m, "email");
    GetField(m, "phone");
    GetField(m, "document");
  }

  /** The fields of the shipping object literal. */
  lemma ShippingObjectFields(street: Json, streetNumber: Json, complement: Json, zipCode: Json,
                             neighborhood: Json, city: Json, state: Json, country: Json)
    ensures var m := ShippingObject(street, streetNumber, complement, zipCode,
                                    neighborhood, city, state, country);
            && m.Obj?
            && m.fields.Keys == {"street", "streetNumber", "complement", "zipCode",
                                 "neighborhood", "city", "state", "country"}
            && m.fields["street"] == street && m.fields["streetNumber"] == streetNumber
            && m.fields["complement"] == complement && m.fields["zipCode"] == zipCode
            && m.fields["neighborhood"] == neighborhood && m.fields["city"] == city
            && m.fields["state"] == state && m.fields["country"] == country
  {
  }

  /** The fields of the shipping object built from an address. */
  lemma MappedShippingFields(addr: Json)
    ensures var m := MappedShipping(addr);
            && m.Obj?
            && m.fields.Keys == {"street", "streetNumber", "complement", "zipCode",
                                 "neighborhood", "city", "state", "country"}
            && m.fields["street"] == Or(Get(addr, "street"), Str(""))
            && m.fields["streetNumber"] == Str(ToJsString(Or(Get(addr, "streetNumber"), Str(""))))
            && m.fields["complement"] == Or(Get(addr, "complement"), Str(""))
            && m.fields["zipCode"] == Str(OnlyDigits(Some(Or(Get(addr, "zipCode"), Str("")))))
            && m.fields["neighborhood"] == Or(Get(addr, "neighborhood"), Str(""))
            && m.fields["city"] == Or(Get(addr, "city"), Str(""))
            && m.fields["state"] == Or(Get(addr, "state"), Str(""))
            && m.fields["country"] == Or(Get(addr, "country"), Str("BR"))
  {
    ShippingObjectFields(
      Or(Get(addr, "street"), Str("")),
      Str(ToJsString(Or(Get(addr, "streetNumber"), Str("")))),
      Or(Get(addr, "complement"), Str("")),
      Str(OnlyDigits(Some(Or(Get(addr, "zipCode"), Str(""))))),
      Or(Get(addr, "neighborhood"), Str("")),
      Or(Get(addr, "city"), Str("")),
      Or(Get(addr, "state"), Str("")),
      Or(Get(addr, "country"), Str("BR")));
  }

  /** The check on the built shipping block is a check on the address. */
  lemma MappedShippingChecks(addr: Json)
    ensures ShippingFilled(MappedShipping(addr)) <==> AddressComplete(addr)
  {
    var m := MappedShipping(addr);
    MappedShippingFields(addr);
    OnlyDigitsOrEmpty(Get(addr, "zipCode"));
    GetField(m, "street");
    GetField(m, "streetNumber");
    GetField(m, "zipCode");
    GetField(m, "city");
    GetField(m, "state");
  }

  lemma MappedShippingContents(addr: Json)
    ensures AddressComplete(addr) ==> ShippingMapped(MappedShipping(addr), addr)
  {
    MappedShippingFields(addr);
    OnlyDigitsOrEmpty(Get(addr, "zipCode"));
  }

  /** A truthy document of object type (`{type, number}`, or an array) is
      read from its `number`, whatever that holds; any other document is
      read directly. */
  lemma DocumentFromNumber(customer: Json)
    ensures var doc := Get(customer, "document");
            var document := MappedCustomer(customer).fields["document"];
            && (Truthy(doc) && (doc.value.Obj? || doc.value.Arr?) ==>
                  document == Str(OnlyDigits(Get(doc.value, "number"))))
            && (!(Truthy(doc) && (doc.value.Obj? || doc.value.Arr?)) ==>
                  document == Str(OnlyDigits(doc)))
  {
    CustomerObjectFields(Or(Get(customer, "name"), Str("")), Or(Get(customer, "email"), Str("")),
                         Str(OnlyDigits(Some(Or(Get(customer, "phone"), Str(""))))),
                         Str(OnlyDigits(Some(Or(DocumentSource(customer), Str(""))))));
    OnlyDigitsOrEmpty(DocumentSource(customer));
  }

  /** The mapper fails in a fixed order: amount, items, customer, address;
      it succeeds exactly when every check passes. */
  lemma MapToCreateSalePayloadErrors(front: Json)
    ensures var r := MapToCreateSalePayload(front);
            var p := PayloadOf(front);
            var c := CustomerOf(p);
            var needsShipping := HasItems(p) && HasTangibleItem(Get(p, "items").value);
            && (r == Err(InvalidAmount) <==> !PositiveAmount(p))
            && (r == Err(MissingItems) <==> PositiveAmount(p) && !HasItems(p))
            && (r == Err(IncompleteCustomer) <==>
                  PositiveAmount(p) && HasItems(p) && !CustomerComplete(c))
            && (r == Err(MissingAddress) <==>
                  PositiveAmount(p) && HasItems(p) && CustomerComplete(c)
                  && needsShipping && !Truthy(Some(AddressOf(c))))
            && (r == Err(IncompleteAddress) <==>
                  PositiveAmount(p) && HasItems(p) && CustomerComplete(c)
                  && needsShipping && Truthy(Some(AddressOf(c))) && !AddressComplete(AddressOf(c)))
            && (r.Ok? <==>
                  PositiveAmount(p) && HasItems(p) && CustomerComplete(c)
                  && (needsShipping ==> Truthy(Some(AddressOf(c))) && AddressComplete(AddressOf(c))))
  {
    var p := PayloadOf(front);
    var c := CustomerOf(p);
    var a := AddressOf(c);
    var r := MapToCreateSalePayload(front);
    MappedCustomerChecks(c);
    MappedShippingChecks(a);
    assert |ItemsOf(p)| > 0 <==> HasItems(p);
    if !PositiveAmount(p) {
      assert r == Err(InvalidAmount);
    } else if !HasItems(p) {
      assert r == Err(MissingItems);
    } else {
      assert Arr(ItemsOf(p)) == Get(p, "items").value;
      if !CustomerComplete(c) {
        assert r == Err(IncompleteCustomer);
      } else if HasTangibleItem(Get(p, "items").value) && !Truthy(Some(a)) {
        assert r == Err(MissingAddress);
      } else if HasTangibleItem(Get(p, "items").value) && !AddressComplete(a) {
        assert r == Err(IncompleteAddress);
      } else {
        assert r.Ok?;
      }
    }
  }

  /** On success the payload carries the order's amount, its currency or
      "BRL", "PIX" as the payment method, the order's items, a shipping
      block exactly when some item is tangible, and each optional field
      exactly when the order's value is truthy, with that value. */
  lemma MapToCreateSalePayloadAccepts(front: Json, out: Json)
    requires MapToCreateSalePayload(front) == Ok(out)
    ensures var p := PayloadOf(front);
            && out.Obj?
            && PositiveAmount(p) && HasItems(p)
            && out.fields.Keys == BaseKeys
                                  + (if HasTangibleItem(Get(p, "items").value) then {"shipping"} else {})
                                  + (set k | k in OptionalKeys && Truthy(Get(p, k)))
            && out.fields["amount"] == Num(AmountOf(p).value)
            && out.fields["currency"] == (if Truthy(Get(p, "currency")) then Get(p, "currency").value else Str("BRL"))
            && out.fields["paymentMethod"] == Str("PIX")
            && out.fields["items"] == Get(p, "items").value
            && (forall k | k in OptionalKeys && k in out.fields :: Get(p, k) == Some(out.fields[k]))
  {
    var p := PayloadOf(front);
    var c := CustomerOf(p);
    var shipping := if HasTangibleItem(Get(p, "items").value) then Some(MappedShipping(AddressOf(c))) else None;
    var currency := Or(Get(p, "currency"), Str("BRL"));
    var items := Get(p, "items").value;
    MapToCreateSalePayloadBuilds(front);
    OptionalFieldsCopied(p);
    SalePayloadKeys(AmountOf(p).value, currency, items, MappedCustomer(c), shipping, OptionalFields(p));
    SalePayloadFixed(AmountOf(p).value, currency, items, MappedCustomer(c), shipping, OptionalFields(p));
    SalePayloadExtras(AmountOf(p).value, currency, items, MappedCustomer(c), shipping, OptionalFields(p));
    OptionalKeysDisjoint();
    forall k | k in OptionalKeys && k in out.fields ensures Get(p, k) == Some(out.fields[k]) {
      assert k in OptionalFields(p);
    }
  }

  /** On success the payload's customer is the order's customer with phone
      and document reduced to non-empty digit strings. */
  lemma MapToCreateSalePayloadCustomer(front: Json, out: Json)
    requires MapToCreateSalePayload(front) == Ok(out)
    ensures out.Obj? && "customer" in out.fields
    ensures CustomerMapped(out.fields["customer"], CustomerOf(PayloadOf(front)))
  {
    var p := PayloadOf(front);
    var c := CustomerOf(p);
    var shipping := if HasTangibleItem(Get(p, "items").value) then Some(MappedShipping(AddressOf(c))) else None;
    MapToCreateSalePayloadBuilds(front);
    MappedCustomerChecks(c);
    SalePayloadFixed(AmountOf(p).value, Or(Get(p, "currency"), Str("BRL")), Get(p, "items").value,
                     MappedCustomer(c), shipping, OptionalFields(p));
  }

  /** On success `shipping` is present exactly when some item is tangible,
      and then it is the mapped, complete address. */
  lemma MapToCreateSalePayloadShipping(front: Json, out: Json)
    requires MapToCreateSalePayload(front) == Ok(out)
    ensures var p := PayloadOf(front);
            && out.Obj? && HasItems(p)
            && ("shipping" in out.fields <==> HasTangibleItem(Get(p, "items").value))
            && ("shipping" in out.fields ==> ShippingMapped(out.fields["shipping"], AddressOf(CustomerOf(p))))
  {
    var p := PayloadOf(front);
    var c := CustomerOf(p);
    var shipping := if HasTangibleItem(Get(p, "items").value) then Some(MappedShipping(AddressOf(c))) else None;
    MapToCreateSalePayloadBuilds(front);
    MappedShippingContents(AddressOf(c));
    SalePayloadExtras(AmountOf(p).value, Or(Get(p, "currency"), Str("BRL")), Get(p, "items").value,
                      MappedCustomer(c), shipping, OptionalFields(p));
  }

  /** A successful mapping returns the object literal built from the order. */
  lemma MapToCreateSalePayloadBuilds(front: Json)
    ensures var r := MapToCreateSalePayload(front);
            var p := PayloadOf(front);
            var c := CustomerOf(p);
            r.Ok? ==>
              && PositiveAmount(p) && HasItems(p) && CustomerComplete(c)
              && r.value == SalePayload(AmountOf(p).value, Or(Get(p, "currency"), Str("BRL")),
                                        Get(p, "items").value, MappedCustomer(c),
                                        if HasTangibleItem(Get(p, "items").value)
                                        then Some(MappedShipping(AddressOf(c))) else None,
                                        OptionalFields(p))
              && (HasTangibleItem(Get(p, "items").value) ==> AddressComplete(AddressOf(c)))
  {
    var p := PayloadOf(front);
    MapToCreateSalePayloadErrors(front);
    if HasItems(p) {
      assert Arr(ItemsOf(p)) == Get(p, "items").value;
    }
  }

  /** The optional fields are the truthy ones among the optional keys, each
      with the order's value. */
  lemma OptionalFieldsCopied(p: Json)
    ensures OptionalFields(p).Keys == (set k | k in OptionalKeys && Truthy(Get(p, k)))
    ensures forall k | k in OptionalFields(p) :: Get(p, k) == Some(OptionalFields(p)[k])
  {
  }

  /** No optional key is a fixed key or `shipping`. */
  lemma OptionalKeysDisjoint()
    ensures OptionalKeys !! BaseKeys + {"shipping"}
  {
  }

  /** The object literal's keys: the fixed ones, `shipping` when there is
      one, and the optional ones. */
  lemma SalePayloadKeys(amount: int, currency: Json, items: Json, customer: Json,
                          shipping: Option<Json>, optional: map<string, Json>)
    requires optional.Keys <= OptionalKeys
    ensures var out := SalePayload(amount, currency, items, customer, shipping, optional);
            && out.Obj?
            && out.fields.Keys == BaseKeys + (if shipping.Some? then {"shipping"} else {}) + optional.Keys
  {
  }

  /** The optional keys overwrite none of the fixed fields. */
  lemma SalePayloadFixed(amount: int, currency: Json, items: Json, customer: Json,
                          shipping: Option<Json>, optional: map<string, Json>)
    requires optional.Keys <= OptionalKeys
    ensures var out := SalePayload(amount, currency, items, customer, shipping, optional);
            && out.Obj?
            && out.fields["amount"] == Num(amount)
            && out.fields["currency"] == currency
            && out.fields["paymentMethod"] == Str("PIX")
            && out.fields["items"] == items
            && out.fields["customer"] == customer
  {
    OptionalKeysDisjoint();
  }

  /** `shipping` is present exactly when there is one; optional fields keep
      their values. */
  lemma SalePayloadExtras(amount: int, currency: Json, items: Json, customer: Json,
                          shipping: Option<Json>, optional: map<string, Json>)
    requires optional.Keys <= OptionalKeys
    ensures var out := SalePayload(amount, currency, items, customer, shipping, optional);
            && out.Obj?
            && ("shipping" in out.fields <==> shipping.Some?)
            && (shipping.Some? ==> out.fields["shipping"] == shipping.value)
            && (forall k | k in optional :: out.fields[k] == optional[k])
  {
    OptionalKeysDisjoint();
  }

  /** The amount may arrive as a decimal numeral; it is sent as a number. */
  lemma AmountFromNumeral(p: Json, n: nat)
    requires Get(p, "amount") == Some(Str(Decimal(n)))
    ensures AmountOf(p) == Some(n)
  {
    ParseDecimalOfDecimal(n);
  }

  // ---------------------------------------------------------------------
  // normalizeForFrontend

  /** The transaction id is the first truthy of its candidates, in the
      order `data.transactionId`, `data.id`, `root.transactionId`, `root.id`. */
  lemma TransactionIdIsFirstTruthy(root: Json, data: Json)
    ensures ResolvedTransactionId(root, data)
            == FirstTruthy([Get(data, "transactionId"), Get(data, "id"),
                            Get(root, "transactionId"), Get(root, "id")], Null)
  {
    var cands := [Get(data, "transactionId"), Get(data, "id"), Get(root, "transactionId"), Get(root, "id")];
    assert cands[0..] == cands;
    FirstTruthyFrom(cands, 0, Null);
    FirstTruthyFrom(cands, 1, Null);
    FirstTruthyFrom(cands, 2, Null);
    FirstTruthyFrom(cands, 3, Null);
  }

  /** The pix object is `data.pix` when truthy, else `root.pix` when truthy,
      else an empty object. */
  lemma PixObjectIsFirstTruthy(root: Json, data: Json)
    ensures PixObject(root, data) == FirstTruthy([Get(data, "pix"), Get(root, "pix")], Obj(map[]))
  {
    var cands := [Get(data, "pix"), Get(root, "pix")];
    assert cands[0..] == cands;
    FirstTruthyFrom(cands, 0, Obj(map[]));
    FirstTruthyFrom(cands, 1, Obj(map[]));
  }

  /** The PIX code is the first truthy of its seven candidates: four keys of
      the pix object, then three keys of the data. */
  lemma PixCodeIsFirstTruthy(pixObj: Json, data: Json)
    ensures ResolvedPixCode(pixObj, data)
            == FirstTruthy([Get(pixObj, "qrcode"), Get(pixObj, "qrCode"), Get(pixObj, "copyPaste"),
                            Get(pixObj, "code"), Get(data, "qrcode"), Get(data, "qrCode"),
                            Get(data, "pixCode")], Null)
  {
    var cands := [Get(pixObj, "qrcode"), Get(pixObj, "qrCode"), Get(pixObj, "copyPaste"),
                  Get(pixObj, "code"), Get(data, "qrcode"), Get(data, "qrCode"), Get(data, "pixCode")];
    assert cands[0..] == cands;
    FirstTruthyFrom(cands, 0, Null);
    FirstTruthyFrom(cands, 1, Null);
    FirstTruthyFrom(cands, 2, Null);
    FirstTruthyFrom(cands, 3, Null);
    FirstTruthyFrom(cands, 4, Null);
    FirstTruthyFrom(cands, 5, Null);
    FirstTruthyFrom(cands, 6, Null);
  }

  /** Once any candidate names the transaction, the normalised data exposes
      a truthy value under both `id` and `transactionId`. */
  lemma IdsExposed(root: Json, data: Json)
    requires Truthy(Get(data, "transactionId")) || Truthy(Get(data, "id"))
             || Truthy(Get(root, "transactionId")) || Truthy(Get(root, "id"))
    ensures var nd := NormalizeData(root, data);
            Truthy(Some(nd.fields["id"])) && Truthy(Some(nd.fields["transactionId"]))
  {
  }

  lemma NotIndexKey(k: string)
    requires k != "" && !IsDigit(k[0])
    ensures !IsIndexKey(k)
  {
  }

  /** A key of the gateway's data that normalisation does not write reads
      the same through the normalised data. */
  lemma GetNormalized(root: Json, data: Json, k: string)
    requires !IsIndexKey(k) && k !in NormalizedKeys
    ensures Get(NormalizeData(root, data), k) == Get(data, k)
  {
    GetSpread(data, k);
  }

  /** What the frontend reads (`r.data || r`) is the normalised data. */
  lemma FrontendSeesNormalizedData(apiResult: Json)
    ensures var root := RootOf(apiResult);
            DataOf(NormalizeForFrontend(apiResult)) == NormalizeData(root, DataOf(root))
  {
    var root := RootOf(apiResult);
    if Truthy(Get(root, "data")) {
      var nd := NormalizeData(root, DataOf(root));
      assert Get(NormalizeForFrontend(apiResult), "data") == Some(nd);
    } else {
      assert DataOf(root) == root;
      var nd := NormalizeData(root, root);
      assert NormalizeForFrontend(apiResult) == nd;
      NotIndexKey("data");
      GetNormalized(root, root, "data");
    }
  }

  /** A key of the pix source other than `qrcode` reads the same through
      the normalised pix object. */
  lemma GetNormalizedPix(root: Json, data: Json, k: string)
    requires !IsIndexKey(k) && k != "qrcode"
    ensures var pix := NormalizeData(root, data).fields["pix"];
            Get(pix, k) == Get(PixObject(root, data), k)
  {
    GetSpread(PixObject(root, data), k);
  }

  /** When the first pass found no PIX code, the second finds none either. */
  lemma NoPixCodeStaysNone(root: Json, data: Json)
    requires !Truthy(Get(NormalizeData(root, data).fields["pix"], "qrcode"))
    ensures var nd := NormalizeData(root, data);
            ResolvedPixCode(nd.fields["pix"], nd) == Null
            && nd.fields["pix"].fields["qrcode"] == Null
  {
    var nd := NormalizeData(root, data);
    var pix := nd.fields["pix"];
    var src := PixObject(root, data);
    assert Get(pix, "qrcode") == Some(pix.fields["qrcode"]);
    NotIndexKey("qrCode");
    NotIndexKey("copyPaste");
    NotIndexKey("code");
    NotIndexKey("qrcode");
    NotIndexKey("pixCode");
    GetNormalizedPix(root, data, "qrCode");
    GetNormalizedPix(root, data, "copyPaste");
    GetNormalizedPix(root, data, "code");
    GetNormalized(root, data, "qrcode");
    GetNormalized(root, data, "qrCode");
    GetNormalized(root, data, "pixCode");
  }

  /** Normalising the pix object a second time leaves it as it is. */
  lemma PixStable(root: Json, data: Json, root2: Json)
    ensures var nd := NormalizeData(root, data);
            var pix := nd.fields["pix"];
            && PixObject(root2, nd) == pix
            && Obj(Spread(pix)["qrcode" := Or(Get(pix, "qrcode"), ResolvedPixCode(pix, nd))]) == pix
  {
    var nd := NormalizeData(root, data);
    var pix := nd.fields["pix"];
    assert Get(nd, "pix") == Some(pix);
    assert Get(pix, "qrcode") == Some(pix.fields["qrcode"]);
    if !Truthy(Get(pix, "qrcode")) {
      NoPixCodeStaysNone(root, data);
    }
    assert pix.fields["qrcode" := pix.fields["qrcode"]] == pix.fields;
  }

  /** A second pass resolves the same `id` and `transactionId`, provided the
      new envelope offers no transaction id where the first pass found none. */
  lemma IdsStable(root: Json, data: Json, root2: Json)
    requires !Truthy(Some(ResolvedTransactionId(root, data))) ==>
               !Truthy(Get(root2, "transactionId")) && !Truthy(Get(root2, "id"))
    ensures var nd := NormalizeData(root, data);
            && nd.fields["id"] == Or(Get(nd, "id"), ResolvedTransactionId(root2, nd))
            && nd.fields["transactionId"] == Or(Get(nd, "transactionId"), ResolvedTransactionId(root2, nd))
  {
    var nd := NormalizeData(root, data);
    assert Get(nd, "id") == Some(nd.fields["id"]);
    assert Get(nd, "transactionId") == Some(nd.fields["transactionId"]);
  }

  /** Data whose `id`, `transactionId` and `pix` already hold what a pass
      would write is a fixed point of that pass. */
  lemma NormalizeDataFixedPoint(root2: Json, nd: Json)
    requires nd.Obj? && "id" in nd.fields && "transactionId" in nd.fields && "pix" in nd.fields
    requires nd.fields["id"] == Or(Get(nd, "id"), ResolvedTransactionId(root2, nd))
    requires nd.fields["transactionId"] == Or(Get(nd, "transactionId"), ResolvedTransactionId(root2, nd))
    requires var pix := nd.fields["pix"];
             && PixObject(root2, nd) == pix
             && Obj(Spread(pix)["qrcode" := Or(Get(pix, "qrcode"), ResolvedPixCode(pix, nd))]) == pix
    ensures NormalizeData(root2, nd) == nd
  {
    assert nd.fields["id" := nd.fields["id"]]["transactionId" := nd.fields["transactionId"]]
                    ["pix" := nd.fields["pix"]] == nd.fields;
  }

  /** Normalising already-normalised data changes nothing, provided the new
      envelope offers no transaction id where the first pass found none. */
  lemma NormalizeDataStable(root: Json, data: Json, root2: Json)
    requires !Truthy(Some(ResolvedTransactionId(root, data))) ==>
               !Truthy(Get(root2, "transactionId")) && !Truthy(Get(root2, "id"))
    ensures NormalizeData(root2, NormalizeData(root, data)) == NormalizeData(root, data)
  {
    IdsStable(root, data, root2);
    PixStable(root, data, root2);
    NormalizeDataFixedPoint(root2, NormalizeData(root, data));
  }

  /** An answer with a truthy `data` envelope normalises to a fixed point. */
  lemma IdempotentWithEnvelope(apiResult: Json)
    requires Truthy(Get(RootOf(apiResult), "data"))
    ensures NormalizeForFrontend(NormalizeForFrontend(apiResult)) == NormalizeForFrontend(apiResult)
  {
    var root := RootOf(apiResult);
    var data := DataOf(root);
    var nd := NormalizeData(root, data);
    var r := NormalizeForFrontend(apiResult);
    assert RootOf(r) == r;
    assert Get(r, "data") == Some(nd);
    assert DataOf(r) == nd;
    assert Get(r, "transactionId") == Get(root, "transactionId");
    assert Get(r, "id") == Get(root, "id");
    NormalizeDataStable(root, data, r);
    assert r.fields["data" := nd] == r.fields;
  }

  /** An answer without a truthy `data` normalises to a fixed point. */
  lemma IdempotentWithoutEnvelope(apiResult: Json)
    requires !Truthy(Get(RootOf(apiResult), "data"))
    ensures NormalizeForFrontend(NormalizeForFrontend(apiResult)) == NormalizeForFrontend(apiResult)
  {
    var root := RootOf(apiResult);
    assert DataOf(root) == root;
    var nd := NormalizeData(root, root);
    assert NormalizeForFrontend(apiResult) == nd;
    NotIndexKey("data");
    GetNormalized(root, root, "data");
    assert RootOf(nd) == nd && DataOf(nd) == nd;
    assert Get(nd, "id") == Some(nd.fields["id"]);
    assert Get(nd, "transactionId") == Some(nd.fields["transactionId"]);
    NormalizeDataStable(root, root, nd);
  }

  /** `normalizeForFrontend` is idempotent. */
  lemma NormalizeIdempotent(apiResult: Json)
    ensures NormalizeForFrontend(NormalizeForFrontend(apiResult)) == NormalizeForFrontend(apiResult)
  {
    if Truthy(Get(RootOf(apiResult), "data")) {
      IdempotentWithEnvelope(apiResult);
    } else {
      IdempotentWithoutEnvelope(apiResult);
    }
  }

  /** A code the gateway returns under `data.pix.qrCode` reaches the
      frontend under `data.pix.qrcode`. */
  lemma PixCodeSurfaces(apiResult: Json, code: string)
    requires apiResult.Obj? && "data" in apiResult.fields
    requires var data := apiResult.fields["data"];
             data.Obj? && "pix" in data.fields
             && !Truthy(Get(data.fields["pix"], "qrcode"))
             && Get(data.fields["pix"], "qrCode") == Some(Str(code))
    requires code != ""
    ensures var r := NormalizeForFrontend(apiResult);
            "data" in r.fields && r.fields["data"].Obj? && "pix" in r.fields["data"].fields
            && r.fields["data"].fields["pix"].Obj?
            && r.fields["data"].fields["pix"].fields["qrcode"] == Str(code)
            && r.fields["data"].fields["pix"].fields["qrCode"] == Str(code)
  {
    var data := apiResult.fields["data"];
    var pix := data.fields["pix"];
    assert PixObject(apiResult, data) == pix;
  }
}
