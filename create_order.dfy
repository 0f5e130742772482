/** `CreateOrderUseCase`: validate the requested lines against the catalog,
    price them, open a payment intent, then persist a PENDING order.

    The product collection is a map from product id to name and price; the
    payment provider's `createPaymentIntent` is a function the use case is
    given, which may fail. */
module CreateOrder {
  import opened Common
  import opened OrderEntity
  import opened OrdersRepository
  import opened ArrayUtils

  datatype CatalogEntry = CatalogEntry(name: string, price: int)
  type Catalog = map<string, CatalogEntry>

  /** A product as `findByIds` returns it. */
  datatype Product = Product(id: string, name: string, price: int)

  /** One requested line, `{ productId, quantity }`. */
  datatype CreateOrderItem = CreateOrderItem(productId: string, quantity: int)

  /** What is sent to `createPaymentIntent` (the metadata holds the user). */
  datatype PaymentIntentRequest = PaymentIntentRequest(amount: int, currency: string, userId: UserId)
  datatype PaymentIntent = PaymentIntent(id: string, clientSecret: string)

  datatype CreateOrderResult = CreateOrderResult(order: Order, clientSecret: string)

  function ProductOf(catalog: Catalog, id: string): Product
    requires id in catalog
  {
    Product(id, catalog[id].name, catalog[id].price)
  }

  function ProductKey(p: Product): string { p.id }

  /** `items.map((item) => item.productId)`. */
  function ProductIds(items: seq<CreateOrderItem>): (ids: seq<string>)
    ensures |ids| == |items| && forall i :: 0 <= i < |items| ==> ids[i] == items[i].productId
  {
    if items == [] then [] else ProductIds(items[..|items| - 1]) + [items[|items| - 1].productId]
  }

  predicate AllKnown(catalog: Catalog, ids: seq<string>)
  {
    forall i :: 0 <= i < |ids| ==> ids[i] in catalog
  }

  predicate Distinct(ids: seq<string>)
  {
    forall i, j :: 0 <= i < j < |ids| ==> ids[i] != ids[j]
  }

  /** `productRepository.findByIds` (`find({ _id: { $in: ids } })`): each
      catalog product whose id is requested, once, however often it is
      requested. */
  function FindByIds(catalog: Catalog, ids: seq<string>): (r: seq<Product>)
    ensures forall p :: p in r ==> p.id in ids && p.id in catalog && p == ProductOf(catalog, p.id)
  {
    if ids == [] then []
    else
      var prefix := ids[..|ids| - 1];
      var last := ids[|ids| - 1];
      var found := FindByIds(catalog, prefix);
      if last in catalog && last !in prefix then found + [ProductOf(catalog, last)] else found
  }

  /** Every requested id the catalog knows is found. */
  lemma {:induction false} FindByIdsFinds(catalog: Catalog, ids: seq<string>, id: string)
    requires id in ids && id in catalog
    ensures ProductOf(catalog, id) in FindByIds(catalog, ids)
  {
    var prefix := ids[..|ids| - 1];
    if id in prefix {
      FindByIdsFinds(catalog, prefix, id);
    }
  }

  /** `existProducts.length === items.length` exactly when every id is known
      and no id is repeated. */
  lemma {:induction false} FindByIdsLength(catalog: Catalog, ids: seq<string>)
    ensures |FindByIds(catalog, ids)| <= |ids|
    ensures |FindByIds(catalog, ids)| == |ids| <==> AllKnown(catalog, ids) && Distinct(ids)
  {
    if ids != [] {
      var prefix := ids[..|ids| - 1];
      var last := ids[|ids| - 1];
      FindByIdsLength(catalog, prefix);
      assert forall i :: 0 <= i < |prefix| ==> prefix[i] == ids[i];
      if AllKnown(catalog, ids) && Distinct(ids) {
        assert AllKnown(catalog, prefix) && Distinct(prefix);
        assert last !in prefix;
      }
      if |FindByIds(catalog, ids)| == |ids| {
        assert |FindByIds(catalog, prefix)| == |prefix|;
        forall i, j | 0 <= i < j < |ids| ensures ids[i] != ids[j] {
          if j == |ids| - 1 {
            assert ids[i] in prefix;
          }
        }
      }
    }
  }

  /** `items.find((item) => !existProductIds.includes(item.productId))`. */
  function FindMissing(items: seq<CreateOrderItem>, existIds: seq<string>): (r: Option<CreateOrderItem>)
    ensures r.Some? ==> exists i :: 0 <= i < |items| && items[i] == r.value && r.value.productId !in existIds &&
                          forall j :: 0 <= j < i ==> items[j].productId in existIds
    ensures r.None? ==> forall i :: 0 <= i < |items| ==> items[i].productId in existIds
  {
    if items == [] then None
    else if items[0].productId !in existIds then Some(items[0])
    else
      var r := FindMissing(items[1..], existIds);
      assert forall i :: 1 <= i < |items| ==> items[i] == items[1..][i - 1];
      r
  }

  /** `existProducts.map((p) => p.id)`. */
  function ExistProductIds(products: seq<Product>): (ids: seq<string>)
    ensures |ids| == |products| && forall i :: 0 <= i < |products| ==> ids[i] == products[i].id
  {
    seq(|products|, i requires 0 <= i < |products| => products[i].id)
  }

  /** A requested id is among the ids `findByIds` returned exactly when the
      catalog knows it. */
  lemma ExistProductIdsExact(catalog: Catalog, items: seq<CreateOrderItem>)
    ensures var existIds := ExistProductIds(FindByIds(catalog, ProductIds(items)));
            forall j :: 0 <= j < |items| ==> (items[j].productId in existIds <==> items[j].productId in catalog)
  {
    var ids := ProductIds(items);
    var existProducts := FindByIds(catalog, ids);
    var existIds := ExistProductIds(existProducts);
    forall j | 0 <= j < |items| ensures items[j].productId in existIds <==> items[j].productId in catalog {
      if items[j].productId in catalog {
        FindByIdsFinds(catalog, ids, items[j].productId);
        var p :| 0 <= p < |existProducts| && existProducts[p] == ProductOf(catalog, items[j].productId);
        assert existIds[p] == items[j].productId;
      }
    }
  }

  /** `validateProducts`. When the lengths differ and `find` comes back
      empty-handed (a repeated id, every id known), `missingProduct!` reads a
      property of `undefined`: `UndefinedDereference`. */
  function ValidateProducts(catalog: Catalog, items: seq<CreateOrderItem>): (r: Result<seq<Product>, OrderError>)
    ensures r.Ok? <==> AllKnown(catalog, ProductIds(items)) && Distinct(ProductIds(items))
    ensures r.Ok? ==> |r.value| == |items| && forall p :: p in r.value ==> p.id in catalog && p == ProductOf(catalog, p.id)
    ensures r.Ok? ==> forall i :: 0 <= i < |items| ==> ProductOf(catalog, items[i].productId) in r.value
    ensures r.Err? ==> (r.error == UndefinedDereference <==> AllKnown(catalog, ProductIds(items)))
    ensures r.Err? && !AllKnown(catalog, ProductIds(items)) ==>
      && r.error.ProductNotFound?
      && r.error.productId !in catalog
      && exists k :: 0 <= k < |items| && items[k].productId == r.error.productId &&
                     forall j :: 0 <= j < k ==> items[j].productId in catalog
  {
    var existProducts := FindByIds(catalog, ProductIds(items));
    FindByIdsLength(catalog, ProductIds(items));
    if |existProducts| != |items| then
      var existProductIds := ExistProductIds(existProducts);
      ExistProductIdsExact(catalog, items);
      match FindMissing(items, existProductIds)
      case None => Err(UndefinedDereference)
      case Some(missing) => Err(ProductNotFound(missing.productId))
    else
      assert forall i :: 0 <= i < |items| ==> ProductOf(catalog, items[i].productId) in existProducts by {
        forall i | 0 <= i < |items| ensures ProductOf(catalog, items[i].productId) in existProducts {
          assert ProductIds(items)[i] == items[i].productId;
          FindByIdsFinds(catalog, ProductIds(items), items[i].productId);
        }
      }
      Ok(existProducts)
  }

  /** `validateQuantities`: `items.some((item) => item.quantity < 1)`, a scan
      that stops at the first offending line. */
  function HasInvalidQuantity(items: seq<CreateOrderItem>): (b: bool)
    ensures b <==> exists i :: 0 <= i < |items| && items[i].quantity < 1
  {
    if items == [] then false
    else if items[0].quantity < 1 then true
    else
      var rest := HasInvalidQuantity(items[1..]);
      assert forall i :: 1 <= i < |items| ==> items[i] == items[1..][i - 1];
      rest
  }

  /** `params.currency || 'usd'`: absent and empty both give "usd". */
  function ResolveCurrency(currency: Option<string>): (c: string)
    ensures currency.Some? && currency.value != "" ==> c == currency.value
    ensures currency.None? || currency.value == "" ==> c == "usd"
  {
    match currency
    case Some(value) => if value != "" then value else "usd"
    case None => "usd"
  }

  /** The line for one requested item, priced from the catalog. */
  function PriceLine(catalog: Catalog, item: CreateOrderItem): OrderItem
    requires item.productId in catalog
  {
    OrderItem(item.productId, catalog[item.productId].name, item.quantity, catalog[item.productId].price)
  }

  function PriceLines(catalog: Catalog, items: seq<CreateOrderItem>): seq<OrderItem>
    requires AllKnown(catalog, ProductIds(items))
  {
    if items == [] then []
    else
      assert AllKnown(catalog, ProductIds(items[..|items| - 1]));
      PriceLines(catalog, items[..|items| - 1]) + [PriceLine(catalog, items[|items| - 1])]
  }

  /** The catalog-priced sum: `price * quantity` over the requested items. */
  function CatalogTotal(catalog: Catalog, items: seq<CreateOrderItem>): int
    requires AllKnown(catalog, ProductIds(items))
  {
    if items == [] then 0
    else
      assert AllKnown(catalog, ProductIds(items[..|items| - 1]));
      CatalogTotal(catalog, items[..|items| - 1]) + catalog[items[|items| - 1].productId].price * items[|items| - 1].quantity
  }

  /** An order as the use case means to create it, before the gateway call. */
  datatype Draft = Draft(items: seq<OrderItem>, totalAmount: int, currency: string)

  /** Everything `execute` decides before it calls the payment provider, in
      the source's order: empty list, then `validateProducts`, then
      `validateQuantities`, then pricing. */
  function Plan(catalog: Catalog, items: seq<CreateOrderItem>, currency: Option<string>): (r: Result<Draft, OrderError>)
    ensures r == Err(EmptyOrderItems) <==> |items| == 0
    ensures r.Err? ==> r.error in {EmptyOrderItems, UndefinedDereference, InvalidQuantity} || r.error.ProductNotFound?
    ensures r.Ok? ==>
      && |r.value.items| == |items|
      && r.value.totalAmount == LinesTotal(r.value.items)
      && r.value.currency == ResolveCurrency(currency)
      && forall i :: 0 <= i < |items| ==>
           && items[i].productId in catalog
           && r.value.items[i] == OrderItem(items[i].productId, catalog[items[i].productId].name,
                                            items[i].quantity, catalog[items[i].productId].price)
           && items[i].quantity >= 1
  {
    if |items| == 0 then Err(EmptyOrderItems)
    else
      match ValidateProducts(catalog, items)
      case Err(e) => Err(e)
      case Ok(_) =>
        if HasInvalidQuantity(items) then Err(InvalidQuantity)
        else
          PriceLinesShape(catalog, items);
          LinesTotalIsCatalogTotal(catalog, items);
          Ok(Draft(PriceLines(catalog, items), CatalogTotal(catalog, items), ResolveCurrency(currency)))
  }

  /** The lines keep the request's length and order; names and prices come
      from the catalog, quantities from the request. */
  lemma {:induction false} PriceLinesShape(catalog: Catalog, items: seq<CreateOrderItem>)
    requires AllKnown(catalog, ProductIds(items))
    ensures var lines := PriceLines(catalog, items);
            && |lines| == |items|
            && forall i :: 0 <= i < |items| ==>
                 && lines[i].productId == items[i].productId
                 && lines[i].quantity == items[i].quantity
                 && lines[i].productName == catalog[items[i].productId].name
                 && lines[i].unitPrice == catalog[items[i].productId].price
  {
    if items != [] {
      var prefix := items[..|items| - 1];
      assert AllKnown(catalog, ProductIds(prefix));
      PriceLinesShape(catalog, prefix);
    }
  }

  /** The stored total is the sum of `quantity * unitPrice` over the stored
      lines. */
  lemma {:induction false} LinesTotalIsCatalogTotal(catalog: Catalog, items: seq<CreateOrderItem>)
    requires AllKnown(catalog, ProductIds(items))
    ensures LinesTotal(PriceLines(catalog, items)) == CatalogTotal(catalog, items)
  {
    if items != [] {
      var prefix := items[..|items| - 1];
      assert AllKnown(catalog, ProductIds(prefix));
      LinesTotalIsCatalogTotal(catalog, prefix);
      var lines := PriceLines(catalog, items);
      assert lines[..|lines| - 1] == PriceLines(catalog, prefix);
    }
  }

  /** An empty request is refused before anything else happens. */
  lemma EmptyRequestRefused(catalog: Catalog, currency: Option<string>)
    ensures Plan(catalog, [], currency) == Err(EmptyOrderItems)
  {
  }

  /** An unknown product id is reported, the first one in request order,
      whatever the quantities are: products are checked before quantities. */
  lemma {:induction false} UnknownProductReported(catalog: Catalog, items: seq<CreateOrderItem>,
                                                   currency: Option<string>, k: nat)
    requires k < |items| && items[k].productId !in catalog
    requires forall j :: 0 <= j < k ==> items[j].productId in catalog
    ensures Plan(catalog, items, currency) == Err(ProductNotFound(items[k].productId))
  {
    var ids := ProductIds(items);
    FindByIdsLength(catalog, ids);
    ExistProductIdsExact(catalog, items);
    var existProductIds := ExistProductIds(FindByIds(catalog, ids));
    var missing := FindMissing(items, existProductIds);
    assert missing == Some(items[k]);
  }

  /** A repeated product id whose ids are all known passes the catalog check
      yet trips the length comparison with nothing missing: the request
      crashes, before its quantities are looked at. */
  lemma {:induction false} RepeatedProductCrashes(catalog: Catalog, items: seq<CreateOrderItem>, currency: Option<string>)
    requires AllKnown(catalog, ProductIds(items)) && !Distinct(ProductIds(items))
    ensures Plan(catalog, items, currency) == Err(UndefinedDereference)
  {
    var ids := ProductIds(items);
    var existProducts := FindByIds(catalog, ids);
    FindByIdsLength(catalog, ids);
    ExistProductIdsExact(catalog, items);
    assert FindMissing(items, ExistProductIds(existProducts)).None?;
  }

  /** With every id known and none repeated, a quantity below 1 is refused. */
  lemma {:induction false} InvalidQuantityRefused(catalog: Catalog, items: seq<CreateOrderItem>, currency: Option<string>)
    requires AllKnown(catalog, ProductIds(items)) && Distinct(ProductIds(items))
    requires HasInvalidQuantity(items)
    ensures Plan(catalog, items, currency) == Err(InvalidQuantity)
  {
    FindByIdsLength(catalog, ProductIds(items));
  }

  /** Below any unknown id there is a first one. */
  lemma {:induction false} FirstUnknown(catalog: Catalog, ids: seq<string>, k: nat) returns (m: nat)
    requires k < |ids| && ids[k] !in catalog
    ensures m <= k && ids[m] !in catalog
    ensures forall j :: 0 <= j < m ==> ids[j] in catalog
    decreases k
  {
    if j :| 0 <= j < k && ids[j] !in catalog {
      m := FirstUnknown(catalog, ids, j);
    } else {
      m := k;
    }
  }

  /** The plan succeeds exactly for a non-empty request of known, distinct
      products with positive quantities, and then prices it from the
      catalog. */
  lemma {:induction false} PlanSucceeds(catalog: Catalog, items: seq<CreateOrderItem>, currency: Option<string>)
    ensures Plan(catalog, items, currency).Ok? <==>
      |items| > 0 && AllKnown(catalog, ProductIds(items)) && Distinct(ProductIds(items)) && !HasInvalidQuantity(items)
    ensures Plan(catalog, items, currency).Ok? ==>
      var d := Plan(catalog, items, currency).value;
      && d.items == PriceLines(catalog, items)
      && d.totalAmount == CatalogTotal(catalog, items) == LinesTotal(d.items)
      && d.currency == ResolveCurrency(currency)
  {
    var ids := ProductIds(items);
    FindByIdsLength(catalog, ids);
    if |items| > 0 && !AllKnown(catalog, ids) {
      var some :| 0 <= some < |items| && ids[some] !in catalog;
      var k := FirstUnknown(catalog, ids, some);
      UnknownProductReported(catalog, items, currency, k);
    }
    if Plan(catalog, items, currency).Ok? {
      LinesTotalIsCatalogTotal(catalog, items);
    }
  }

  /** `execute`. `createPaymentIntent` stands for the provider's call;
      `intentRequest` reports what it was asked for, if it was called. */
  method Execute(orderRepository: OrderRepository, catalog: Catalog, userId: UserId, items: seq<CreateOrderItem>,
                 currency: Option<string>, now: Time,
                 createPaymentIntent: PaymentIntentRequest -> Result<PaymentIntent, Thrown>)
    returns (r: Result<CreateOrderResult, OrderError>, intentRequest: Option<PaymentIntentRequest>)
    requires orderRepository.Valid()
    modifies orderRepository
    ensures orderRepository.Valid()
    ensures Plan(catalog, items, currency).Err? ==>
      && r == Err(Plan(catalog, items, currency).error)
      && intentRequest.None?
      && orderRepository.orders == old(orderRepository.orders)
      && orderRepository.nextId == old(orderRepository.nextId)
    ensures Plan(catalog, items, currency).Ok? ==>
      var d := Plan(catalog, items, currency).value;
      intentRequest == Some(PaymentIntentRequest(d.totalAmount, d.currency, userId))
    ensures Plan(catalog, items, currency).Ok? && createPaymentIntent(intentRequest.value).Err? ==>
      && r == Err(Gateway(createPaymentIntent(intentRequest.value).error))
      && orderRepository.orders == old(orderRepository.orders)
      && orderRepository.nextId == old(orderRepository.nextId)
    ensures Plan(catalog, items, currency).Ok? && createPaymentIntent(intentRequest.value).Ok? ==>
      var d := Plan(catalog, items, currency).value;
      var intent := createPaymentIntent(intentRequest.value).value;
      var order := Order(old(orderRepository.nextId), userId, d.items, d.totalAmount, d.currency, PENDING,
                         intent.id, None, now);
      && r == Ok(CreateOrderResult(order, intent.clientSecret))
      && order.id !in old(orderRepository.orders)
      && orderRepository.orders == old(orderRepository.orders)[order.id := order]
      && orderRepository.nextId == old(orderRepository.nextId) + 1
  {
    intentRequest := None;
    var plan := PrepareOrder(catalog, items, currency);
    if plan.Err? {
      return Err(plan.error), None;
    }
    var draft := plan.value;
    intentRequest := Some(PaymentIntentRequest(draft.totalAmount, draft.currency, userId));
    var paymentIntent := createPaymentIntent(intentRequest.value);
    if paymentIntent.Err? {
      return Err(Gateway(paymentIntent.error)), intentRequest;
    }
    var order := orderRepository.Create(userId, draft.items, draft.totalAmount, draft.currency, paymentIntent.value.id, now);
    r := Ok(CreateOrderResult(order, paymentIntent.value.clientSecret));
  }

  /** The steps of `execute` before the provider is called: the empty check,
      `validateProducts`, `validateQuantities`, the product index, the priced
      lines with their running total, and the currency. */
  method PrepareOrder(catalog: Catalog, items: seq<CreateOrderItem>, currency: Option<string>)
    returns (plan: Result<Draft, OrderError>)
    ensures plan == Plan(catalog, items, currency)
  {
    if |items| == 0 {
      return Err(EmptyOrderItems);
    }
    var validated := ValidateProducts(catalog, items);
    if validated.Err? {
      return Err(validated.error);
    }
    var products := validated.value;
    if HasInvalidQuantity(items) {
      return Err(InvalidQuantity);
    }
    FindByIdsLength(catalog, ProductIds(items));
    var findableProduct := ArrayToMap(products, ProductKey);
    IndexedCatalog(catalog, items, findableProduct);
    var orderItems, totalAmount := PriceItems(catalog, items, findableProduct);
    plan := Ok(Draft(orderItems, totalAmount, ResolveCurrency(currency)));
  }

  /** The `items.map` callback of `execute`: each line priced from the
      product index, its total added to the running sum. */
  method PriceItems(catalog: Catalog, items: seq<CreateOrderItem>, findableProduct: map<string, Product>)
    returns (orderItems: seq<OrderItem>, totalAmount: int)
    requires AllKnown(catalog, ProductIds(items))
    requires forall i :: 0 <= i < |items| ==>
               items[i].productId in findableProduct &&
               findableProduct[items[i].productId] == ProductOf(catalog, items[i].productId)
    ensures orderItems == PriceLines(catalog, items)
    ensures totalAmount == CatalogTotal(catalog, items)
  {
    totalAmount := 0;
    orderItems := [];
    for i := 0 to |items|
      invariant AllKnown(catalog, ProductIds(items[..i]))
      invariant orderItems == PriceLines(catalog, items[..i])
      invariant totalAmount == CatalogTotal(catalog, items[..i])
    {
      assert items[..i + 1][..i] == items[..i];
      assert AllKnown(catalog, ProductIds(items[..i + 1]));
      var product := findableProduct[items[i].productId];
      var itemTotal := product.price * items[i].quantity;
      totalAmount := totalAmount + itemTotal;
      orderItems := orderItems + [OrderItem(product.id, product.name, items[i].quantity, product.price)];
    }
    assert items[..|items|] == items;
  }

  /** `arrayToMap(products, 'id')` over the validated products gives, for
      every requested id, the catalog's product. */
  lemma IndexedCatalog(catalog: Catalog, items: seq<CreateOrderItem>, index: map<string, Product>)
    requires AllKnown(catalog, ProductIds(items))
    requires index == IndexBy(FindByIds(catalog, ProductIds(items)), ProductKey)
    ensures forall i :: 0 <= i < |items| ==>
              items[i].productId in index && index[items[i].productId] == ProductOf(catalog, items[i].productId)
  {
    var ids := ProductIds(items);
    var products := FindByIds(catalog, ids);
    forall i | 0 <= i < |items|
      ensures items[i].productId in index && index[items[i].productId] == ProductOf(catalog, items[i].productId)
    {
      var id := items[i].productId;
      assert ids[i] == id;
      FindByIdsFinds(catalog, ids, id);
      var p :| 0 <= p < |products| && products[p] == ProductOf(catalog, id);
      assert ProductKey(products[p]) == id;
      IndexByKeys(products, ProductKey, id);
      IndexByValues(products, ProductKey, id);
    }
  }
}
