/** `ProductViewSet`: products are looked up by SKU. Reading a product as an
    anonymous visitor dispatches a tracking task; a valid update is saved
    and then announced to the other active staff users. */
module ProductViews {
  import opened Wrappers
  import opened Text
  import opened Json
  import opened Http
  import opened Accounts
  import opened Catalog
  import opened Fields
  import Tasks
  import VisitMetadata
  import ProductEmail
  import Seqs

  const SkuTakenMessage: string := "product with this sku already exists."
  const PriceDigitsMessage: string := "Ensure that there are no more than 8 digits before the decimal point."
  const SkuMaxLength: nat := 50
  const NameMaxLength: nat := 255
  /** The price column has ten digits of which two are decimals: a magnitude
      in cents must stay below 10^10. */
  const PriceCentsBound: nat := 10_000_000_000

  function InvalidBrandMessage(id: nat): string {
    "Invalid pk \"" + Decimal(id) + "\" - object does not exist."
  }

  /** `retrieve`: a missing SKU is not found and dispatches nothing. A found
      product is returned; when the requester is anonymous, exactly one
      tracking task is dispatched with the product's id and the metadata
      built from the request, otherwise nothing is dispatched. */
  method Retrieve(
    catalog: Catalog.Store, outbox: Tasks.Outbox, requester: Requester, sku: string,
    request: VisitMetadata.Request, parse: string -> VisitMetadata.UserAgent)
    returns (resp: Response<Product>)
    modifies outbox
    ensures catalog.ProductBySku(sku).None? ==> resp == Response(NOT_FOUND, Empty) && outbox.sent == old(outbox.sent)
    ensures catalog.ProductBySku(sku).Some? ==> resp == Response(OK, Data(catalog.ProductBySku(sku).value))
    ensures catalog.ProductBySku(sku).Some? && requester.Anonymous? ==>
      outbox.sent == old(outbox.sent)
        + [Tasks.TrackProductRetrieve(catalog.ProductBySku(sku).value.id, VisitMetadata.Build(request, parse))]
    ensures requester.Authenticated? ==> outbox.sent == old(outbox.sent)
  {
    var product := catalog.ProductBySku(sku);
    if product.None? {
      return Response(NOT_FOUND, Empty);
    }
    resp := Response(OK, Data(product.value));
    if requester.Anonymous? {
      var metadata := VisitMetadata.Build(request, parse);
      outbox.Delay(Tasks.TrackProductRetrieve(product.value.id, metadata));
    }
  }

  /** The request data of an update: the text fields (`sku`, `name`) as sent,
      and the price (in cents) and the brand's primary key as numbers. */
  datatype ProductInput = ProductInput(text: Object, priceCents: Option<int>, brandId: Option<nat>)

  /** The validated changes; a field left out of a partial update is None. */
  datatype ProductChanges = ProductChanges(
    sku: Option<string>, name: Option<string>, priceCents: Option<int>, brandId: Option<nat>)

  /** The price field: required unless partial, within the column's digits. */
  function PriceField(price: Option<int>, required: bool): (r: Result<Option<int>, string>)
    ensures r.Ok? ==> r.value == price && (price.None? ==> !required)
    ensures r.Ok? && price.Some? ==> -(PriceCentsBound as int) < price.value < PriceCentsBound
    ensures price.Some? && -(PriceCentsBound as int) < price.value < PriceCentsBound ==> r == Ok(price)
    ensures price.Some? && !(-(PriceCentsBound as int) < price.value < PriceCentsBound) ==> r == Err(PriceDigitsMessage)
    ensures price.None? ==> r == (if required then Err(RequiredMessage) else Ok(None))
  {
    if price.None? then (if required then Err(RequiredMessage) else Ok(None))
    else if price.value <= -(PriceCentsBound as int) || price.value >= PriceCentsBound then Err(PriceDigitsMessage)
    else Ok(price)
  }

  /** The brand field: a primary key of an existing brand, required unless partial. */
  function BrandField(brands: seq<Brand>, id: Option<nat>, required: bool): (r: Result<Option<nat>, string>)
    ensures r.Ok? ==> r.value == id && (id.None? ==> !required)
    ensures r.Ok? && id.Some? ==> HasBrand(brands, id.value)
    ensures id.Some? && !HasBrand(brands, id.value) ==> r == Err(InvalidBrandMessage(id.value))
    ensures id.Some? && HasBrand(brands, id.value) ==> r == Ok(id)
    ensures id.None? ==> r == (if required then Err(RequiredMessage) else Ok(None))
  {
    if id.None? then (if required then Err(RequiredMessage) else Ok(None))
    else if !HasBrand(brands, id.value) then Err(InvalidBrandMessage(id.value))
    else Ok(id)
  }

  /** A SKU the field accepts: acceptable text (or none, when optional) that
      no product other than the instance already has. */
  predicate SkuAccepted(products: seq<Product>, instance: Product, text: Object, required: bool) {
    && TextAccepted(text, "sku", required, false, Some(SkuMaxLength))
    && (SentText(text, "sku").Some? ==>
          forall p :: p in products && p.id != instance.id ==> p.sku != SentText(text, "sku").value)
  }

  /** The SKU field with the unique column's validator, which leaves out the
      product being updated. */
  function SkuField(products: seq<Product>, instance: Product, text: Object, required: bool)
    : (r: Result<Option<string>, string>)
    ensures r.Ok? && r.value.Some? ==> forall p :: p in products && p.id != instance.id ==> p.sku != r.value.value
    ensures r.Ok? ==> r.value.Some? || !required
    ensures r.Ok? <==> SkuAccepted(products, instance, text, required)
    ensures r.Ok? ==> r.value == SentText(text, "sku")
  {
    var sku := TextField(text, "sku", required, false, Some(SkuMaxLength));
    if sku.Ok? && sku.value.Some? && exists p :: p in products && p.id != instance.id && p.sku == sku.value.value then
      Err(SkuTakenMessage)
    else sku
  }

  /** `is_valid()` on `ProductSerializer` for an update of `instance`; every
      field is required unless the update is partial, and every failing field
      reports its error, in field order. */
  function ValidateProduct(products: seq<Product>, brands: seq<Brand>, instance: Product, input: ProductInput, partial: bool)
    : (r: Result<ProductChanges, seq<ValidationError>>)
    ensures r.Err? ==> r.error != []
    ensures r.Ok? && !partial ==>
      r.value.sku.Some? && r.value.name.Some? && r.value.priceCents.Some? && r.value.brandId.Some?
    ensures r.Ok? && r.value.sku.Some? ==>
      forall p :: p in products && p.id != instance.id ==> p.sku != r.value.sku.value
    ensures r.Ok? && r.value.brandId.Some? ==> HasBrand(brands, r.value.brandId.value)
    ensures r.Ok? ==> r.value.priceCents == input.priceCents && r.value.brandId == input.brandId
    ensures r.Ok? <==>
      && SkuAccepted(products, instance, input.text, !partial)
      && TextAccepted(input.text, "name", !partial, false, Some(NameMaxLength))
      && (input.priceCents.Some? ==> -(PriceCentsBound as int) < input.priceCents.value < PriceCentsBound)
      && (input.brandId.Some? ==> HasBrand(brands, input.brandId.value))
      && (partial || (input.priceCents.Some? && input.brandId.Some?))
    ensures r.Ok? ==>
      r.value == ProductChanges(SentText(input.text, "sku"), SentText(input.text, "name"), input.priceCents, input.brandId)
  {
    var sku := SkuField(products, instance, input.text, !partial);
    var name := TextField(input.text, "name", !partial, false, Some(NameMaxLength));
    var price := PriceField(input.priceCents, !partial);
    var brand := BrandField(brands, input.brandId, !partial);
    if sku.Ok? && name.Ok? && price.Ok? && brand.Ok? then
      Ok(ProductChanges(sku.value, name.value, price.value, brand.value))
    else
      Err(ErrorsOf("sku", sku) + ErrorsOf("name", name) + ErrorsOf("price", price) + ErrorsOf("brand", brand))
  }

  function Or<T>(x: Option<T>, default: T): T {
    if x.Some? then x.value else default
  }

  /** The product after `save()`: each validated field replaces the stored
      one; the primary key never changes. */
  function Merge(p: Product, c: ProductChanges): Product {
    Product(p.id, Or(c.sku, p.sku), Or(c.name, p.name), Or(c.priceCents, p.priceCents), Or(c.brandId, p.brandId))
  }

  /** The product `save()` writes after a validated update: every field the
      request sent replaces the stored one, with its text stripped; a full
      update replaces them all. */
  lemma {:induction false} SavedProduct(
    products: seq<Product>, brands: seq<Brand>, p: Product, input: ProductInput, partial: bool, c: ProductChanges)
    requires ValidateProduct(products, brands, p, input, partial) == Ok(c)
    ensures Merge(p, c) == Product(p.id, Or(SentText(input.text, "sku"), p.sku), Or(SentText(input.text, "name"), p.name),
      Or(input.priceCents, p.priceCents), Or(input.brandId, p.brandId))
    ensures !partial ==>
      Merge(p, c) == Product(p.id, SentText(input.text, "sku").value, SentText(input.text, "name").value,
        input.priceCents.value, input.brandId.value)
  {
    assert c == ProductChanges(SentText(input.text, "sku"), SentText(input.text, "name"), input.priceCents, input.brandId);
  }

  /** A validated update of a stored product of a valid catalog can be saved:
      the merged product keeps a stored brand and a SKU no other product has. */
  lemma {:induction false} ValidatedUpdateSavable(catalog: Catalog.Store, p: Product, c: ProductChanges, input: ProductInput, partial: bool)
    requires catalog.Valid() && p in catalog.products
    requires ValidateProduct(catalog.products, catalog.brands, p, input, partial) == Ok(c)
    ensures HasBrand(catalog.brands, Merge(p, c).brandId)
    ensures forall o :: o in catalog.products && o.id != p.id ==> o.sku != Merge(p, c).sku
  {
    forall o | o in catalog.products && o.id != p.id ensures o.sku != Merge(p, c).sku {
      if c.sku.None? {
        var i :| 0 <= i < |catalog.products| && catalog.products[i] == o;
        var j :| 0 <= j < |catalog.products| && catalog.products[j] == p;
        assert i != j;
        if i < j {
          assert catalog.products[i].sku != catalog.products[j].sku;
        } else {
          assert catalog.products[j].sku != catalog.products[i].sku;
        }
      }
    }
  }

  /** `perform_update`: `serializer.save()` writes the validated changes
      over the stored product; nothing else in the catalog changes. */
  method PerformUpdate(catalog: Catalog.Store, p: Product, c: ProductChanges, input: ProductInput, partial: bool)
    returns (q: Product)
    requires catalog.Valid() && p in catalog.products
    requires ValidateProduct(catalog.products, catalog.brands, p, input, partial) == Ok(c)
    modifies catalog`products
    ensures catalog.Valid()
    ensures q == Merge(p, c) && q in catalog.products
    ensures catalog.products == Seqs.Replace(old(catalog.products), (o: Product) => o.id == p.id, q)
  {
    q := Merge(p, c);
    ValidatedUpdateSavable(catalog, p, c, input, partial);
    ghost var i :| 0 <= i < |catalog.products| && catalog.products[i] == p;
    catalog.SaveProduct(q);
    assert catalog.products[i] == q;
  }

  /** How an update request ended. */
  datatype UpdateOutcome =
    | Answered(response: Response<Product>)
    /** `send_email` read the email of an anonymous requester and raised,
        after the product had been saved. */
    | RaisedAfterSave

  /** The end of `update`: `send_email` with the saved product and the
      requester, then the saved product as the response. An anonymous
      requester has no email, and reading it raises before anything is sent. */
  method Announce(
    catalog: Catalog.Store, users: UserStore, outbox: Tasks.Outbox, requester: Requester, q: Product, now: string)
    returns (outcome: UpdateOutcome)
    requires catalog.Valid() && q in catalog.products
    modifies outbox
    ensures requester.Anonymous? ==> outcome == RaisedAfterSave && outbox.sent == old(outbox.sent)
    ensures requester.Authenticated? ==>
      && outcome == Answered(Response(OK, Data(q)))
      && outbox.sent == old(outbox.sent + ProductEmail.Dispatches(
           ProductEmail.Recipients(users.users, requester.user.email),
           q, catalog.BrandOf(q).name, requester.user, now))
  {
    if requester.Anonymous? {
      return RaisedAfterSave;
    }
    ProductEmail.SendEmail(catalog, users, outbox, q, requester.user, now);
    outcome := Answered(Response(OK, Data(q)));
  }

  /** `update` of a found product: invalid data is refused before anything
      is saved or sent; otherwise the product is saved first and then
      `send_email` is called with the saved product and the requester, and
      the saved product is returned. */
  method UpdateInstance(
    catalog: Catalog.Store, users: UserStore, outbox: Tasks.Outbox, requester: Requester,
    p: Product, input: ProductInput, partial: bool, now: string)
    returns (outcome: UpdateOutcome)
    requires catalog.Valid() && p in catalog.products
    modifies catalog`products, outbox
    ensures catalog.Valid()
    ensures catalog.brands == old(catalog.brands) && catalog.visits == old(catalog.visits)
    ensures
      var v := ValidateProduct(old(catalog.products), old(catalog.brands), p, input, partial);
      && (v.Err? ==>
            outcome == Answered(Response(BAD_REQUEST, Invalid(v.error)))
            && catalog.products == old(catalog.products) && outbox.sent == old(outbox.sent))
      && (v.Ok? ==>
            && catalog.products == Seqs.Replace(old(catalog.products), (o: Product) => o.id == p.id, Merge(p, v.value))
            && (requester.Anonymous? ==> outcome == RaisedAfterSave && outbox.sent == old(outbox.sent))
            && (requester.Authenticated? ==>
                  && outcome == Answered(Response(OK, Data(Merge(p, v.value))))
                  && outbox.sent == old(outbox.sent) + ProductEmail.Dispatches(
                       ProductEmail.Recipients(users.users, requester.user.email),
                       Merge(p, v.value), catalog.BrandOf(Merge(p, v.value)).name, requester.user, now)))
  {
    var v := ValidateProduct(catalog.products, catalog.brands, p, input, partial);
    if v.Err? {
      return Answered(Response(BAD_REQUEST, Invalid(v.error)));
    }
    ghost var brands, visits := catalog.brands, catalog.visits;
    var q := PerformUpdate(catalog, p, v.value, input, partial);
    ghost var saved := catalog.products;
    outcome := Announce(catalog, users, outbox, requester, q, now);
    assert catalog.products == saved && catalog.brands == brands && catalog.visits == visits;
  }

  /** `update` (and `partial_update`): a missing SKU is not found and
      nothing changes; a found product is updated as `UpdateInstance` says. */
  method Update(
    catalog: Catalog.Store, users: UserStore, outbox: Tasks.Outbox, requester: Requester,
    sku: string, input: ProductInput, partial: bool, now: string)
    returns (outcome: UpdateOutcome)
    requires catalog.Valid()
    modifies catalog`products, outbox
    ensures catalog.Valid()
    ensures catalog.brands == old(catalog.brands) && catalog.visits == old(catalog.visits)
    ensures old(catalog.ProductBySku(sku)).None? ==>
      outcome == Answered(Response(NOT_FOUND, Empty))
      && catalog.products == old(catalog.products) && outbox.sent == old(outbox.sent)
    ensures old(catalog.ProductBySku(sku)).Some? ==>
      var p := old(catalog.ProductBySku(sku)).value;
      var v := ValidateProduct(old(catalog.products), old(catalog.brands), p, input, partial);
      && (v.Err? ==>
            outcome == Answered(Response(BAD_REQUEST, Invalid(v.error)))
            && catalog.products == old(catalog.products) && outbox.sent == old(outbox.sent))
      && (v.Ok? ==>
            && catalog.products == Seqs.Replace(old(catalog.products), (o: Product) => o.id == p.id, Merge(p, v.value))
            && (requester.Anonymous? ==> outcome == RaisedAfterSave && outbox.sent == old(outbox.sent))
            && (requester.Authenticated? ==>
                  && outcome == Answered(Response(OK, Data(Merge(p, v.value))))
                  && outbox.sent == old(outbox.sent) + ProductEmail.Dispatches(
                       ProductEmail.Recipients(users.users, requester.user.email),
                       Merge(p, v.value), catalog.BrandOf(Merge(p, v.value)).name, requester.user, now)))
  {
    var found := catalog.ProductBySku(sku);
    if found.None? {
      return Answered(Response(NOT_FOUND, Empty));
    }
    outcome := UpdateInstance(catalog, users, outbox, requester, found.value, input, partial, now);
  }
}
