/** The product catalog tables: brands, products and product visit records,
    with the constraints the schema enforces (unique brand names and SKUs,
    a product's brand protected from deletion, a visit tied to an existing
    product). */
module Catalog {
  import opened Wrappers
  import opened Text
  import Json
  import Seqs

  datatype Brand = Brand(id: nat, name: string)

  /** A product; the price is kept in cents (the column has two decimal places). */
  datatype Product = Product(id: nat, sku: string, name: string, priceCents: int, brandId: nat)

  /** One recorded product visit: the product it belongs to and the enriched metadata. */
  datatype VisitRecord = VisitRecord(productId: nat, metadata: Json.Object)

  /** `str(product)`: the name followed by the SKU in parentheses. */
  function Label(p: Product): (s: string)
    ensures Contains(s, p.name) && Contains(s, p.sku)
  {
    ContainsMiddle([], p.name, " (" + p.sku + ")");
    ContainsMiddle(p.name + " (", p.sku, ")");
    assert [] + p.name + (" (" + p.sku + ")") == p.name + " (" + p.sku + ")";
    assert (p.name + " (") + p.sku + ")" == p.name + " (" + p.sku + ")";
    p.name + " (" + p.sku + ")"
  }

  predicate HasBrand(brands: seq<Brand>, id: nat) {
    exists b :: b in brands && b.id == id
  }

  predicate HasProduct(products: seq<Product>, id: nat) {
    exists p :: p in products && p.id == id
  }

  /** Brand ids and names are unique. */
  predicate BrandsUnique(brands: seq<Brand>) {
    forall i, j :: 0 <= i < j < |brands| ==> brands[i].id != brands[j].id && brands[i].name != brands[j].name
  }

  /** Product ids and SKUs are unique. */
  predicate ProductsUnique(products: seq<Product>) {
    forall i, j :: 0 <= i < j < |products| ==> products[i].id != products[j].id && products[i].sku != products[j].sku
  }

  /** The products that reference brand `brandId` through their foreign key. */
  function ReferencingProducts(products: seq<Product>, brandId: nat): (r: seq<Product>)
    ensures forall p :: p in r <==> p in products && p.brandId == brandId
  {
    Seqs.Filter(products, (p: Product) => p.brandId == brandId)
  }

  class Store {
    var brands: seq<Brand>
    var products: seq<Product>
    var visits: seq<VisitRecord>

    /** The schema's constraints: unique columns, every product's brand exists
        (the foreign key is PROTECT), every visit's product exists (CASCADE). */
    ghost predicate Valid()
      reads this
    {
      && BrandsUnique(brands)
      && ProductsUnique(products)
      && (forall p :: p in products ==> HasBrand(brands, p.brandId))
      && (forall v :: v in visits ==> HasProduct(products, v.productId))
    }

    constructor ()
      ensures Valid()
      ensures brands == [] && products == [] && visits == []
    {
      brands, products, visits := [], [], [];
    }

    /** `Product.objects.get(id=id)`; None stands for `Product.DoesNotExist`. */
    function ProductById(id: nat): (r: Option<Product>)
      reads this
      ensures r.Some? ==> r.value in products && r.value.id == id
      ensures r.None? <==> !HasProduct(products, id)
    {
      Seqs.First(products, (p: Product) => p.id == id)
    }

    /** The product whose SKU is `sku` (the product endpoints look products up by SKU). */
    function ProductBySku(sku: string): (r: Option<Product>)
      reads this
      ensures r.Some? ==> r.value in products && r.value.sku == sku
      ensures r.None? <==> forall p :: p in products ==> p.sku != sku
    {
      Seqs.First(products, (p: Product) => p.sku == sku)
    }

    /** The brand whose name is `name` (the brand endpoints look brands up by name). */
    function BrandByName(name: string): (r: Option<Brand>)
      reads this
      ensures r.Some? ==> r.value in brands && r.value.name == name
      ensures r.None? <==> forall b :: b in brands ==> b.name != name
    {
      Seqs.First(brands, (b: Brand) => b.name == name)
    }

    /** `product.brand`: in a valid store every product's brand exists. */
    function BrandOf(p: Product): (b: Brand)
      reads this
      requires Valid() && p in products
      ensures b in brands && b.id == p.brandId
    {
      var r := Seqs.First(brands, (b: Brand) => b.id == p.brandId);
      assert HasBrand(brands, p.brandId);
      r.value
    }

    /** `ProductRetrieve.objects.create(product=..., metadata=...)`. */
    method AddVisit(v: VisitRecord)
      requires Valid() && HasProduct(products, v.productId)
      modifies this`visits
      ensures Valid()
      ensures visits == old(visits) + [v]
    {
      visits := visits + [v];
    }

    /** Saves `q` over the stored product with the same id. */
    method SaveProduct(q: Product)
      requires Valid()
      requires HasProduct(products, q.id) && HasBrand(brands, q.brandId)
      requires forall p :: p in products && p.id != q.id ==> p.sku != q.sku
      modifies this`products
      ensures Valid()
      ensures products == Seqs.Replace(old(products), (p: Product) => p.id == q.id, q)
    {
      SaveKeepsSchema(brands, products, visits, q);
      products := Seqs.Replace(products, (p: Product) => p.id == q.id, q);
    }

    /** Deletes brand `b`, which no product references. */
    method DeleteBrand(b: Brand)
      requires Valid() && b in brands
      requires ReferencingProducts(products, b.id) == []
      modifies this`brands
      ensures Valid()
      ensures brands == Seqs.Filter(old(brands), (c: Brand) => c.id != b.id)
    {
      var old_brands := brands;
      brands := Seqs.Filter(brands, (c: Brand) => c.id != b.id);
      forall p | p in products ensures HasBrand(brands, p.brandId) {
        assert p !in ReferencingProducts(products, b.id);
        var c :| c in old_brands && c.id == p.brandId;
        assert c in brands;
      }
      FilterKeepsUnique(old_brands, b.id);
    }
  }

  /** Saving a product over the row with its id, when its brand exists and
      its SKU is free, keeps the schema's constraints on the products. */
  lemma SaveKeepsSchema(brands: seq<Brand>, products: seq<Product>, visits: seq<VisitRecord>, q: Product)
    requires ProductsUnique(products)
    requires forall p :: p in products ==> HasBrand(brands, p.brandId)
    requires forall v :: v in visits ==> HasProduct(products, v.productId)
    requires HasBrand(brands, q.brandId)
    requires forall p :: p in products && p.id != q.id ==> p.sku != q.sku
    ensures var r := Seqs.Replace(products, (p: Product) => p.id == q.id, q);
      && ProductsUnique(r)
      && (forall p :: p in r ==> HasBrand(brands, p.brandId))
      && (forall v :: v in visits ==> HasProduct(r, v.productId))
  {
    SaveKeepsUnique(products, q);
    SaveKeepsBrands(brands, products, q);
    SaveKeepsVisits(products, visits, q);
  }

  lemma SaveKeepsUnique(products: seq<Product>, q: Product)
    requires ProductsUnique(products)
    requires forall p :: p in products && p.id != q.id ==> p.sku != q.sku
    ensures ProductsUnique(Seqs.Replace(products, (p: Product) => p.id == q.id, q))
  {
    var r := Seqs.Replace(products, (p: Product) => p.id == q.id, q);
    forall i, j | 0 <= i < j < |r| ensures r[i].id != r[j].id && r[i].sku != r[j].sku {
      assert products[i] in products && products[j] in products;
    }
  }

  lemma SaveKeepsBrands(brands: seq<Brand>, products: seq<Product>, q: Product)
    requires forall p :: p in products ==> HasBrand(brands, p.brandId)
    requires HasBrand(brands, q.brandId)
    ensures forall p :: p in Seqs.Replace(products, (p: Product) => p.id == q.id, q) ==> HasBrand(brands, p.brandId)
  {
    var r := Seqs.Replace(products, (p: Product) => p.id == q.id, q);
    forall p | p in r ensures HasBrand(brands, p.brandId) {
      var i :| 0 <= i < |r| && r[i] == p;
      assert p == q || p == products[i];
    }
  }

  lemma SaveKeepsVisits(products: seq<Product>, visits: seq<VisitRecord>, q: Product)
    requires forall v :: v in visits ==> HasProduct(products, v.productId)
    ensures forall v :: v in visits ==> HasProduct(Seqs.Replace(products, (p: Product) => p.id == q.id, q), v.productId)
  {
    var r := Seqs.Replace(products, (p: Product) => p.id == q.id, q);
    forall v | v in visits ensures HasProduct(r, v.productId) {
      var p :| p in products && p.id == v.productId;
      var i :| 0 <= i < |products| && products[i] == p;
      assert r[i].id == p.id;
    }
  }

  lemma FilterKeepsUnique(brands: seq<Brand>, id: nat)
    requires BrandsUnique(brands)
    ensures BrandsUnique(Seqs.Filter(brands, (c: Brand) => c.id != id))
  {
    if brands != [] {
      var init := brands[..|brands| - 1];
      var last := brands[|brands| - 1];
      assert brands == init + [last];
      FilterKeepsUnique(init, id);
      var f := Seqs.Filter(init, (c: Brand) => c.id != id);
      forall c | c in f ensures c.id != last.id && c.name != last.name {
        var k :| 0 <= k < |init| && init[k] == c;
        assert brands[k] == c;
      }
    }
  }
}
