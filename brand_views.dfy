/** `BrandViewSet.destroy`: brands are looked up by name, and a brand that
    products still reference is protected from deletion; the refusal lists
    those products. */
module BrandViews {
  import opened Wrappers
  import opened Text
  import opened Http
  import opened Catalog
  import Seqs

  const ProtectedPrefix: string := "Cannot delete this brand because it is referenced by the following products: "

  /** `str(product)` for each product, in order. */
  function Labels(products: seq<Product>): (ls: seq<string>)
    ensures |ls| == |products|
    ensures forall i :: 0 <= i < |products| ==> ls[i] == Label(products[i])
  {
    if products == [] then [] else [Label(products[0])] + Labels(products[1..])
  }

  /** The detail of the refusal: the fixed sentence followed by the
      referencing products' `str`, joined by ", ". */
  function ProtectedMessage(referencing: seq<Product>): (m: string)
    ensures ProtectedPrefix <= m
    ensures |referencing| == 1 ==> m == ProtectedPrefix + Label(referencing[0])
  {
    ProtectedPrefix + Join(Labels(referencing), ", ")
  }

  /** The refusal names every referencing product as "name (sku)", and so
      by its name and its SKU. */
  lemma {:induction false} ProtectedMessageListsAll(referencing: seq<Product>)
    ensures forall p :: p in referencing ==> Contains(ProtectedMessage(referencing), Label(p))
    ensures forall p :: p in referencing ==>
      Contains(ProtectedMessage(referencing), p.name) && Contains(ProtectedMessage(referencing), p.sku)
  {
    var labels := Labels(referencing);
    var m := ProtectedMessage(referencing);
    assert m == ProtectedPrefix + Join(labels, ", ");
    forall p | p in referencing
      ensures Contains(m, Label(p)) && Contains(m, p.name) && Contains(m, p.sku)
    {
      var k :| 0 <= k < |referencing| && referencing[k] == p;
      JoinContains(labels, ", ", k);
      ContainsSuffix(ProtectedPrefix, Join(labels, ", "), Label(p));
      ContainsWithin(m, Label(p), p.name);
      ContainsWithin(m, Label(p), p.sku);
    }
  }

  /** `destroy`: a missing brand is not found; a brand some product
      references stays and the refusal lists those products; otherwise the
      brand is deleted. Products and visits are never touched. */
  method Destroy(catalog: Catalog.Store, name: string) returns (resp: Response<Brand>)
    requires catalog.Valid()
    modifies catalog`brands
    ensures catalog.Valid()
    ensures catalog.products == old(catalog.products) && catalog.visits == old(catalog.visits)
    ensures old(catalog.BrandByName(name)).None? ==>
      resp == Response(NOT_FOUND, Empty) && catalog.brands == old(catalog.brands)
    ensures old(catalog.BrandByName(name)).Some? ==>
      var b := old(catalog.BrandByName(name)).value;
      var referencing := ReferencingProducts(catalog.products, b.id);
      && (referencing != [] ==>
            resp == Response(BAD_REQUEST, Detail(ProtectedMessage(referencing)))
            && catalog.brands == old(catalog.brands))
      && (referencing == [] ==>
            resp == Response(NO_CONTENT, Empty)
            && catalog.brands == Seqs.Filter(old(catalog.brands), (c: Brand) => c.id != b.id)
            && catalog.BrandByName(name).None?)
  {
    var found := catalog.BrandByName(name);
    if found.None? {
      return Response(NOT_FOUND, Empty);
    }
    var b := found.value;
    var referencing := ReferencingProducts(catalog.products, b.id);
    if referencing != [] {
      return Response(BAD_REQUEST, Detail(ProtectedMessage(referencing)));
    }
    ghost var before := catalog.brands;
    catalog.DeleteBrand(b);
    forall c | c in catalog.brands ensures c.name != name {
      var i :| 0 <= i < |before| && before[i] == c;
      var j :| 0 <= j < |before| && before[j] == b;
      assert i != j;
      if i < j {
        assert before[i].name != before[j].name;
      } else {
        assert before[j].name != before[i].name;
      }
    }
    resp := Response(NO_CONTENT, Empty);
  }
}
