/** The admin catalogue list: the local updates after a delete or a
    featured toggle, the low-stock flag and the count in the header. The
    confirmation dialog is the `confirmed` parameter. */
module AdminProductsPage {
  import opened Models
  import opened Seqs

  function OtherProduct(id: ProductId): Product -> bool {
    (p: Product) => p.id != id
  }

  predicate ProductIdsUnique(products: seq<Product>) {
    forall i, j :: 0 <= i < j < |products| ==> products[i].id != products[j].id
  }

  /** `handleDelete`: nothing is sent unless confirmed; after a fulfilled
      DELETE the products with that id are dropped from the list. */
  function AfterDelete(products: seq<Product>, id: ProductId, confirmed: bool, deleted: bool): (r: seq<Product>)
    ensures |r| <= |products|
    ensures !(confirmed && deleted) ==> r == products
  {
    if confirmed && deleted then Filter(products, OtherProduct(id)) else products
  }

  /** Only the products with the deleted id leave the list, every copy of
      the others stays, and the remaining ones keep their order. */
  lemma {:induction false} DeleteDropsExactlyThatId(products: seq<Product>, id: ProductId, x: Product, a: seq<Product>, b: seq<Product>)
    ensures multiset(AfterDelete(products, id, true, true))[x] == if x.id == id then 0 else multiset(products)[x]
    ensures AfterDelete(a + b, id, true, true) == AfterDelete(a, id, true, true) + AfterDelete(b, id, true, true)
  {
    FilterMultiset(products, OtherProduct(id), x);
    FilterConcat(a, b, OtherProduct(id));
  }

  /** With distinct ids, deleting a listed product lowers the header count
      by exactly one. */
  lemma {:induction false} DeleteCountsOneLess(products: seq<Product>, i: nat)
    requires ProductIdsUnique(products) && i < |products|
    ensures CatalogCount(AfterDelete(products, products[i].id, true, true)) == CatalogCount(products) - 1
  {
    var id := products[i].id;
    var before, after := products[..i], products[i + 1..];
    assert products == before + [products[i]] + after;
    FilterAllKept(before, OtherProduct(id));
    FilterAllKept(after, OtherProduct(id));
    FilterConcat(before + [products[i]], after, OtherProduct(id));
    FilterConcat(before, [products[i]], OtherProduct(id));
  }

  /** The body the featured toggle sends. */
  datatype FeaturedRequest = FeaturedRequest(id: ProductId, featured: bool)

  function ToggleRequest(p: Product): (r: FeaturedRequest)
    ensures r.id == p.id && r.featured != p.featured
  {
    FeaturedRequest(p.id, !p.featured)
  }

  /** `products.map(p => p._id === id ? updated : p)`. */
  function ReplaceProduct(products: seq<Product>, id: ProductId, updated: Product): (r: seq<Product>)
    ensures |r| == |products|
    ensures forall i :: 0 <= i < |products| ==> r[i] == if products[i].id == id then updated else products[i]
  {
    seq(|products|, i requires 0 <= i < |products| => if products[i].id == id then updated else products[i])
  }

  /** `toggleFeatured`: the server's answer takes the place of the toggled
      product; a rejected PATCH leaves the list as it was. */
  function AfterToggle(products: seq<Product>, p: Product, reply: Reply<Product>): (r: seq<Product>)
    ensures reply.Rejected? ==> r == products
    ensures reply.Fulfilled? ==> r == ReplaceProduct(products, p.id, reply.data)
  {
    if reply.Fulfilled? then ReplaceProduct(products, p.id, reply.data) else products
  }

  /** With distinct ids, the toggle replaces exactly the toggled product's
      entry. */
  lemma {:induction false} ToggleReplacesOneEntry(products: seq<Product>, i: nat, updated: Product)
    requires ProductIdsUnique(products) && i < |products|
    ensures AfterToggle(products, products[i], Fulfilled(updated)) == products[i := updated]
  {
    var r := ReplaceProduct(products, products[i].id, updated);
    forall j | 0 <= j < |products| && j != i ensures r[j] == products[j] {
      assert products[j].id != products[i].id by {
        if j < i {
          assert products[j].id != products[i].id;
        }
      }
    }
  }

  /** The red stock figure. */
  predicate IsLowStock(p: Product) {
    p.stock < 10
  }

  /** `Product Catalog (N)`: the number of listed products. */
  function CatalogCount(products: seq<Product>): (n: nat)
    ensures n == 0 <==> products == []
  {
    |products|
  }

  /** When the server answers the toggled product with only its flag
      flipped, no product's low-stock flag changes. */
  lemma {:induction false} ToggleKeepsLowStockFlags(products: seq<Product>, i: nat)
    requires ProductIdsUnique(products) && i < |products|
    ensures var after := AfterToggle(products, products[i], Fulfilled(products[i].(featured := !products[i].featured)));
      && |after| == |products|
      && after[i].featured != products[i].featured
      && forall j :: 0 <= j < |products| ==> IsLowStock(after[j]) == IsLowStock(products[j])
  {
    ToggleReplacesOneEntry(products, i, products[i].(featured := !products[i].featured));
  }
}
