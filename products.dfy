/**
 * The product handlers of src/controllers/productController.js over an
 * in-memory product collection.  Besides the records, the store keeps the
 * ids in creation order, which is what `sort({ createdAt: -1 })` reads:
 * the listing is newest first, cut into pages of `limit`.
 */
module Products {
  import opened Common
  import opened Paging

  /** The fields the handlers read; every other body field is carried in `fields`. */
  datatype Product = Product(name: Option<string>, createdBy: Option<string>, fields: map<string, string>)

  /** An update body: the fields it supplies. */
  datatype ProductPatch = ProductPatch(name: Option<string>, createdBy: Option<string>, fields: map<string, string>)

  /** The `pagination` of a listing answer. */
  datatype Pagination = Pagination(total: nat, page: nat, limit: nat, totalPages: nat)

  function NotId(id: Id): Id -> bool {
    (other: Id) => other != id
  }

  /** The stored `createdBy`, and `name` when one is given, are trimmed; the rest of the body is kept. */
  function NewProduct(name: Option<string>, createdBy: string, rest: map<string, string>): (p: Product)
    ensures p.createdBy == Some(Trim(createdBy)) && p.fields == rest
    ensures name.None? <==> p.name.None?
    ensures name.Some? ==> p.name == Some(Trim(name.value))
  {
    Product(if name.Some? then Some(Trim(name.value)) else None, Some(Trim(createdBy)), rest)
  }

  /** `findByIdAndUpdate(id, body)`: each supplied field replaces the stored one. */
  function ApplyPatch(p: Product, patch: ProductPatch): (r: Product)
    ensures r.name == (if patch.name.Some? then patch.name else p.name)
    ensures r.createdBy == (if patch.createdBy.Some? then patch.createdBy else p.createdBy)
    ensures forall f :: f in r.fields <==> f in p.fields || f in patch.fields
    ensures forall f :: f in r.fields ==> r.fields[f] == (if f in patch.fields then patch.fields[f] else p.fields[f])
  {
    Product(if patch.name.Some? then patch.name else p.name,
            if patch.createdBy.Some? then patch.createdBy else p.createdBy,
            p.fields + patch.fields)
  }

  predicate MayChange(userId: string, role: string, p: Product) {
    role == Admin || p.createdBy == Some(userId)
  }

  class ProductStore {
    var products: map<Id, Product>
    /** The ids of the stored products, oldest first. */
    var created: seq<Id>

    /** `created` lists every stored product once and nothing else. */
    predicate Valid()
      reads this
    {
      && Distinct(created)
      && (forall i :: 0 <= i < |created| ==> created[i] in products)
      && (forall id :: id in products ==> id in created)
    }

    constructor ()
      ensures Valid() && products == map[] && created == []
    {
      products := map[];
      created := [];
    }

    /** The listing order of `getAllProducts`: newest first. */
    function NewestFirst(): (ids: seq<Id>)
      reads this
      requires Valid()
      ensures |ids| == |products|
      ensures forall k :: 0 <= k < |ids| ==> ids[k] in products
      ensures forall id :: id in products ==> id in ids
    {
      DistinctCard(created);
      assert (set x | x in created) == products.Keys;
      Reverse(created)
    }

    /**
     * `addProduct`: 400 without `createdBy` or `role`, 403 unless vendor or
     * admin; otherwise stores the body with the trimmed creator and name.
     */
    method AddProduct(name: Option<string>, createdBy: Option<string>, role: Option<string>,
                      rest: map<string, string>, newId: Id)
      returns (code: nat, product: Option<Product>)
      requires Valid() && newId !in products
      modifies this
      ensures Valid()
      ensures !Truthy(createdBy) || !Truthy(role) ==>
        code == BadRequest && product == None && products == old(products) && created == old(created)
      ensures Truthy(createdBy) && Truthy(role) && role.value != Vendor && role.value != Admin ==>
        code == Forbidden && product == None && products == old(products) && created == old(created)
      ensures Truthy(createdBy) && Truthy(role) && (role.value == Vendor || role.value == Admin) ==>
        && code == Created
        && product == Some(NewProduct(name, createdBy.value, rest))
        && products == old(products)[newId := product.value]
        && created == old(created) + [newId]
    {
      if !Truthy(createdBy) || !Truthy(role) {
        return BadRequest, None;
      }
      if role.value != Vendor && role.value != Admin {
        return Forbidden, None;
      }
      var p := NewProduct(name, createdBy.value, rest);
      products := products[newId := p];
      created := created + [newId];
      return Created, Some(p);
    }

    /** `deleteProduct`: 400 without ids, then 205 for an unknown product, then 403 unless admin or creator. */
    method DeleteProduct(id: Id, userId: Option<string>, role: Option<string>) returns (code: nat)
      requires Valid()
      modifies this
      ensures Valid()
      ensures !Truthy(userId) || !Truthy(role) ==> code == BadRequest
      ensures Truthy(userId) && Truthy(role) && id !in old(products) ==> code == ResetContent
      ensures Truthy(userId) && Truthy(role) && id in old(products) && !MayChange(userId.value, role.value, old(products)[id]) ==>
        code == Forbidden
      ensures code == Ok <==> Truthy(userId) && Truthy(role) && id in old(products) && MayChange(userId.value, role.value, old(products)[id])
      ensures code == Ok ==> products == old(products) - {id} && created == Filter(old(created), NotId(id))
      ensures code != Ok ==> products == old(products) && created == old(created)
    {
      if !Truthy(userId) || !Truthy(role) {
        return BadRequest;
      }
      if id !in products {
        return ResetContent;
      }
      var isOwner := products[id].createdBy == Some(userId.value);
      if role.value != Admin && !isOwner {
        return Forbidden;
      }
      FilterDistinct(created, NotId(id));
      var rest := Filter(created, NotId(id));
      forall other | other in products - {id} ensures other in rest {
        var i :| 0 <= i < |created| && created[i] == other;
        assert NotId(id)(created[i]);
      }
      products := products - {id};
      created := rest;
      return Ok;
    }

    /** `updateProduct`: the same checks as `deleteProduct`; then the supplied fields replace the stored ones. */
    method UpdateProduct(id: Id, userId: Option<string>, role: Option<string>, patch: ProductPatch)
      returns (code: nat, product: Option<Product>)
      requires Valid()
      modifies this
      ensures Valid() && created == old(created)
      ensures !Truthy(userId) || !Truthy(role) ==> code == BadRequest
      ensures Truthy(userId) && Truthy(role) && id !in old(products) ==> code == ResetContent
      ensures Truthy(userId) && Truthy(role) && id in old(products) && !MayChange(userId.value, role.value, old(products)[id]) ==>
        code == Forbidden
      ensures code == Ok <==> Truthy(userId) && Truthy(role) && id in old(products) && MayChange(userId.value, role.value, old(products)[id])
      ensures code == Ok ==> product == Some(ApplyPatch(old(products)[id], patch)) && products == old(products)[id := product.value]
      ensures code != Ok ==> product == None && products == old(products)
    {
      if !Truthy(userId) || !Truthy(role) {
        return BadRequest, None;
      }
      if id !in products {
        return ResetContent, None;
      }
      var isOwner := products[id].createdBy == Some(userId.value);
      if role.value != Admin && !isOwner {
        return Forbidden, None;
      }
      var p := ApplyPatch(products[id], patch);
      products := products[id := p];
      return Ok, Some(p);
    }

    /** The products with the given ids, in that order. */
    function Resolve(ids: seq<Id>): (r: seq<Product>)
      reads this
      requires forall k :: 0 <= k < |ids| ==> ids[k] in products
      ensures |r| == |ids| && forall k :: 0 <= k < |ids| ==> r[k] == products[ids[k]]
    {
      seq(|ids|, k requires 0 <= k < |ids| && ids[k] in products reads this => products[ids[k]])
    }

    /**
     * `getAllProducts`: page `page` (default 1) of the newest-first listing,
     * `limit` (default 10) to a page; 205 when that page is empty, otherwise
     * the page with the total and the number of pages.
     */
    method GetAllProducts(page: Option<Pos>, limit: Option<Pos>)
      returns (code: nat, items: seq<Product>, pagination: Option<Pagination>)
      requires Valid()
      ensures |items| <= limit.GetOr(DefaultLimit as Pos)
      ensures items == Resolve(Page(NewestFirst(), page.GetOr(DefaultPage as Pos), limit.GetOr(DefaultLimit as Pos)))
      ensures code == ResetContent <==> Skip(page.GetOr(DefaultPage as Pos), limit.GetOr(DefaultLimit as Pos)) >= |products|
      ensures code == ResetContent <==> page.GetOr(DefaultPage as Pos) > TotalPages(|products|, limit.GetOr(DefaultLimit as Pos))
      ensures code == ResetContent ==> items == [] && pagination == None
      ensures code != ResetContent ==> code == Ok && |items| > 0
      ensures code != ResetContent ==> pagination == Some(Pagination(|products|, page.GetOr(DefaultPage as Pos),
        limit.GetOr(DefaultLimit as Pos), TotalPages(|products|, limit.GetOr(DefaultLimit as Pos))))
    {
      var p: Pos := page.GetOr(DefaultPage as Pos);
      var l: Pos := limit.GetOr(DefaultLimit as Pos);
      var listing := NewestFirst();
      var ids := Page(listing, p, l);
      EmptyPage(listing, p, l);
      PageNonEmptyIff(listing, p, l);
      items := Resolve(ids);
      var total := |products|;
      if |items| == 0 {
        return ResetContent, [], None;
      }
      return Ok, items, Some(Pagination(total, p, l, TotalPages(total, l)));
    }
  }
}
