/** The catalog of src/controllers/productController.js (the list filter, get-by-id
    with its active check, create, partial update and soft delete), and the list and
    get-by-id routes of server.js, over the product collection held as a map. */
module Catalog {
  import opened Common
  import opened JsString
  import opened ProductModel

  const ProductNotFound: Failure := Failure(404, "Produto não encontrado")
  const InvalidProduct: string := "Product validation failed"

  /** The query `{ isActive: true }`, with `category` equal to the category parameter
      when one is given and `name` matching the search term, ignoring case, when one is given. */
  predicate Listed(p: Product, category: Option<string>, search: Option<string>)
  {
    && p.isActive
    && (Present(category) ==> p.category == category.value)
    && (Present(search) ==> ContainsIgnoringCase(p.name, search.value))
  }

  /** The documents `Product.find(filter)` returns, keyed by id. */
  function Listing(products: map<Id, Product>, category: Option<string>, search: Option<string>)
    : (r: map<Id, Product>)
    ensures forall id :: id in r ==> id in products && r[id] == products[id]
    ensures forall id :: id in r ==> r[id].isActive
    ensures Present(category) ==> forall id :: id in r ==> r[id].category == category.value
    ensures Present(search) ==> forall id :: id in r ==> ContainsIgnoringCase(r[id].name, search.value)
    ensures forall id :: id in products && Listed(products[id], category, search) ==> id in r
  {
    map id | id in products && Listed(products[id], category, search) :: products[id]
  }

  /** `findById` followed by `if (!product || !product.isActive) 404`. */
  function Lookup(products: map<Id, Product>, id: Id): (r: Result<Product>)
    ensures r.Ok? <==> id in products && products[id].isActive
    ensures r.Ok? ==> r.value == products[id]
    ensures r.Err? ==> r.failure == ProductNotFound
  {
    if id in products && products[id].isActive then Ok(products[id]) else Err(ProductNotFound)
  }

  /** The collection after `findByIdAndUpdate(id, { isActive: false })`. */
  function SoftDelete(products: map<Id, Product>, id: Id): map<Id, Product>
    requires id in products
  {
    products[id := products[id].(isActive := false)]
  }

  /** A soft-deleted product stays stored, with all its other fields. */
  lemma SoftDeleteKeepsRecord(products: map<Id, Product>, id: Id)
    requires id in products
    ensures SoftDelete(products, id).Keys == products.Keys
    ensures !SoftDelete(products, id)[id].isActive
    ensures SoftDelete(products, id)[id].(isActive := products[id].isActive) == products[id]
    ensures forall other :: other in products && other != id ==>
      SoftDelete(products, id)[other] == products[other]
  {
  }

  /** After a soft delete, get-by-id answers 404 and no listing contains the product. */
  lemma SoftDeleteHides(products: map<Id, Product>, id: Id, category: Option<string>, search: Option<string>)
    requires id in products
    ensures Lookup(SoftDelete(products, id), id) == Err(ProductNotFound)
    ensures id !in Listing(SoftDelete(products, id), category, search)
  {
  }

  /** Deleting twice is deleting once; the second lookup still finds the record. */
  lemma SoftDeleteIdempotent(products: map<Id, Product>, id: Id)
    requires id in products
    ensures id in SoftDelete(products, id)
    ensures SoftDelete(SoftDelete(products, id), id) == SoftDelete(products, id)
  {
  }

  /** A soft delete removes exactly that product from every listing. */
  lemma SoftDeleteListing(products: map<Id, Product>, id: Id, category: Option<string>, search: Option<string>)
    requires id in products
    ensures Listing(SoftDelete(products, id), category, search) == Listing(products, category, search) - {id}
  {
    var after, before := Listing(SoftDelete(products, id), category, search), Listing(products, category, search) - {id};
    assert after.Keys == before.Keys;
    assert forall k :: k in after ==> after[k] == before[k];
  }

  /** With no parameters the listing is exactly the active products. */
  lemma ListingWithoutFilters(products: map<Id, Product>, search: Option<string>)
    requires search.None? || search == Some("")
    ensures forall id :: id in Listing(products, None, search) <==> id in products && products[id].isActive
  {
  }

  /** The product collection. Every stored product satisfies the schema. */
  class ProductStore {
    var products: map<Id, Product>

    ghost predicate Valid()
      reads this
    {
      forall id :: id in products ==> ValidProduct(products[id])
    }

    constructor ()
      ensures Valid() && products == map[]
    {
      products := map[];
    }

    /** getProducts: the matching active products and their count. */
    method GetProducts(category: Option<string>, search: Option<string>)
      returns (count: nat, data: map<Id, Product>)
      ensures data == Listing(products, category, search)
      ensures count == |data|
      ensures forall id :: id in data ==> data[id].isActive
    {
      data := Listing(products, category, search);
      count := |data|;
    }

    /** getProductById: 404 when the product is missing or inactive. */
    method GetProductById(id: Id) returns (res: Result<Product>)
      ensures res.Ok? <==> id in products && products[id].isActive
      ensures res.Ok? ==> res.value == products[id]
      ensures res.Err? ==> res.failure.status == 404
    {
      res := Lookup(products, id);
    }

    /** createProduct: validation errors answer 400; `newId` is the id the database assigns. */
    method CreateProduct(input: ProductInput, newId: Id) returns (res: Result<Product>)
      requires Valid() && newId !in products
      modifies this
      ensures Valid()
      ensures NewProduct(input).None? ==>
        res == Err(Failure(400, "Erro ao criar produto: " + InvalidProduct)) && products == old(products)
      ensures NewProduct(input).Some? ==>
        res == Created(NewProduct(input).value) && products == old(products)[newId := res.value]
    {
      var p := NewProduct(input);
      if p.None? {
        res := Err(Failure(400, "Erro ao criar produto: " + InvalidProduct));
      } else {
        products := products[newId := p.value];
        res := Created(p.value);
      }
    }

    /** updateProduct: the update validators run first (400); a missing id answers 404;
        otherwise the supplied fields are overwritten. `isActive` is not checked. */
    method UpdateProduct(id: Id, patch: ProductPatch) returns (res: Result<Product>)
      requires Valid()
      modifies this
      ensures Valid()
      ensures !PatchAccepted(patch) ==>
        res == Err(Failure(400, "Erro ao atualizar produto: " + InvalidProduct)) && products == old(products)
      ensures PatchAccepted(patch) && id !in old(products) ==>
        res == Err(ProductNotFound) && products == old(products)
      ensures PatchAccepted(patch) && id in old(products) ==>
        products == old(products)[id := ApplyPatch(old(products)[id], patch)] && res == Ok(products[id])
    {
      if !PatchAccepted(patch) {
        res := Err(Failure(400, "Erro ao atualizar produto: " + InvalidProduct));
      } else if id !in products {
        res := Err(ProductNotFound);
      } else {
        PatchPreservesValidity(products[id], patch);
        products := products[id := ApplyPatch(products[id], patch)];
        res := Ok(products[id]);
      }
    }

    /** deleteProduct: only `isActive` becomes false; a missing id answers 404.
        The lookup ignores `isActive`, so deleting an inactive product succeeds. */
    method DeleteProduct(id: Id) returns (res: Result<Product>)
      requires Valid()
      modifies this
      ensures Valid()
      ensures id !in old(products) ==> res == Err(ProductNotFound) && products == old(products)
      ensures id in old(products) ==>
        products == SoftDelete(old(products), id) && res == Ok(products[id])
    {
      if id !in products {
        res := Err(ProductNotFound);
      } else {
        products := SoftDelete(products, id);
        res := Ok(products[id]);
      }
    }
  }
}
