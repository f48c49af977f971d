/** The Product schema of src/models/Product.js: the record, the validity its
    validators enforce, and how a new document is built from a request body
    (setters, then defaults, then validators). Prices are integer cents. */
module ProductModel {
  import opened Common
  import opened JsString

  datatype Product = Product(
    name: string,
    description: Option<string>,
    price: int,
    category: string,
    imageUrl: Option<string>,
    stock: int,
    alcoholContent: Option<int>,
    volume: Option<string>,
    brand: Option<string>,
    isActive: bool)

  const DefaultStock: int := 0
  const DefaultIsActive: bool := true

  /** What the schema's validators accept of a stored product. */
  predicate ValidProduct(p: Product)
  {
    && p.name != "" && IsTrimmed(p.name)
    && p.price >= 0
    && p.category != ""
    && p.stock >= 0
    && (p.alcoholContent.Some? ==> 0 <= p.alcoholContent.value <= 100)
  }

  /** A request body for a new product: every field may be missing. */
  datatype ProductInput = ProductInput(
    name: Option<string>,
    description: Option<string>,
    price: Option<int>,
    category: Option<string>,
    imageUrl: Option<string>,
    stock: Option<int>,
    alcoholContent: Option<int>,
    volume: Option<string>,
    brand: Option<string>,
    isActive: Option<bool>)

  /** `Product.create(body)`: trim the name, fill the defaults, run the validators.
      None stands for the validation error. */
  function NewProduct(input: ProductInput): (r: Option<Product>)
    ensures r.Some? <==>
      && input.name.Some? && Trim(input.name.value) != ""
      && input.price.Some? && input.price.value >= 0
      && Present(input.category)
      && WithDefault(input.stock, DefaultStock) >= 0
      && (input.alcoholContent.Some? ==> 0 <= input.alcoholContent.value <= 100)
    ensures r.Some? ==> ValidProduct(r.value)
    ensures r.Some? ==>
      && r.value.name == Trim(input.name.value)
      && r.value.price == input.price.value
      && r.value.category == input.category.value
      && r.value.description == input.description
      && r.value.imageUrl == input.imageUrl
      && r.value.alcoholContent == input.alcoholContent
      && r.value.volume == input.volume
      && r.value.brand == input.brand
    ensures r.Some? && input.stock.None? ==> r.value.stock == 0
    ensures r.Some? && input.stock.Some? ==> r.value.stock == input.stock.value
    ensures r.Some? && input.isActive.None? ==> r.value.isActive
    ensures r.Some? && input.isActive.Some? ==> r.value.isActive == input.isActive.value
  {
    var p := Product(
      if input.name.Some? then Trim(input.name.value) else "",
      input.description,
      WithDefault(input.price, 0),
      WithDefault(input.category, ""),
      input.imageUrl,
      WithDefault(input.stock, DefaultStock),
      input.alcoholContent,
      input.volume,
      input.brand,
      WithDefault(input.isActive, DefaultIsActive));
    if input.name.Some? && input.price.Some? && input.category.Some? && ValidProduct(p)
    then Some(p) else None
  }

  /** A request body of `PUT /:id`: only the fields it carries are written. */
  datatype ProductPatch = ProductPatch(
    name: Option<string>,
    description: Option<string>,
    price: Option<int>,
    category: Option<string>,
    imageUrl: Option<string>,
    stock: Option<int>,
    alcoholContent: Option<int>,
    volume: Option<string>,
    brand: Option<string>,
    isActive: Option<bool>)

  /** The update validators (`runValidators: true`) check only the fields the patch sets. */
  predicate PatchAccepted(patch: ProductPatch)
  {
    && (patch.name.Some? ==> Trim(patch.name.value) != "")
    && (patch.price.Some? ==> patch.price.value >= 0)
    && (patch.category.Some? ==> patch.category.value != "")
    && (patch.stock.Some? ==> patch.stock.value >= 0)
    && (patch.alcoholContent.Some? ==> 0 <= patch.alcoholContent.value <= 100)
  }

  /** Overwrites the supplied fields of `p` (the name through its trim setter). */
  function ApplyPatch(p: Product, patch: ProductPatch): Product
  {
    Product(
      if patch.name.Some? then Trim(patch.name.value) else p.name,
      if patch.description.Some? then patch.description else p.description,
      WithDefault(patch.price, p.price),
      WithDefault(patch.category, p.category),
      if patch.imageUrl.Some? then patch.imageUrl else p.imageUrl,
      WithDefault(patch.stock, p.stock),
      if patch.alcoholContent.Some? then patch.alcoholContent else p.alcoholContent,
      if patch.volume.Some? then patch.volume else p.volume,
      if patch.brand.Some? then patch.brand else p.brand,
      WithDefault(patch.isActive, p.isActive))
  }

  /** An accepted patch keeps a valid product valid. */
  lemma PatchPreservesValidity(p: Product, patch: ProductPatch)
    requires ValidProduct(p) && PatchAccepted(patch)
    ensures ValidProduct(ApplyPatch(p, patch))
  {
  }

  /** A field the patch does not carry keeps its stored value; one it carries takes the new one. */
  lemma PatchTouchesOnlySuppliedFields(p: Product, patch: ProductPatch)
    ensures patch.name.None? ==> ApplyPatch(p, patch).name == p.name
    ensures patch.name.Some? ==> ApplyPatch(p, patch).name == Trim(patch.name.value)
    ensures patch.description.None? ==> ApplyPatch(p, patch).description == p.description
    ensures patch.description.Some? ==> ApplyPatch(p, patch).description == patch.description
    ensures patch.price.None? ==> ApplyPatch(p, patch).price == p.price
    ensures patch.price.Some? ==> ApplyPatch(p, patch).price == patch.price.value
    ensures patch.category.None? ==> ApplyPatch(p, patch).category == p.category
    ensures patch.category.Some? ==> ApplyPatch(p, patch).category == patch.category.value
    ensures patch.imageUrl.None? ==> ApplyPatch(p, patch).imageUrl == p.imageUrl
    ensures patch.imageUrl.Some? ==> ApplyPatch(p, patch).imageUrl == patch.imageUrl
    ensures patch.stock.None? ==> ApplyPatch(p, patch).stock == p.stock
    ensures patch.stock.Some? ==> ApplyPatch(p, patch).stock == patch.stock.value
    ensures patch.alcoholContent.None? ==> ApplyPatch(p, patch).alcoholContent == p.alcoholContent
    ensures patch.alcoholContent.Some? ==> ApplyPatch(p, patch).alcoholContent == patch.alcoholContent
    ensures patch.volume.None? ==> ApplyPatch(p, patch).volume == p.volume
    ensures patch.volume.Some? ==> ApplyPatch(p, patch).volume == patch.volume
    ensures patch.brand.None? ==> ApplyPatch(p, patch).brand == p.brand
    ensures patch.brand.Some? ==> ApplyPatch(p, patch).brand == patch.brand
    ensures patch.isActive.None? ==> ApplyPatch(p, patch).isActive == p.isActive
    ensures patch.isActive.Some? ==> ApplyPatch(p, patch).isActive == patch.isActive.value
  {
  }
}
