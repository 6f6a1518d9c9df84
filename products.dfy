/**
 * The product schema: the fields a product document must carry, the seller
 * reference, the `available` and `hidden` defaults, and the catalog's
 * visibility rule.
 */
module Products {
  import opened Common

  /** A stored product: every required field present, defaults applied. */
  datatype Product = Product(
    name: string,
    description: string,
    price: real,
    image: string,
    category: string,
    seller: ObjectId,
    available: bool,
    hidden: bool)

  /** A product document before it is saved: any field may be unset. */
  datatype ProductDoc = ProductDoc(
    name: Option<string>,
    description: Option<string>,
    price: Option<real>,
    image: Option<string>,
    category: Option<string>,
    seller: Option<ObjectId>,
    available: Option<bool>,
    hidden: Option<bool>)

  /** The paths the schema marks as required. */
  datatype Field = Name | Description | Price | Image | Category | Seller

  /** A required string path is satisfied by a non-empty string only. */
  predicate PresentText(s: Option<string>) {
    s.Some? && s.value != ""
  }

  /** Every required path that the document leaves unset. */
  function MissingFields(d: ProductDoc): (missing: set<Field>)
    ensures missing == {} <==>
      PresentText(d.name) && PresentText(d.description) && d.price.Some? &&
      PresentText(d.image) && PresentText(d.category) && d.seller.Some?
    ensures Name in missing <==> !PresentText(d.name)
    ensures Description in missing <==> !PresentText(d.description)
    ensures Price in missing <==> d.price.None?
    ensures Image in missing <==> !PresentText(d.image)
    ensures Category in missing <==> !PresentText(d.category)
    ensures Seller in missing <==> d.seller.None?
  {
    (if PresentText(d.name) then {} else {Name}) +
    (if PresentText(d.description) then {} else {Description}) +
    (if d.price.Some? then {} else {Price}) +
    (if PresentText(d.image) then {} else {Image}) +
    (if PresentText(d.category) then {} else {Category}) +
    (if d.seller.Some? then {} else {Seller})
  }

  /** Schema validation on save: fails naming every missing required path,
      otherwise yields the stored product with `available` defaulting to true
      and `hidden` to false. */
  function Validate(d: ProductDoc): (r: Result<Product, set<Field>>)
    ensures r.Failure? <==> MissingFields(d) != {}
    ensures r.Failure? ==> r.error == MissingFields(d)
    ensures r.Success? ==>
      && Some(r.value.name) == d.name && Some(r.value.description) == d.description
      && Some(r.value.price) == d.price && Some(r.value.image) == d.image
      && Some(r.value.category) == d.category && Some(r.value.seller) == d.seller
    ensures r.Success? ==> r.value.available == (d.available != Some(false))
    ensures r.Success? ==> r.value.hidden == (d.hidden == Some(true))
  {
    var missing := MissingFields(d);
    if missing != {} then Failure(missing)
    else Success(Product(
      d.name.value, d.description.value, d.price.value, d.image.value,
      d.category.value, d.seller.value,
      d.available.GetOr(true), d.hidden.GetOr(false)))
  }

  /** The catalog listing's filter `{ hidden: false, available: true }`. */
  predicate Listed(p: Product) {
    !p.hidden && p.available
  }

  /** A document that leaves `available` and `hidden` unset is listed once saved. */
  lemma DefaultsAreListed(d: ProductDoc)
    requires d.available.None? && d.hidden.None? && MissingFields(d) == {}
    ensures Validate(d).Success? && Listed(Validate(d).value)
  {
  }

  /** A document lacking one required path never saves, and the error names that path. */
  lemma MissingFieldRejected(d: ProductDoc, f: Field)
    requires f in MissingFields(d)
    ensures Validate(d).Failure? && f in Validate(d).error
  {
  }

  /** A request body carries the same optional fields as an unsaved document,
      so it is one type: the create route picks five of its fields, the update
      route writes all of them. */
  type ProductBody = ProductDoc

  /** The update route's write (`findByIdAndUpdate` with the whole body): each
      supplied field replaces the stored one, the seller included, the rest
      stay, and no schema validation runs. */
  function ApplyPatch(p: Product, body: ProductBody): (r: Product)
    ensures body == ProductDoc(None, None, None, None, None, None, None, None) ==> r == p
    ensures r.seller == body.seller.GetOr(p.seller)
    ensures r.hidden == body.hidden.GetOr(p.hidden) && r.available == body.available.GetOr(p.available)
    ensures r.name == body.name.GetOr(p.name) && r.price == body.price.GetOr(p.price)
    ensures r.description == body.description.GetOr(p.description)
    ensures r.image == body.image.GetOr(p.image) && r.category == body.category.GetOr(p.category)
  {
    Product(
      body.name.GetOr(p.name),
      body.description.GetOr(p.description),
      body.price.GetOr(p.price),
      body.image.GetOr(p.image),
      body.category.GetOr(p.category),
      body.seller.GetOr(p.seller),
      body.available.GetOr(p.available),
      body.hidden.GetOr(p.hidden))
  }

  /** Applying the same body twice is the same as applying it once. */
  lemma ApplyPatchIdempotent(p: Product, body: ProductBody)
    ensures ApplyPatch(ApplyPatch(p, body), body) == ApplyPatch(p, body)
  {
  }

  /** An update body that names a seller moves the product to that seller. */
  lemma UpdateMayReassignSeller(p: Product, other: ObjectId)
    ensures ApplyPatch(p, ProductDoc(None, None, None, None, None, Some(other), None, None)).seller == other
  {
  }
}
