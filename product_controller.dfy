/**
  The seller's catalogue handlers (server/controller/product.controller.js):
  adding a product, the partial update, the stock switch and deletion.
 */
module ProductController {
  import opened Js
  import opened Http

  /** The units a product may be sold by. */
  const Units: seq<string> := ["kg", "gm", "liter"]

  /** A product document. Request values are kept as sent (`name` to
      `category`, `inStock`); `unit` and `unitValue` are absent (`None`) unless
      set; `inStock` is `Undefined` while the schema default stands. */
  datatype ProductDoc = ProductDoc(
    name: JsValue,
    price: JsValue,
    offerPrice: JsValue,
    description: JsValue,
    category: JsValue,
    inStock: JsValue,
    unit: Option<string>,
    unitValue: Option<JsNumber>,
    image: seq<string>)

  /** The body fields both handlers read. */
  datatype ProductBody = ProductBody(
    name: JsValue,
    price: JsValue,
    offerPrice: JsValue,
    description: JsValue,
    category: JsValue,
    inStock: JsValue,
    unit: JsValue,
    unitValue: JsValue)

  /** How a `unitValue` in the body reads: not given (undefined, null or ''),
      a positive number, or anything else. */
  datatype UnitValueReading = NotGiven | PositiveValue(v: JsNumber) | BadValue

  const BadUnitValue: Reply := Reply(400, "unitValue must be a positive number")

  function ReadUnitValue(v: JsValue): (r: UnitValueReading)
    ensures r.NotGiven? <==> v == Undefined || v == Null || v == Str("")
    ensures r.PositiveValue? ==> IsPositive(r.v) && ToNumber(v) == Some(r.v)
    ensures r.BadValue? <==> !(v == Undefined || v == Null || v == Str("")) && !(ToNumber(v).Some? && IsPositive(ToNumber(v).value))
  {
    if v == Undefined || v == Null || v == Str("") then NotGiven
    else match ToNumber(v)
      case Some(x) => if IsPositive(x) then PositiveValue(x) else BadValue
      case None => BadValue
  }

  /** `unit && ["kg","gm","liter"].includes(unit)` */
  function AllowedUnit(v: JsValue): (r: Option<string>)
    ensures r.Some? <==> v.Str? && v.s in Units
    ensures r.Some? ==> r.value == v.s
  {
    if v.Str? && v.s in Units then Some(v.s) else None
  }

  /** The uploaded file names; `None` when the request carried no files. */
  predicate HasImages(files: Option<seq<string>>)
  {
    files.Some? && files.value != []
  }

  /** addProduct's decision: the five fields and at least one image, then a
      valid `unitValue`; the unit is dropped unless it is one of the three. */
  function NewProduct(body: ProductBody, files: Option<seq<string>>): (r: Outcome<ProductDoc>)
    ensures r.Ok? <==> && Truthy(body.name) && Truthy(body.price) && Truthy(body.offerPrice)
                       && Truthy(body.description) && Truthy(body.category) && HasImages(files)
                       && !ReadUnitValue(body.unitValue).BadValue?
    ensures r.Fail? ==> r.reply.status == 400
    ensures r.Ok? ==> && r.value.name == body.name && r.value.price == body.price
                      && r.value.offerPrice == body.offerPrice && r.value.description == body.description
                      && r.value.category == body.category && r.value.image == files.value
                      && r.value.unit == AllowedUnit(body.unit)
                      && (r.value.unitValue.Some? <==> ReadUnitValue(body.unitValue).PositiveValue?)
                      && (r.value.unitValue.Some? ==> IsPositive(r.value.unitValue.value))
                      && r.value.unitValue == (if ReadUnitValue(body.unitValue).PositiveValue?
                                               then Some(ReadUnitValue(body.unitValue).v) else None)
                      && r.value.inStock == Undefined
  {
    if !Truthy(body.name) || !Truthy(body.price) || !Truthy(body.offerPrice) || !Truthy(body.description)
       || !Truthy(body.category) || !HasImages(files) then
      Fail(Reply(400, "All fields including images are required"))
    else match ReadUnitValue(body.unitValue)
      case BadValue => Fail(BadUnitValue)
      case NotGiven =>
        Ok(ProductDoc(body.name, body.price, body.offerPrice, body.description, body.category, Undefined,
                      AllowedUnit(body.unit), None, files.value))
      case PositiveValue(x) =>
        Ok(ProductDoc(body.name, body.price, body.offerPrice, body.description, body.category, Undefined,
                      AllowedUnit(body.unit), Some(x), files.value))
  }

  /** updateProduct's effect on a loaded product: each of the five fields
      changes only to a truthy value, `inStock` whenever it is defined, the
      unit only to an allowed one, the images only when files came; a bad
      `unitValue` refuses the whole update. */
  function Updated(p: ProductDoc, body: ProductBody, files: Option<seq<string>>): (r: Outcome<ProductDoc>)
    ensures r.Fail? <==> ReadUnitValue(body.unitValue).BadValue?
    ensures r.Fail? ==> r.reply == BadUnitValue
    ensures r.Ok? ==> && r.value.name == (if Truthy(body.name) then body.name else p.name)
                      && r.value.price == (if Truthy(body.price) then body.price else p.price)
                      && r.value.offerPrice == (if Truthy(body.offerPrice) then body.offerPrice else p.offerPrice)
                      && r.value.description == (if Truthy(body.description) then body.description else p.description)
                      && r.value.category == (if Truthy(body.category) then body.category else p.category)
                      && r.value.inStock == (if body.inStock != Undefined then body.inStock else p.inStock)
                      && r.value.unit == (if AllowedUnit(body.unit).Some? then AllowedUnit(body.unit) else p.unit)
                      && r.value.unitValue == (if ReadUnitValue(body.unitValue).PositiveValue?
                                               then Some(ReadUnitValue(body.unitValue).v) else p.unitValue)
                      && r.value.image == (if HasImages(files) then files.value else p.image)
  {
    var reading := ReadUnitValue(body.unitValue);
    if reading.BadValue? then Fail(BadUnitValue)
    else
      var q := FieldsUpdated(p, body);
      Ok(q.(unitValue := NewUnitValue(reading, q.unitValue),
            image := if HasImages(files) then files.value else q.image))
  }

  /** The first steps of the update: the five truthy fields, `inStock` and the unit. */
  function FieldsUpdated(p: ProductDoc, body: ProductBody): ProductDoc
  {
    p.(name := if Truthy(body.name) then body.name else p.name,
       price := if Truthy(body.price) then body.price else p.price,
       offerPrice := if Truthy(body.offerPrice) then body.offerPrice else p.offerPrice,
       description := if Truthy(body.description) then body.description else p.description,
       category := if Truthy(body.category) then body.category else p.category,
       inStock := if body.inStock != Undefined then body.inStock else p.inStock,
       unit := if AllowedUnit(body.unit).Some? then AllowedUnit(body.unit) else p.unit)
  }

  function NewUnitValue(reading: UnitValueReading, current: Option<JsNumber>): Option<JsNumber>
  {
    match reading
    case PositiveValue(x) => Some(x)
    case _ => current
  }

  /** An update that only sends falsy fields, leaves `inStock` undefined,
      names no allowed unit and no `unitValue`, and uploads nothing, changes nothing. */
  lemma EmptyUpdateKeepsProduct(p: ProductDoc, body: ProductBody)
    requires !Truthy(body.name) && !Truthy(body.price) && !Truthy(body.offerPrice)
    requires !Truthy(body.description) && !Truthy(body.category)
    requires body.inStock == Undefined && AllowedUnit(body.unit).None? && body.unitValue == Undefined
    ensures Updated(p, body, None) == Ok(p)
  {
  }

  /** Sending the same update twice has the effect of sending it once. */
  lemma UpdateIdempotent(p: ProductDoc, body: ProductBody, files: Option<seq<string>>)
    requires Updated(p, body, files).Ok?
    ensures Updated(Updated(p, body, files).value, body, files) == Updated(p, body, files)
  {
  }

  /** The products collection; ids are allocated in creation order. */
  class Catalog {
    var products: map<nat, ProductDoc>
    var nextId: nat

    ghost predicate Valid()
      reads this
    {
      forall id :: id in products ==> id < nextId
    }

    constructor ()
      ensures Valid() && products == map[] && nextId == 0
    {
      products := map[];
      nextId := 0;
    }

    /** POST /api/product/add-product */
    method AddProduct(body: ProductBody, files: Option<seq<string>>) returns (reply: Reply)
      requires Valid()
      modifies this
      ensures Valid()
      ensures NewProduct(body, files).Fail? ==>
                reply == NewProduct(body, files).reply && products == old(products) && nextId == old(nextId)
      ensures NewProduct(body, files).Ok? ==>
                && reply == Reply(201, "Product added successfully")
                && products == old(products)[old(nextId) := NewProduct(body, files).value]
                && nextId == old(nextId) + 1
    {
      if !Truthy(body.name) || !Truthy(body.price) || !Truthy(body.offerPrice) || !Truthy(body.description)
         || !Truthy(body.category) || !HasImages(files) {
        return Reply(400, "All fields including images are required");
      }
      var reading := ReadUnitValue(body.unitValue);
      if reading.BadValue? {
        return BadUnitValue;
      }
      var unitValue := if reading.PositiveValue? then Some(reading.v) else None;
      var doc := ProductDoc(body.name, body.price, body.offerPrice, body.description, body.category, Undefined,
                            AllowedUnit(body.unit), unitValue, files.value);
      products := products[nextId := doc];
      nextId := nextId + 1;
      reply := Reply(201, "Product added successfully");
    }

    /** PUT /api/product/update/:id. The loaded product is changed field by
        field; the `unitValue` check can still return before the save, and
        then nothing of the update is stored. */
    method UpdateProduct(id: nat, body: ProductBody, files: Option<seq<string>>) returns (reply: Reply)
      requires Valid()
      modifies this
      ensures Valid() && nextId == old(nextId)
      ensures id !in old(products) ==> reply == Reply(404, "Product not found") && products == old(products)
      ensures id in old(products) && Updated(old(products)[id], body, files).Fail? ==>
                reply == BadUnitValue && products == old(products)
      ensures id in old(products) && Updated(old(products)[id], body, files).Ok? ==>
                && reply == Reply(200, "Product updated successfully")
                && products == old(products)[id := Updated(old(products)[id], body, files).value]
    {
      if id !in products {
        return Reply(404, "Product not found");
      }
      var product := products[id];
      product := AssignFields(product, body);
      if !(body.unitValue == Undefined || body.unitValue == Null || body.unitValue == Str("")) {
        var v := ToNumber(body.unitValue);
        if !(v.Some? && IsPositive(v.value)) {
          return BadUnitValue;
        }
        product := product.(unitValue := v);
      }
      if HasImages(files) { product := product.(image := files.value); }
      products := products[id := product];
      reply := Reply(200, "Product updated successfully");
    }

    /** The field-by-field assignments of the update, before the `unitValue` check. */
    static method AssignFields(p: ProductDoc, body: ProductBody) returns (product: ProductDoc)
      ensures product == FieldsUpdated(p, body)
    {
      product := p;
      if Truthy(body.name) { product := product.(name := body.name); }
      if Truthy(body.price) { product := product.(price := body.price); }
      if Truthy(body.offerPrice) { product := product.(offerPrice := body.offerPrice); }
      if Truthy(body.description) { product := product.(description := body.description); }
      if Truthy(body.category) { product := product.(category := body.category); }
      if body.inStock != Undefined { product := product.(inStock := body.inStock); }
      var unit := AllowedUnit(body.unit);
      if unit.Some? { product := product.(unit := unit); }
    }

    /** POST /api/product/stock: `inStock` is stored exactly as given. */
    method ChangeStock(id: nat, inStock: JsValue) returns (reply: Reply)
      requires Valid()
      modifies this
      ensures Valid() && nextId == old(nextId)
      ensures id !in old(products) ==> reply == Reply(404, "Product not found") && products == old(products)
      ensures id in old(products) ==>
                && products == old(products)[id := old(products)[id].(inStock := inStock)]
                && reply == Reply(200, if Truthy(inStock) then "Stock status updated to In Stock"
                                       else "Stock status updated to Out of Stock")
    {
      if id !in products {
        return Reply(404, "Product not found");
      }
      products := products[id := products[id].(inStock := inStock)];
      reply := Reply(200, if Truthy(inStock) then "Stock status updated to In Stock" else "Stock status updated to Out of Stock");
    }

    /** DELETE /api/product/:id */
    method DeleteProduct(id: nat) returns (reply: Reply)
      requires Valid()
      modifies this
      ensures Valid() && nextId == old(nextId)
      ensures id !in old(products) ==> reply == Reply(404, "Product not found") && products == old(products)
      ensures id in old(products) ==> reply == Reply(200, "Product deleted") && products == old(products) - {id}
    {
      if id !in products {
        return Reply(404, "Product not found");
      }
      products := products - {id};
      reply := Reply(200, "Product deleted");
    }
  }
}
