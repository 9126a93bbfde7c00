/** The product service's catalogue: products keyed by a generated id, each
    with a name, a description and a price. */
module Products {
  import opened Common
  import opened Text
  import opened Api

  datatype Product = Product(name: string, description: string, price: int)

  /** productId -> product. */
  type Catalogue = map<int, Product>

  /** `validateProductId`. */
  function ValidateProductId(productId: int): (o: Outcome)
    ensures o.Pass? <==> productId >= 1
    ensures o.Fail? ==> o.error == InvalidInput("Invalid productId: " + IntToString(productId))
  {
    if productId < 1 then Fail(InvalidInput("Invalid productId: " + IntToString(productId))) else Pass
  }

  /** `findProductById` (read path). */
  function FindProduct(products: Catalogue, productId: int): (r: Result<Product>)
    ensures r.Success? <==> productId in products
    ensures r.Success? ==> r.value == products[productId]
    ensures r.Failure? ==> r.error == NotFound("Product with id " + IntToString(productId) + " not found")
  {
    if productId in products then Success(products[productId])
    else Failure(NotFound("Product with id " + IntToString(productId) + " not found"))
  }

  /** The lookup of the update and delete paths, whose message spells "ID". */
  function FindProductForChange(products: Catalogue, productId: int): (r: Result<Product>)
    ensures r.Success? <==> productId in products
    ensures r.Success? ==> r.value == products[productId]
    ensures r.Failure? ==> r.error == NotFound("Product with ID " + IntToString(productId) + " not found")
  {
    if productId in products then Success(products[productId])
    else Failure(NotFound("Product with ID " + IntToString(productId) + " not found"))
  }

  /** The catalogue after `createProduct` under the generated id: nothing is
      validated. */
  function AfterCreate(products: Catalogue, dto: ProductCreate, productId: int): (r: Catalogue)
    ensures r.Keys == products.Keys + {productId}
    ensures r[productId] == Product(dto.name, dto.description, dto.price)
    ensures forall id :: id in products && id != productId ==> r[id] == products[id]
  {
    products[productId := Product(dto.name, dto.description, dto.price)]
  }

  /** The catalogue after `updateProduct`, or its error: the product keeps
      its id and takes every field of the request. */
  function AfterUpdate(products: Catalogue, productId: int, dto: ProductUpdate): (r: Result<Catalogue>)
    ensures r.Success? <==> productId >= 1 && productId in products
    ensures productId < 1 ==> r == Failure(ValidateProductId(productId).error)
    ensures productId >= 1 && productId !in products ==> r.Failure? && r.error.NotFound?
    ensures r.Success? ==> r.value.Keys == products.Keys
    ensures r.Success? ==> r.value[productId] == Product(dto.name, dto.description, dto.price)
    ensures r.Success? ==> forall id :: id in products && id != productId ==> r.value[id] == products[id]
  {
    if ValidateProductId(productId).Fail? then Failure(ValidateProductId(productId).error) else
    var _ :- FindProductForChange(products, productId);
    Success(products[productId := Product(dto.name, dto.description, dto.price)])
  }

  /** The catalogue after `deleteProduct`, or its error. */
  function AfterDelete(products: Catalogue, productId: int): (r: Result<Catalogue>)
    ensures r.Success? <==> productId >= 1 && productId in products
    ensures productId < 1 ==> r == Failure(ValidateProductId(productId).error)
    ensures productId >= 1 && productId !in products ==> r.Failure? && r.error.NotFound?
    ensures r.Success? ==> r.value.Keys == products.Keys - {productId}
    ensures r.Success? ==> forall id :: id in r.value ==> r.value[id] == products[id]
  {
    if ValidateProductId(productId).Fail? then Failure(ValidateProductId(productId).error) else
    var _ :- FindProductForChange(products, productId);
    Success(products - {productId})
  }

  /** `entityToDto`: the plain mapper, which leaves the address null. */
  function EntityToDto(productId: int, p: Product): (d: ProductDto)
    ensures d.id == productId && d.name == p.name && d.description == p.description && d.price == p.price
    ensures d.serviceAddress == None
  {
    ProductDto(productId, p.name, p.description, p.price, None)
  }

  class ProductService {
    var products: Catalogue
    /** The id the database will generate next: never used before. */
    var nextId: int
    const serviceAddress: string

    ghost predicate Valid()
      reads this
    {
      forall id :: id in products ==> id < nextId
    }

    constructor (address: string)
      ensures Valid() && products == map[] && serviceAddress == address
    {
      products := map[];
      nextId := 1;
      serviceAddress := address;
    }

    /** `mapToProductDtoWithServiceAddress`, used by the list reads. */
    function ToDto(productId: int, p: Product): (d: ProductDto)
      ensures d.id == productId && d.name == p.name && d.description == p.description && d.price == p.price
      ensures d.serviceAddress == Some(serviceAddress)
    {
      ProductDto(productId, p.name, p.description, p.price, Some(serviceAddress))
    }

    /** `getProducts`: every product. */
    function GetProducts(): (r: set<ProductDto>)
      reads this
      ensures forall d :: d in r ==> d.id in products && d == ToDto(d.id, products[d.id])
      ensures forall id :: id in products ==> ToDto(id, products[id]) in r
    {
      set id | id in products :: ToDto(id, products[id])
    }

    /** `getProductsByIds`: the products whose id is listed; unknown ids are
        skipped and repeated ids collapse. */
    function GetProductsByIds(ids: seq<int>): (r: set<ProductDto>)
      reads this
      ensures forall d :: d in r ==> d.id in ids && d.id in products && d == ToDto(d.id, products[d.id])
      ensures forall id :: id in ids && id in products ==> ToDto(id, products[id]) in r
    {
      set id | id in products && id in ids :: ToDto(id, products[id])
    }

    /** `getProduct`. */
    function GetProduct(productId: int): (r: Result<ProductDto>)
      reads this
      ensures r.Success? <==> productId >= 1 && productId in products
      ensures r.Success? ==> r.value == EntityToDto(productId, products[productId])
      ensures productId < 1 ==> r.Failure? && r.error.InvalidInput?
      ensures productId >= 1 && productId !in products ==> r.Failure? && r.error.NotFound?
    {
      if ValidateProductId(productId).Fail? then Failure(ValidateProductId(productId).error) else
      var p :- FindProduct(products, productId);
      Success(EntityToDto(productId, p))
    }

    /** `createProduct` with `internalCreateProduct`. */
    method CreateProduct(dto: ProductCreate) returns (d: ProductDto)
      requires Valid()
      modifies this
      ensures Valid()
      ensures old(nextId) !in old(products)
      ensures products == AfterCreate(old(products), dto, old(nextId))
      ensures d == EntityToDto(old(nextId), products[old(nextId)])
    {
      var productId := nextId;
      var p := Product(dto.name, dto.description, dto.price);
      products := products[productId := p];
      nextId := nextId + 1;
      d := EntityToDto(productId, p);
    }

    /** `updateProduct` with `internalUpdateProduct`. */
    method UpdateProduct(productId: int, dto: ProductUpdate) returns (r: Result<ProductDto>)
      requires Valid()
      modifies this
      ensures Valid() && nextId == old(nextId)
      ensures var spec := AfterUpdate(old(products), productId, dto);
              if spec.Success? then
                products == spec.value && r == Success(EntityToDto(productId, products[productId]))
              else products == old(products) && r == Failure(spec.error)
    {
      var valid := ValidateProductId(productId);
      if valid.Fail? {
        return Failure(valid.error);
      }
      var found := FindProductForChange(products, productId);
      if found.Failure? {
        return Failure(found.error);
      }
      var p := Product(dto.name, dto.description, dto.price);
      products := products[productId := p];
      r := Success(EntityToDto(productId, p));
    }

    /** `deleteProduct` with `internalDeleteProduct`. */
    method DeleteProduct(productId: int) returns (o: Outcome)
      requires Valid()
      modifies this
      ensures Valid() && nextId == old(nextId)
      ensures var spec := AfterDelete(old(products), productId);
              if spec.Success? then products == spec.value && o == Pass
              else products == old(products) && o == Fail(spec.error)
    {
      var valid := ValidateProductId(productId);
      if valid.Fail? {
        return valid;
      }
      var found := FindProductForChange(products, productId);
      if found.Failure? {
        return Fail(found.error);
      }
      products := products - {productId};
      o := Pass;
    }
  }

  /** Update and delete keep the generator ahead of every stored id. */
  lemma ChangesKeepIdsFresh(products: Catalogue, nextId: int, productId: int, dto: ProductUpdate)
    requires forall id :: id in products ==> id < nextId
    ensures AfterUpdate(products, productId, dto).Success? ==>
              forall id :: id in AfterUpdate(products, productId, dto).value ==> id < nextId
    ensures AfterDelete(products, productId).Success? ==>
              forall id :: id in AfterDelete(products, productId).value ==> id < nextId
  {
  }

  /** Deleting a product just created under a fresh, valid id restores the
      catalogue. */
  lemma CreateDeleteInverse(products: Catalogue, dto: ProductCreate, productId: int)
    requires productId >= 1 && productId !in products
    ensures AfterDelete(AfterCreate(products, dto, productId), productId) == Success(products)
  {
    assert AfterCreate(products, dto, productId) - {productId} == products;
  }

  /** An update followed by a read returns the request's fields under the
      same id; repeating the update changes nothing more. */
  lemma UpdateThenRead(products: Catalogue, productId: int, dto: ProductUpdate)
    requires AfterUpdate(products, productId, dto).Success?
    ensures var after := AfterUpdate(products, productId, dto).value;
            FindProduct(after, productId) == Success(Product(dto.name, dto.description, dto.price)) &&
            AfterUpdate(after, productId, dto) == Success(after)
  {
    var after := AfterUpdate(products, productId, dto).value;
    assert after[productId := Product(dto.name, dto.description, dto.price)] == after;
  }
}
