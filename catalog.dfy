/**
 * The entities the products controller handles: the stored product, the
 * body of a creation request, the product as returned to clients, and the
 * object mapper that converts between them.
 */
module Catalog {
  import opened Wrappers

  /** A stored product. `productId` is assigned by the store on insertion. */
  datatype Product = Product(
    productId: int,
    name: string,
    description: string,
    price: real,
    imgUrl: string,
    sku: string,
    stock: int,
    categoryId: int)

  /** The body of a creation request, before mapping to an entity. */
  datatype CreateProductDto = CreateProductDto(
    name: string,
    description: string,
    price: real,
    imgUrl: string,
    sku: string,
    stock: int,
    categoryId: int)

  /** A product as the controller returns it to clients. */
  datatype ProductDto = ProductDto(
    productId: int,
    name: string,
    description: string,
    price: real,
    imgUrl: string,
    sku: string,
    stock: int,
    categoryId: int)

  /**
   * The object mapper. Its mapping rules are configuration outside the
   * controller, so they are left arbitrary: any pair of total functions.
   */
  datatype Mapper = Mapper(
    toProductDto: Product -> ProductDto,
    toProduct: CreateProductDto -> Product)
  {
    /** Mapping a possibly-null product: null maps to null. */
    function MapProduct(p: Option<Product>): (d: Option<ProductDto>)
      ensures d.Some? <==> p.Some?
      ensures p.Some? ==> d.value == toProductDto(p.value)
    {
      match p
      case None => None
      case Some(q) => Some(toProductDto(q))
    }

    /** Mapping a list: one DTO per product, in the same order. */
    function MapList(ps: seq<Product>): (ds: seq<ProductDto>)
      ensures |ds| == |ps|
      ensures forall i :: 0 <= i < |ps| ==> ds[i] == toProductDto(ps[i])
    {
      seq(|ps|, i requires 0 <= i < |ps| => toProductDto(ps[i]))
    }
  }
}
