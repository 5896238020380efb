/**
 * What a controller action hands back to the web framework: the kind of
 * result, its status code where the action sets one, and its body.
 */
module Results {
  import opened Wrappers
  import opened Catalog

  /**
   * An error the controller adds to its model state, all under the key
   * "CustomError". Only which error was added is modelled, not its wording.
   */
  datatype ModelError =
    | ProductAlreadyExists
    | CategoryNotFound(categoryId: int)
    | SaveFailed(productName: string)
    | PurchaseFailed(productName: string)

  /** The payload of a result. */
  datatype Body =
    | Text(text: string)
    | Errors(errors: seq<ModelError>)
    | OneProduct(product: Option<ProductDto>)
    | ProductList(products: seq<ProductDto>)

  datatype ActionResult =
    | Ok(body: Body)
    | BadRequest(body: Body)
    | NotFound(body: Body)
    | CreatedAtRoute(routeName: string, productId: int, body: Body)
    | StatusCode(code: int, body: Body)
}
