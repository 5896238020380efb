/**
 * The products controller: each action consults the repositories it holds,
 * may add an error to its model state, and returns an action result. Every
 * action is proved to make exactly the calls, leave exactly the model state
 * and return exactly the result that its decision function prescribes for
 * the answers the repositories gave.
 */
module Controller {
  import opened Wrappers
  import opened Text
  import opened Catalog
  import opened Results
  import opened Repository
  import opened Decisions

  /**
   * The answers the repositories give along the creation path for `d`, each
   * taken at the point of the call log where the action asks for it.
   */
  function AskCreate(products: ProductOracle, history: seq<Call>, categories: CategoryOracle,
                     categoryHistory: seq<Call>, mapper: Mapper, d: CreateProductDto): CreateAnswers
  {
    var afterLookup := history + [ProductExistsCall(d.name)];
    var product := mapper.toProduct(d);
    var (saved, stored) := products.createProduct(afterLookup, product);
    CreateAnswers(
      products.productExists(history, d.name),
      categories.categoryExists(categoryHistory, d.categoryId),
      saved,
      stored,
      products.getProduct(afterLookup + [CreateProductCall(product)], stored.productId))
  }

  class ProductsController {
    const productRepository: ProductRepository
    const categoryRepository: CategoryRepository
    const mapper: Mapper
    /** The errors added while handling the request. */
    var modelState: seq<ModelError>

    constructor (productRepository: ProductRepository, categoryRepository: CategoryRepository, mapper: Mapper)
      ensures this.productRepository == productRepository
      ensures this.categoryRepository == categoryRepository
      ensures this.mapper == mapper
      ensures modelState == []
    {
      this.productRepository := productRepository;
      this.categoryRepository := categoryRepository;
      this.mapper := mapper;
      modelState := [];
    }

    /** GET api/products (the action is spelled `GetProducs` in the controller). */
    method GetProducts() returns (r: ActionResult)
      modifies productRepository
      ensures productRepository.history == old(productRepository.history) + [GetProductsCall]
      ensures r == AllProductsResult(productRepository.oracle.getProducts(old(productRepository.history)), mapper)
    {
      var products := productRepository.GetProducts();
      r := Ok(ProductList(mapper.MapList(products)));
    }

    /** GET api/products/{productId}. */
    method GetProduct(productId: int) returns (r: ActionResult)
      modifies productRepository
      ensures productRepository.history == old(productRepository.history) + [GetProductCall(productId)]
      ensures r == GetProductResult(productId, productRepository.oracle.getProduct(old(productRepository.history), productId), mapper)
    {
      var product := productRepository.GetProduct(productId);
      if product.None? {
        return NotFound(Text(ProductIdNotFoundText(productId)));
      }
      r := Ok(OneProduct(mapper.MapProduct(product)));
    }

    /** POST api/products. */
    method CreateProduct(dto: Option<CreateProductDto>) returns (r: ActionResult)
      modifies this, productRepository, categoryRepository
      ensures dto.None? ==>
                r == BadRequest(Errors(old(modelState)))
                && modelState == old(modelState)
                && productRepository.history == old(productRepository.history)
                && categoryRepository.history == old(categoryRepository.history)
      ensures dto.Some? ==>
                var t := CreateDecision(dto, old(modelState), mapper,
                           AskCreate(productRepository.oracle, old(productRepository.history),
                                     categoryRepository.oracle, old(categoryRepository.history), mapper, dto.value));
                r == t.result
                && modelState == t.modelState
                && productRepository.history == old(productRepository.history) + t.productCalls
                && categoryRepository.history == old(categoryRepository.history) + t.categoryCalls
    {
      if dto.None? {
        return BadRequest(Errors(modelState));
      }
      var d := dto.value;
      var taken := productRepository.ProductExists(d.name);
      if taken {
        modelState := modelState + [ProductAlreadyExists];
        return BadRequest(Errors(modelState));
      }
      var found := categoryRepository.CategoryExists(d.categoryId);
      if !found {
        modelState := modelState + [CategoryNotFound(d.categoryId)];
        return BadRequest(Errors(modelState));
      }
      var product := mapper.toProduct(d);
      // the store writes into the entity it is given; from here on `product` is that entity
      var saved: bool;
      saved, product := productRepository.CreateProduct(product);
      if !saved {
        modelState := modelState + [SaveFailed(product.name)];
        return StatusCode(500, Errors(modelState));
      }
      var created := productRepository.GetProduct(product.productId);
      r := CreatedAtRoute("GetProduct", product.productId, OneProduct(mapper.MapProduct(created)));
    }

    /** GET api/products/searchProductByCategory/{categoryId}. */
    method GetProductForCategory(categoryId: int) returns (r: ActionResult)
      modifies productRepository
      ensures productRepository.history == old(productRepository.history) + [GetProductsForCategoryCall(categoryId)]
      ensures r == ListOrNotFound(productRepository.oracle.getProductsForCategory(old(productRepository.history), categoryId),
                                  CategoryNotFoundText(categoryId), mapper)
    {
      var products := productRepository.GetProductsForCategory(categoryId);
      if |products| == 0 {
        return NotFound(Text(CategoryNotFoundText(categoryId)));
      }
      r := Ok(ProductList(mapper.MapList(products)));
    }

    /** GET api/products/searchProductByNameDescription/{searchTerm}. */
    method SearchProducts(searchTerm: string) returns (r: ActionResult)
      modifies productRepository
      ensures productRepository.history == old(productRepository.history) + [SearchProductsCall(searchTerm)]
      ensures r == ListOrNotFound(productRepository.oracle.searchProducts(old(productRepository.history), searchTerm),
                                  SearchNotFoundText(searchTerm), mapper)
    {
      var products := productRepository.SearchProducts(searchTerm);
      if |products| == 0 {
        return NotFound(Text(SearchNotFoundText(searchTerm)));
      }
      r := Ok(ProductList(mapper.MapList(products)));
    }

    /** PATCH api/products/buyProduct/{name}/{quantity}. */
    method BuyProduct(name: Option<string>, quantity: int) returns (r: ActionResult)
      modifies this, productRepository
      ensures unchanged(categoryRepository)
      ensures var h := old(productRepository.history);
              var n := name.GetOr("");
              var t := BuyDecision(name, quantity, old(modelState),
                         productRepository.oracle.productExists(h, n),
                         productRepository.oracle.buyProduct(h + [ProductExistsCall(n)], n, quantity));
              r == t.result
              && modelState == t.modelState
              && productRepository.history == h + t.productCalls
    {
      if IsNullOrWhiteSpace(name) || quantity <= 0 {
        return BadRequest(Text(InvalidPurchaseText));
      }
      var n := name.value;
      var foundProduct := productRepository.ProductExists(n);
      if !foundProduct {
        return NotFound(Text(ProductNameNotFoundText(n)));
      }
      var bought := productRepository.BuyProduct(n, quantity);
      if !bought {
        modelState := modelState + [PurchaseFailed(n)];
        return BadRequest(Errors(modelState));
      }
      r := Ok(Text(PurchaseMessage(quantity, n)));
    }
  }
}
