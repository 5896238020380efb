/**
 * The product and category repositories that the controller consults.
 *
 * Their implementations are not part of this model, so nothing is assumed
 * about how they store, match or decrement anything. Each repository answers
 * through an oracle: a total function of the calls it has been asked so far
 * and of the arguments of the new call. Every deterministic repository that
 * answers without throwing, and writes into a product entity only while
 * inserting it, is such a function; what is proved of the controller holds
 * whatever such repositories answer. The call log records every call in order, which lets
 * the model say which calls an action never makes.
 */
module Repository {
  import opened Wrappers
  import opened Catalog

  /** One call into a repository, with its arguments. */
  datatype Call =
    | GetProductsCall
    | GetProductCall(productId: int)
    | ProductExistsCall(name: string)
    | CreateProductCall(product: Product)
    | GetProductsForCategoryCall(categoryId: int)
    | SearchProductsCall(searchTerm: string)
    | BuyProductCall(name: string, quantity: int)
    | CategoryExistsCall(categoryId: int)

  /**
   * The answers of a product repository. The entity is passed to
   * `createProduct` by reference and the store may write to any of its
   * fields (the id above all), so `createProduct` gives whether the insertion
   * was saved and the entity as it stands after the call.
   */
  datatype ProductOracle = ProductOracle(
    getProducts: seq<Call> -> seq<Product>,
    getProduct: (seq<Call>, int) -> Option<Product>,
    productExists: (seq<Call>, string) -> bool,
    createProduct: (seq<Call>, Product) -> (bool, Product),
    getProductsForCategory: (seq<Call>, int) -> seq<Product>,
    searchProducts: (seq<Call>, string) -> seq<Product>,
    buyProduct: (seq<Call>, string, int) -> bool)

  /** The answers of a category repository. */
  datatype CategoryOracle = CategoryOracle(
    categoryExists: (seq<Call>, int) -> bool)

  class ProductRepository {
    const oracle: ProductOracle
    /** Every call made so far, oldest first. */
    var history: seq<Call>

    constructor (oracle: ProductOracle)
      ensures this.oracle == oracle && history == []
    {
      this.oracle := oracle;
      history := [];
    }

    method GetProducts() returns (ps: seq<Product>)
      modifies this
      ensures ps == oracle.getProducts(old(history))
      ensures history == old(history) + [GetProductsCall]
    {
      ps := oracle.getProducts(history);
      history := history + [GetProductsCall];
    }

    method GetProduct(productId: int) returns (p: Option<Product>)
      modifies this
      ensures p == oracle.getProduct(old(history), productId)
      ensures history == old(history) + [GetProductCall(productId)]
    {
      p := oracle.getProduct(history, productId);
      history := history + [GetProductCall(productId)];
    }

    method ProductExists(name: string) returns (b: bool)
      modifies this
      ensures b == oracle.productExists(old(history), name)
      ensures history == old(history) + [ProductExistsCall(name)]
    {
      b := oracle.productExists(history, name);
      history := history + [ProductExistsCall(name)];
    }

    /** Inserts `product`; `stored` is the entity as the store left it. */
    method CreateProduct(product: Product) returns (saved: bool, stored: Product)
      modifies this
      ensures (saved, stored) == oracle.createProduct(old(history), product)
      ensures history == old(history) + [CreateProductCall(product)]
    {
      var answer := oracle.createProduct(history, product);
      saved, stored := answer.0, answer.1;
      history := history + [CreateProductCall(product)];
    }

    method GetProductsForCategory(categoryId: int) returns (ps: seq<Product>)
      modifies this
      ensures ps == oracle.getProductsForCategory(old(history), categoryId)
      ensures history == old(history) + [GetProductsForCategoryCall(categoryId)]
    {
      ps := oracle.getProductsForCategory(history, categoryId);
      history := history + [GetProductsForCategoryCall(categoryId)];
    }

    method SearchProducts(searchTerm: string) returns (ps: seq<Product>)
      modifies this
      ensures ps == oracle.searchProducts(old(history), searchTerm)
      ensures history == old(history) + [SearchProductsCall(searchTerm)]
    {
      ps := oracle.searchProducts(history, searchTerm);
      history := history + [SearchProductsCall(searchTerm)];
    }

    method BuyProduct(name: string, quantity: int) returns (bought: bool)
      modifies this
      ensures bought == oracle.buyProduct(old(history), name, quantity)
      ensures history == old(history) + [BuyProductCall(name, quantity)]
    {
      bought := oracle.buyProduct(history, name, quantity);
      history := history + [BuyProductCall(name, quantity)];
    }
  }

  class CategoryRepository {
    const oracle: CategoryOracle
    /** Every call made so far, oldest first. */
    var history: seq<Call>

    constructor (oracle: CategoryOracle)
      ensures this.oracle == oracle && history == []
    {
      this.oracle := oracle;
      history := [];
    }

    method CategoryExists(categoryId: int) returns (b: bool)
      modifies this
      ensures b == oracle.categoryExists(old(history), categoryId)
      ensures history == old(history) + [CategoryExistsCall(categoryId)]
    {
      b := oracle.categoryExists(history, categoryId);
      history := history + [CategoryExistsCall(categoryId)];
    }
  }
}
