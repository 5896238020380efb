/**
 * The decisions the products controller takes, as functions of a request
 * and of the answers its repositories gave. Each action is an ordered chain
 * of guards with early returns; here each chain yields a `Trace`: the calls
 * the action makes, the model state it leaves and the result it returns.
 * The contracts are the actions' decision tables.
 */
module Decisions {
  import opened Wrappers
  import opened Text
  import opened Catalog
  import opened Results
  import opened Repository

  /** What one action did: its repository calls, the new model state, the result. */
  datatype Trace = Trace(
    productCalls: seq<Call>,
    categoryCalls: seq<Call>,
    modelState: seq<ModelError>,
    result: ActionResult)

  /** The answers the repositories give along the creation path. */
  datatype CreateAnswers = CreateAnswers(
    nameTaken: bool,
    categoryFound: bool,
    saved: bool,
    stored: Product,
    fetched: Option<Product>)

  predicate CallsBuy(calls: seq<Call>) {
    exists i :: 0 <= i < |calls| && calls[i].BuyProductCall?
  }

  predicate CallsCreate(calls: seq<Call>) {
    exists i :: 0 <= i < |calls| && calls[i].CreateProductCall?
  }

  // ---------------------------------------------------------------- texts

  const InvalidPurchaseText := "El nombre del producto o la cantidad no son válidos"

  function ProductIdNotFoundText(productId: int): string {
    "El producto con el id " + FormatInt(productId) + " no existe"
  }

  function CategoryNotFoundText(categoryId: int): string {
    "Los productos con la categoria " + FormatInt(categoryId) + " no existe"
  }

  function SearchNotFoundText(searchTerm: string): string {
    "Los productos con el nombre o descripcion '" + searchTerm + "' no existen"
  }

  function ProductNameNotFoundText(name: string): string {
    "El producto con el nombre " + name + " no existe"
  }

  /** The unit word of a purchase confirmation. */
  function UnitWord(quantity: int): string {
    if quantity == 1 then "unidad" else "unidades"
  }

  const PurchasePrefix := "Se compro "

  /** The confirmation text of a successful purchase. */
  function PurchaseMessage(quantity: int, name: string): string {
    PurchasePrefix + FormatInt(quantity) + " " + UnitWord(quantity)
      + " del producto '" + name + "'"
  }

  /** What a purchase confirmation reports: the quantity, and whether the unit word is plural. */
  datatype PurchaseReport = PurchaseReport(quantity: nat, plural: bool)

  const SingularLead := " unidad del producto '"
  const PluralLead := " unidades del producto '"

  predicate StartsWith(s: string, p: string) {
    |p| <= |s| && s[..|p|] == p
  }

  /** Reads a purchase confirmation back: the number after the prefix and the unit word after it. */
  function ReadPurchase(m: string): Option<PurchaseReport> {
    if !StartsWith(m, PurchasePrefix) then None
    else
      var rest := m[|PurchasePrefix|..];
      var ds := TakeDigits(rest);
      var after := rest[|ds|..];
      if ds == [] then None
      else if StartsWith(after, PluralLead) then Some(PurchaseReport(Value(ds), true))
      else if StartsWith(after, SingularLead) then Some(PurchaseReport(Value(ds), false))
      else None
  }

  /** The text after the number starts with the lead for the unit word, and with no other. */
  lemma UnitLead(quantity: int, name: string)
    ensures var after := " " + UnitWord(quantity) + " del producto '" + name + "'";
            (StartsWith(after, PluralLead) <==> quantity != 1)
            && (quantity == 1 ==> StartsWith(after, SingularLead))
  {
    var lead := " " + UnitWord(quantity) + " del producto '";
    var after := lead + name + "'";
    assert after == lead + (name + "'");
    if quantity == 1 {
      assert lead == SingularLead;
      assert after[..|SingularLead|] == SingularLead;
      assert after[7] == SingularLead[7] != PluralLead[7];
    } else {
      assert lead == PluralLead;
      assert after[..|PluralLead|] == PluralLead;
    }
  }

  /**
   * A confirmation reads back as the quantity bought, with the singular unit
   * word exactly when that quantity is 1.
   */
  lemma {:induction false} PurchaseMessageReadsBack(quantity: int, name: string)
    requires quantity > 0
    ensures ReadPurchase(PurchaseMessage(quantity, name)) == Some(PurchaseReport(quantity, quantity != 1))
  {
    var d := Digits(quantity);
    var tail := " " + UnitWord(quantity) + " del producto '" + name + "'";
    var m := PurchaseMessage(quantity, name);
    assert m == PurchasePrefix + (d + tail);
    var rest := m[|PurchasePrefix|..];
    assert StartsWith(m, PurchasePrefix) && rest == d + tail;
    TakeDigitsOfRun(d, tail);
    assert rest[|d|..] == tail;
    ValueOfDigits(quantity);
    UnitLead(quantity, name);
  }

  // ------------------------------------------------------------ read actions

  /** GET products: every product the repository lists, mapped. */
  function AllProductsResult(products: seq<Product>, mapper: Mapper): (r: ActionResult)
    ensures r.Ok? && r.body.ProductList?
    ensures |r.body.products| == |products|
    ensures forall i :: 0 <= i < |products| ==> r.body.products[i] == mapper.toProductDto(products[i])
  {
    Ok(ProductList(mapper.MapList(products)))
  }

  /** GET products/{id}: not found exactly when the repository has no such product. */
  function GetProductResult(productId: int, found: Option<Product>, mapper: Mapper): (r: ActionResult)
    ensures r.NotFound? <==> found.None?
    ensures r.Ok? <==> found.Some?
    ensures found.None? ==> r.body == Text(ProductIdNotFoundText(productId))
    ensures found.Some? ==> r.body == OneProduct(Some(mapper.toProductDto(found.value)))
  {
    if found.None? then NotFound(Text(ProductIdNotFoundText(productId)))
    else Ok(OneProduct(mapper.MapProduct(found)))
  }

  /**
   * A list lookup (by category, by search term): not found exactly when the
   * list is empty, and otherwise the whole list, mapped in order.
   */
  function ListOrNotFound(products: seq<Product>, notFoundText: string, mapper: Mapper): (r: ActionResult)
    ensures r.NotFound? <==> |products| == 0
    ensures r.Ok? <==> |products| > 0
    ensures r.NotFound? ==> r.body == Text(notFoundText)
    ensures r.Ok? ==> r.body.ProductList? && |r.body.products| == |products|
    ensures r.Ok? ==> forall i :: 0 <= i < |products| ==> r.body.products[i] == mapper.toProductDto(products[i])
  {
    if |products| == 0 then NotFound(Text(notFoundText))
    else Ok(ProductList(mapper.MapList(products)))
  }

  // ------------------------------------------------------------- purchase

  /** The input guard of a purchase: a name that is not blank, and a positive quantity. */
  predicate ValidPurchase(name: Option<string>, quantity: int) {
    !IsNullOrWhiteSpace(name) && quantity > 0
  }

  /**
   * PATCH buyProduct/{name}/{quantity}, given the repository's answers to
   * "does the product exist" (`found`) and "was the purchase made" (`bought`).
   * An answer the action never asks for has no influence.
   */
  function BuyDecision(name: Option<string>, quantity: int, prior: seq<ModelError>, found: bool, bought: bool): (t: Trace)
    ensures t.categoryCalls == []
    // the input guard comes first and consults nobody
    ensures !ValidPurchase(name, quantity) ==>
              t == Trace([], [], prior, BadRequest(Text(InvalidPurchaseText)))
    ensures ValidPurchase(name, quantity) ==> |t.productCalls| > 0 && t.productCalls[0] == ProductExistsCall(name.value)
    // the decision table
    ensures t.result.NotFound? <==> ValidPurchase(name, quantity) && !found
    ensures t.result.Ok? <==> ValidPurchase(name, quantity) && found && bought
    ensures t.result.BadRequest? <==> !ValidPurchase(name, quantity) || (found && !bought)
    // the purchase itself is attempted only for an existing product and a valid request
    ensures CallsBuy(t.productCalls) <==> ValidPurchase(name, quantity) && found
    ensures CallsBuy(t.productCalls) ==> t.productCalls == [ProductExistsCall(name.value), BuyProductCall(name.value, quantity)]
    ensures t.result.NotFound? ==>
              t.productCalls == [ProductExistsCall(name.value)]
              && t.result.body == Text(ProductNameNotFoundText(name.value))
    // only a refused purchase records an error
    ensures t.modelState != prior <==> ValidPurchase(name, quantity) && found && !bought
    ensures t.modelState != prior ==>
              t.modelState == prior + [PurchaseFailed(name.value)]
              && t.result == BadRequest(Errors(t.modelState))
    ensures t.result.Ok? ==> t.result.body == Text(PurchaseMessage(quantity, name.value))
  {
    if IsNullOrWhiteSpace(name) || quantity <= 0 then
      Trace([], [], prior, BadRequest(Text(InvalidPurchaseText)))
    else
      var n := name.value;
      if !found then
        Trace([ProductExistsCall(n)], [], prior, NotFound(Text(ProductNameNotFoundText(n))))
      else
        var calls := [ProductExistsCall(n), BuyProductCall(n, quantity)];
        assert calls[1].BuyProductCall?;
        if !bought then
          var ms := prior + [PurchaseFailed(n)];
          Trace(calls, [], ms, BadRequest(Errors(ms)))
        else
          Trace(calls, [], prior, Ok(Text(PurchaseMessage(quantity, n))))
  }

  /**
   * A successful purchase confirms exactly the quantity requested, using
   * "unidad" when it is 1 and "unidades" otherwise.
   */
  lemma BuyConfirmsQuantity(name: Option<string>, quantity: int, prior: seq<ModelError>, found: bool, bought: bool)
    requires BuyDecision(name, quantity, prior, found, bought).result.Ok?
    ensures quantity > 0
    ensures ReadPurchase(BuyDecision(name, quantity, prior, found, bought).result.body.text)
              == Some(PurchaseReport(quantity, quantity != 1))
  {
    PurchaseMessageReadsBack(quantity, name.value);
  }

  // ------------------------------------------------------------- creation

  /**
   * POST products, given the repositories' answers along the path: whether
   * the name is taken, whether the category exists, whether the insertion was
   * saved, the entity as the store left it (with the id it assigned), and
   * what the lookup by that id returned.
   */
  function CreateDecision(dto: Option<CreateProductDto>, prior: seq<ModelError>, mapper: Mapper, a: CreateAnswers): (t: Trace)
    // a missing body is rejected before anything is asked
    ensures dto.None? ==> t == Trace([], [], prior, BadRequest(Errors(prior)))
    // a taken name is reported before an unknown category, which is then never asked about
    ensures dto.Some? && a.nameTaken ==>
              t.productCalls == [ProductExistsCall(dto.value.name)] && t.categoryCalls == []
              && t.modelState == prior + [ProductAlreadyExists]
              && t.result == BadRequest(Errors(t.modelState))
    ensures dto.Some? && !a.nameTaken && !a.categoryFound ==>
              t.productCalls == [ProductExistsCall(dto.value.name)]
              && t.categoryCalls == [CategoryExistsCall(dto.value.categoryId)]
              && t.modelState == prior + [CategoryNotFound(dto.value.categoryId)]
              && t.result == BadRequest(Errors(t.modelState))
    // the decision table
    ensures t.result.BadRequest? <==> dto.None? || a.nameTaken || !a.categoryFound
    ensures t.result.StatusCode? <==> dto.Some? && !a.nameTaken && a.categoryFound && !a.saved
    ensures t.result.CreatedAtRoute? <==> dto.Some? && !a.nameTaken && a.categoryFound && a.saved
    ensures t.result.StatusCode? ==> t.result.code == 500
    // nothing is inserted unless validation passed, and then exactly the mapped entity
    ensures CallsCreate(t.productCalls) <==> dto.Some? && !a.nameTaken && a.categoryFound
    ensures CallsCreate(t.productCalls) ==>
              |t.productCalls| >= 2
              && t.productCalls[..2] == [ProductExistsCall(dto.value.name), CreateProductCall(mapper.toProduct(dto.value))]
              && t.categoryCalls == [CategoryExistsCall(dto.value.categoryId)]
    // on success: the route id is the stored id and the body is the product fetched by it
    ensures t.result.CreatedAtRoute? ==>
              t.result.routeName == "GetProduct" && t.result.productId == a.stored.productId
              && t.result.body == OneProduct(mapper.MapProduct(a.fetched))
              && t.productCalls[2..] == [GetProductCall(a.stored.productId)]
              && t.modelState == prior
    ensures t.result.StatusCode? ==>
              t.modelState == prior + [SaveFailed(a.stored.name)]
              && t.result.body == Errors(t.modelState) && |t.productCalls| == 2
  {
    if dto.None? then
      Trace([], [], prior, BadRequest(Errors(prior)))
    else
      var d := dto.value;
      var lookup := ProductExistsCall(d.name);
      if a.nameTaken then
        var ms := prior + [ProductAlreadyExists];
        Trace([lookup], [], ms, BadRequest(Errors(ms)))
      else if !a.categoryFound then
        var ms := prior + [CategoryNotFound(d.categoryId)];
        Trace([lookup], [CategoryExistsCall(d.categoryId)], ms, BadRequest(Errors(ms)))
      else
        var product := mapper.toProduct(d);
        var inserted := [lookup, CreateProductCall(product)];
        assert inserted[1].CreateProductCall?;
        if !a.saved then
          var ms := prior + [SaveFailed(a.stored.name)];
          Trace(inserted, [CategoryExistsCall(d.categoryId)], ms, StatusCode(500, Errors(ms)))
        else
          var id := a.stored.productId;
          assert (inserted + [GetProductCall(id)])[1].CreateProductCall?;
          Trace(inserted + [GetProductCall(id)], [CategoryExistsCall(d.categoryId)], prior,
                CreatedAtRoute("GetProduct", id, OneProduct(mapper.MapProduct(a.fetched))))
  }
}
