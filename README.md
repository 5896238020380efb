# ProductsController request outcomes, in Dafny

This project models the request handling of `ProductsController` in the
ApiEcommerce catalog service. Each action runs an ordered chain of guards with
early returns and ends in one kind of result: Ok, BadRequest, NotFound,
CreatedAtRoute or status 500. The model states these chains as decision tables
and proves them. It also proves which repository calls each action makes and which it never makes.

The product and category repositories are not part of this model, so nothing
is assumed about how they store, match or decrement anything. Each repository
is a class whose answers come from an *oracle*: total functions of the calls
it has received so far (its call log) and of the new call's arguments. The
insertion answers with whether it was saved and with the entity as the store
left it, since the store may write into any field of the entity it is given.
Every deterministic repository that answers without throwing, and writes
into the entity only during the insertion, can be written this way. So each
result below holds for every answer such a repository can give.

Layout:

- `wrappers.dfy`: `Option`, for C# references that may be null.
- `text.dfy`: the .NET library behaviour the actions rely on. This is
  `string.IsNullOrWhiteSpace` (using `char.IsWhiteSpace`'s character set) and
  the decimal rendering of an `int` in an interpolated string. It comes with
  lemmas that the rendering reads back.
- `catalog.dfy`: product, creation DTO, product DTO, and the object mapper.
  The mapper is a pair of arbitrary functions.
- `results.dfy`: action results, their bodies, and the model-state errors.
- `repository.dfy`: the call record, the oracles, and the two repository
  classes with their call logs.
- `decisions.dfy`: each action's decision as a pure function of the request
  and the repositories' answers. Its ensures clauses are the decision table.
  It also holds the purchase confirmation text and its read-back.
- `controller.dfy`: the `ProductsController` class. Its methods follow the
  controller's code step by step. Each is proved to produce the result, the
  call log and the model state that its decision function prescribes.

## Model

| member | source | states |
|---|---|---|
| `Controller.ProductsController.constructor` | Controllers/ProductsController.cs:19-24 | the controller holds exactly the given repositories and mapper, and starts with an empty model state |
| `Controller.ProductsController.GetProducts` | Controllers/ProductsController.cs:29-34 | makes exactly one listing call and returns what `AllProductsResult` prescribes for the repository's answer |
| `Controller.ProductsController.GetProduct` | Controllers/ProductsController.cs:41-48 | makes exactly one lookup by id and returns what `GetProductResult` prescribes for the answer |
| `Controller.ProductsController.CreateProduct` | Controllers/ProductsController.cs:56-81 | a null body returns BadRequest with the model state unchanged and no call made; otherwise the result, the new model state and both call logs are exactly those of `CreateDecision` for the answers given at each point of the log |
| `Controller.ProductsController.GetProductForCategory` | Controllers/ProductsController.cs:88-95 | makes exactly one by-category call and returns what `ListOrNotFound` prescribes for the answer |
| `Controller.ProductsController.SearchProducts` | Controllers/ProductsController.cs:102-109 | makes exactly one search call and returns what `ListOrNotFound` prescribes for the answer |
| `Controller.ProductsController.BuyProduct` | Controllers/ProductsController.cs:116-130 | the result, the new model state and the product call log are exactly those of `BuyDecision` for the answers given; the category repository is untouched |
| `Decisions.AllProductsResult` | Controllers/ProductsController.cs:29-34 | always Ok, with one DTO per listed product, in order |
| `Decisions.GetProductResult` | Controllers/ProductsController.cs:41-48 | NotFound exactly when the repository returns null; otherwise Ok with that product mapped |
| `Decisions.ListOrNotFound` | Controllers/ProductsController.cs:88-109 | NotFound exactly when the list is empty; otherwise Ok with a list of the same length whose i-th DTO is the i-th product mapped |
| `Decisions.BuyDecision` | Controllers/ProductsController.cs:116-130 | a null, empty or white-space name, or a quantity of 0 or less, gives BadRequest without any repository call; NotFound exactly when the guard passed and the product does not exist, and then the purchase is never attempted; Ok exactly when the guard passed, the product exists and the purchase succeeded; a refused purchase gives BadRequest and is the only case that adds a model-state error; the purchase is attempted exactly when the guard passed and the product exists |
| `Decisions.CreateDecision` | Controllers/ProductsController.cs:56-81 | null body, then a taken name, then an unknown category, each give BadRequest, in that order; a taken name wins over an unknown category, and the category is then not even asked about; no insertion call unless all three checks passed, and then exactly the mapped entity is inserted; each rejection pins the product call log, the category call log and the one error added; a failed insert gives status 500 with a save error naming the entity as the store left it; a saved insert gives CreatedAtRoute "GetProduct" with the id the store wrote into the entity, and a body that is the product fetched by that id |
| `Decisions.UnitLead` | Controllers/ProductsController.cs:128-129 | the text after the quantity starts with the plural lead " unidades del producto '" exactly when the quantity is not 1, and with the singular lead when it is 1 |
| `Decisions.PurchaseMessageReadsBack` | Controllers/ProductsController.cs:128-129 | a success message for a positive quantity reads back as that same quantity, with "unidad" exactly when it is 1 and "unidades" otherwise |
| `Decisions.BuyConfirmsQuantity` | Controllers/ProductsController.cs:116-130 | every Ok from a purchase has a positive quantity and a confirmation text that reads back as exactly the requested quantity, singular exactly when it is 1 |
| `Text.Digits` | Controllers/ProductsController.cs:129 | the rendering of a quantity is a non-empty string of decimal digits with no leading zero |
| `Text.FormatIntReadsBack` | Controllers/ProductsController.cs:44 | the rendering of any integer id, negative ones included, reads back as that integer |
| `Text.ValueOfDigits` | Controllers/ProductsController.cs:129 | reading back the rendered digits of a number gives the number |

## What the controller does not check

- `CreateProduct` validates no field of the body: not a blank name, not the price, not the stock, not the SKU. It checks only for a null body, a taken name and an unknown category, and then inserts.
- `BuyProduct` turns any `false` from the repository's purchase into BadRequest, whatever the reason. A product that disappears between the existence check and the purchase is reported as BadRequest if the repository's purchase answers `false` for it.
- `string.IsNullOrWhiteSpace` rejects a null name and a name made only of white space, as well as an empty one.

## Left out

- Repository internals are not modelled: stock arithmetic, what "exists" means (case sensitivity), search matching, SKU uniqueness and atomicity. Their implementations are not part of this model. Each repository is specified only through its answers, which are arbitrary functions of its call log.
- The two repositories keep separate call logs. An answer of one therefore cannot depend on calls made to the other. In the service both work on one database context, but no action changes categories.
- Concurrency is not modelled, nor the check-then-act window between `ProductExists` and `BuyProduct` (Controllers/ProductsController.cs:120-124). The code has no concurrency control of its own.
- The object mapper is a parameter: two arbitrary total functions, with null mapping to null. Its configuration is not part of this model. Lists are mapped element by element, in order.
- Model-state errors record which error was added (all are added under the key "CustomError"), not their Spanish wording. `BadRequest(ModelState)` is modelled as the list of errors present. The model state an action starts from is an arbitrary list. This is a generalisation: the controller carries `[ApiController]` (Controllers/ProductsController.cs:13), so the framework answers an invalid model state with its own 400 before the action runs, and in the service the model state holds no errors when an action starts.
- `FormatIntReadsBack`: `FormatInt` renders with the invariant culture (a "-" sign and ASCII digits). Culture-specific number formatting is not modelled.
- Writes into the entity after the insertion are not modelled. The controller reads `product.ProductId` at Controllers/ProductsController.cs:78 and again at line 80, after the lookup. The model reads the id once, from the entity as the insertion left it. A repository that kept the reference and changed the entity during the later lookup would not fit the oracle.
- Exceptions are not modelled. A repository call that throws (a failed save, a lost connection) leaves the action, since Controllers/ProductsController.cs:56-130 has no try/catch, and the framework answers with status 500. The oracles only answer; they cannot throw.
- Prices are `real`. The rounding and precision of C# `decimal` are not modelled, and no action computes with prices.
- The product's creation date and its category navigation property are left out. They are set outside the controller, and the controller does not read them.
- HTTP routing, status plumbing beyond the result kind and code, authorization attributes, response caching, API versioning, Swagger, JWT authentication, dependency-injection wiring and the startup migration and seeding in Program.cs are not modelled. They are framework configuration with no decisions of the controller in them.
