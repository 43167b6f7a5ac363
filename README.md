# Warehouse stock rules, modelled in Dafny

The warehouse management system keeps two document collections: products, each with a
stock `quantity`, and an append-only log of stock movements, each `inbound` or `outbound`.
This project models the three pieces of logic that decide what ends up in those collections:

- **Backend function** (`backend/src/main.js`). It routes a request on path and method.
  - `POST /movements/inbound` logs a movement and raises the product's quantity.
  - `POST /movements/outbound` first checks the stock. It refuses a request larger than the stock; otherwise it logs the movement and lowers the quantity.
  - `GET /stats` folds both collections into five figures.
  - The remaining routes list the collections or create a product. Any other request gets the API information object.
- **Browser data services** (`frontend/script.js`).
  - In demo mode, `getDocuments` and `createDocument` keep one list of documents per collection in local storage. Otherwise they go to the database.
  - The dashboard computes its own figures from the two lists.
  - The inbound form records a movement and then raises the product's stock.
- **`.env` loader** (`backend/src/setup-database.js`). The setup script splits the file into lines and each line at `=`. Every usable line then assigns a trimmed name and value in the process environment.

Modules, one per file:

| module | file | what it holds |
|---|---|---|
| `Wrappers` | wrappers.dfy | `Option`, `Result` |
| `JsString` | js_string.dfy | `trim`, `split`, `join` on strings |
| `JsValue` | js_value.dfy | the JSON values stored in documents, truthiness and `\|\|`, `parseInt`, `Number`, and `<` |
| `EnvFile` | env_file.dfy | the `.env` loop |
| `BackendStore` | backend_store.dfy | products, movements, the database calls, and the in-memory `Database` class |
| `BackendStats` | backend_stats.dfy | the `GET /stats` figures |
| `BackendHandler` | backend_handler.dfy | routing; `Step`, the effect of one request; `Handle`, which performs it on a `Database` |
| `BackendLedger` | backend_ledger.dfy | stock against the movement log, over any sequence of requests |
| `Dashboard` | dashboard.dfy | the browser's figures |
| `FrontendServices` | frontend_services.dfy | the data services class and the inbound form |

Where the source changes state, the model is a class whose methods change it in the source's order:

- `Database` and `Handle` for the backend;
- `DataServices` for the browser;
- the loop of `LoadEnv` for `.env`.

Each such method is proved equal to a function of the old state (`Step`, `CreateStep`, `SubmitStep`, `ApplyLines`). The properties are lemmas about those functions.

Decisions worth knowing:

- **Time.** The current time is a parameter. `Instant.day` stands for the calendar day `toDateString()` shows. A movement stamped with `Stamp(t)` is "today" when `t.day` equals the day of the current instant.
- **Ids.** The ids `ID.unique()` and `Date.now()` would generate are parameters as well.
- **Product storage.** The backend stores a product as `Product(id, quantity, attrs)`. A `None` quantity stands for a null attribute, which `|| 0` and `-` treat as zero.
- **Schema validation.** The database refuses a movement without a string `productId` and an integer `quantity`, and a product without an integer `quantity`. Those are the checks of the collection schemas in `backend/src/setup-database.js:43-67` that the handlers' arithmetic depends on.
- **Empty variable names.** A line whose name is only blanks (a space followed by `=x`, say) passes the loader's test, because the test is made before trimming, and so it yields the empty name. The process environment refuses an empty name without an error, so such a line changes nothing (`EnvFile.ApplyLine`).
- **Request body.** A body is `None` when `JSON.parse` cannot read it or when it parses to something other than an object (a number, a string, an array or `null`). Every route that reads a body answers such a request with status 500 and writes nothing. An unreadable body makes `JSON.parse` throw. For `POST /products` the database refuses a document that is not an object. For the movement routes, spreading such a value yields no `productId`: the inbound movement is refused by the schema, and the outbound lookup of an absent id fails (or, for `null`, reading `data.productId` throws).
- **Behaviour that may surprise.** The model keeps it as written:
  - Neither handler validates the requested quantity. A zero or negative inbound quantity is accepted. The ledger invariant is therefore stated for requests whose inbound quantity is not negative (`BackendLedger.Admissible`).
  - A refused outbound request writes no movement. On a known product, the log therefore holds one movement per accepted request, not one per request. The exception is below: an inbound request for an unknown product also leaves a movement.
  - The inbound movement is logged before the product is looked up. An inbound request for an unknown product leaves a movement behind and answers 500.
  - The browser reads `min_stock`, while the product schema names the attribute `minStock`. For documents that follow the schema, the per-product threshold is therefore always the default 10.

## Model

| member | source | states |
|---|---|---|
| JsString.Trim | backend/src/setup-database.js:20 | definition: white space cut from both ends |
| JsString.Split | backend/src/setup-database.js:17-18 | definition: the pieces between separators, one more piece than separators |
| JsString.Join | backend/src/setup-database.js:20 | definition: the pieces with the separator between them |
| JsString.TrimIsMaximalSlice | backend/src/setup-database.js:20 | `trim()` returns a slice of its input with only white space cut off on either side, and it neither starts nor ends with white space |
| JsString.TrimOfWhiteSpace | backend/src/setup-database.js:20 | a string made of white space trims to the empty string |
| JsString.TrimOfTrimmed | backend/src/setup-database.js:20 | a string with no white space at its ends is left as it is |
| JsString.TrimIdempotent | backend/src/setup-database.js:20 | trimming twice is trimming once |
| JsString.JoinSplit | backend/src/setup-database.js:18-20 | joining the pieces of `split(c)` with `c` gives back the string |
| JsString.SplitPiecesAvoidSeparator | backend/src/setup-database.js:18 | no piece of `split(c)` contains `c` |
| JsString.SplitAtFirst | backend/src/setup-database.js:18 | splitting `k + c + v`, where `k` has no `c`, gives `k` followed by the pieces of `v` |
| JsString.SplitWithoutSeparator | backend/src/setup-database.js:18 | a string without the separator splits into itself alone |
| JsString.SplitFirstPiece | backend/src/setup-database.js:18-19 | the first piece is the longest prefix without the separator, ending at the string's end or at a separator |
| JsValue.Or | backend/src/main.js:70 | definition: JavaScript's or-operator with a default: the left operand when truthy, else the default |
| JsValue.ParseIntString | frontend/script.js:179 | definition: `parseInt` of a string: leading white space, an optional sign, then `0x` hex or decimal digits |
| JsValue.ParseInt | frontend/script.js:294 | definition: `parseInt` of a stored value; an integer is itself, text is parsed, anything else is NaN |
| JsValue.StringToNumber | backend/src/main.js:82 | definition: `Number` of a string in its integer forms: trimmed, empty is 0, a `0x`, `0o` or `0b` literal in base 16, 8 or 2, or signed decimal |
| JsValue.Less | backend/src/main.js:82 | definition: JavaScript's `<`: two strings compare as text, otherwise both become numbers and NaN compares false |
| JsValue.ParseIntSkipsWhiteSpace | frontend/script.js:179 | `parseInt` ignores leading white space before a digit |
| JsValue.ParseUnsignedOfDigits | frontend/script.js:179 | `parseInt` reads a run of decimal digits and stops at the first non-digit |
| JsValue.ParseIntOfPaddedDecimal | frontend/script.js:179 | `parseInt` of the digits of `n`, with leading blanks and trailing text that cannot continue the number, is `n` |
| JsValue.StringToNumberOfDecimal | backend/src/main.js:82 | `Number` of the digits of `n` surrounded by white space is `n`, as `<` converts a string |
| JsValue.StringToNumberOfPrefixed | backend/src/main.js:82 | `Number` of a `0x`, `0o` or `0b` literal (either case) surrounded by white space is the value of its digits in base 16, 8 or 2 |
| JsValue.StringToNumberOfBinary | backend/src/main.js:82 | `Number("0b11")` is 3, so a quantity sent as that text compares as 3 |
| JsValue.UndefinedIsIncomparable | backend/src/main.js:82 | `undefined < v` and `v < undefined` are both false |
| EnvFile.LoadEnv | backend/src/setup-database.js:17-22 | the loop leaves exactly the environment obtained by applying the file's lines in order |
| EnvFile.ParseLine | backend/src/setup-database.js:18-20 | definition: the first `=`-piece untrimmed must be non-empty and not start with `#`; then the name is that piece trimmed and the value the other pieces joined with `=` and trimmed |
| EnvFile.ApplyLine | backend/src/setup-database.js:17-22 | definition: one line's assignment to the environment; a name that trims to the empty string is refused by the process environment and changes nothing |
| EnvFile.ApplyLines | backend/src/setup-database.js:17-22 | definition: the lines applied in file order |
| EnvFile.ParseLineAssignsIff | backend/src/setup-database.js:19 | a line yields a name and a value iff it is non-empty and starts neither with `=` (empty name) nor with `#` (comment) |
| EnvFile.ValueIsRestOfLine | backend/src/setup-database.js:18-20 | for `k=v` with no `=` in `k`, the name is `trim(k)` and the value `trim(v)`, with any `=` inside `v` kept |
| EnvFile.LineWithoutEquals | backend/src/setup-database.js:18-20 | a non-empty, non-comment line without `=` sets its trimmed text to the empty string |
| EnvFile.BlankNameAssignsNothing | backend/src/setup-database.js:19-20 | a name of blanks passes the test, which is made before trimming, so the line yields the empty name; the environment refuses it and the line changes nothing |
| EnvFile.ApplyLineAt | backend/src/setup-database.js:20 | one line sets a name when it assigns that name, and otherwise leaves it as it was, present or absent |
| EnvFile.ApplyLinesAppend | backend/src/setup-database.js:17-22 | applying two blocks of lines is applying the first and then the second |
| EnvFile.ApplyLinesLastWins | backend/src/setup-database.js:17-22 | a non-empty variable name ends with the value of the last line that assigns it; a name no line assigns (the empty name included) keeps its old value, or stays absent |
| BackendStore.IndexOf | backend/src/main.js:68 | the position of the first product with the id, or none exactly when no product has it |
| BackendStore.GetProduct | backend/src/main.js:68 | the in-memory stand-in for `getDocument` succeeds iff some product's id is the requested string id, and otherwise fails with not-found |
| BackendStore.SetQuantity | backend/src/main.js:69-71 | `updateDocument` fails iff the id is unknown; otherwise it changes only that product's quantity |
| BackendStore.Stock | backend/src/main.js:70 | definition: the stock the handlers compute with, the quantity or 0 when it is null |
| BackendStore.ProductDoc | backend/src/main.js:29-30 | definition: the stored document of a product, its attributes with `$id` and `quantity` (null when unset) |
| BackendStore.IsValidMovement | backend/src/setup-database.js:59-62 | definition: a movement needs a string `productId` and an integer `quantity` |
| BackendStore.NewProduct | backend/src/main.js:36-41 | creating a product fails on an id in use or without an integer quantity; otherwise the product has the given id and quantity, and its stored document is the body with `$id` set to the new id |
| BackendStore.ProductDocs | backend/src/main.js:29-30 | the listing has one document per product, in order |
| BackendStore.Database.ListProducts | backend/src/main.js:29 | lists exactly the stored products |
| BackendStore.Database.ListMovements | backend/src/main.js:47 | lists exactly the logged movements |
| BackendStore.Database.GetDocument | backend/src/main.js:68 | the search loop returns what `GetProduct` specifies |
| BackendStore.Database.CreateMovement | backend/src/setup-database.js:59-62 | a movement with a string product id and an integer quantity is appended to the log and returned; any other is refused and nothing changes |
| BackendStore.Database.UpdateQuantity | backend/src/main.js:69-71 | the products become what `SetQuantity` gives; the log is untouched and ids stay unique |
| BackendStore.Database.CreateProduct | backend/src/main.js:36-41 | a created product is appended, and ids stay unique |
| BackendStats.TotalStock | backend/src/main.js:113 | definition: the sum over the products of the quantity, 0 when null |
| BackendStats.IsLowStock | backend/src/main.js:114 | definition: `quantity < 10` with JavaScript's `<` on the stored quantity value |
| BackendStats.MadeOn | backend/src/main.js:115-122 | definition: a movement of the given type whose `createdAt` falls on the given day |
| BackendStats.ComputeStats | backend/src/main.js:111-123 | definition: the five figures from the two collections and today's day |
| BackendStats.LowStockCount | backend/src/main.js:114 | the low-stock count is at most the number of products |
| BackendStats.CountMadeOn | backend/src/main.js:115-122 | a daily count is at most the number of movements |
| BackendStats.IsLowStockIff | backend/src/main.js:114 | `quantity < 10`, with JavaScript's comparison of a number or null, holds iff the stock is below 10 |
| BackendStats.StatsOfEmpty | backend/src/main.js:111-123 | empty collections give all five figures zero |
| BackendStats.TotalStockSplit | backend/src/main.js:113 | the total stock of two lists of products is the sum of their totals |
| BackendStats.TotalStockUpdate | backend/src/main.js:113 | changing one product changes the total by the difference in its stock |
| BackendStats.LowStockCountZero | backend/src/main.js:114 | no product is counted low iff every product holds at least 10 |
| BackendStats.TodayCountsBounded | backend/src/main.js:115-122 | today's inbound plus today's outbound count is at most the number of movements |
| BackendStats.CountMadeOnZero | backend/src/main.js:115-122 | a daily count is zero iff no movement of that type is stamped with today's day |
| BackendHandler.RouteOf | backend/src/main.js:27-129 | definition: the chain of path and method tests, first match wins, anything else the information response |
| BackendHandler.AddProductStep | backend/src/main.js:33-43 | definition: the product is created with the new id and returned, or the database's refusal answers 500 |
| BackendHandler.InboundStep | backend/src/main.js:51-74 | definition: the movement is written first, then the product is looked up and its quantity raised by the requested quantity |
| BackendHandler.OutboundStep | backend/src/main.js:76-104 | definition: the product is looked up and compared with the request by `<` before anything is written; then the movement is logged and the quantity lowered |
| BackendHandler.Step | backend/src/main.js:20-135 | definition: one request's new collections and response, by route; a body that is not an object answers 500 |
| BackendHandler.MovementOf | backend/src/main.js:60-64 | the logged movement has every field of the body, except that `type` and `createdAt` are set by the handler |
| BackendHandler.RoutedPairs | backend/src/main.js:27-129 | a request is routed to a handler iff its path and method are one of the six pairs; all others get the information response |
| BackendHandler.ReadsWriteNothing | backend/src/main.js:129 | the listings, the statistics and the information response leave both collections unchanged; the information object lists `/products`, `/movements`, `/stats` |
| BackendHandler.OutboundRefusal | backend/src/main.js:81-84 | with an integer quantity, an outbound request gets 400 iff the product exists and its stock is below the quantity; a refused request writes nothing |
| BackendHandler.OutboundAccepted | backend/src/main.js:86-103 | an accepted outbound request appends one movement typed `outbound` and sets that product's quantity to old − requested, which is ≥ 0; other products are unchanged |
| BackendHandler.InboundAccepted | backend/src/main.js:53-73 | an inbound request for a known product appends one movement typed `inbound` and stamped now, and sets that product's quantity to old (null as 0) + requested |
| BackendHandler.InboundUnknownProduct | backend/src/main.js:56-68 | an inbound request for an unknown product still appends its movement, changes no product, and answers 500 |
| BackendHandler.MalformedMovementWritesNothing | backend/src/main.js:56-65 | a body without a string product id or an integer quantity writes nothing on either route |
| BackendHandler.HandleAddProduct | backend/src/main.js:33-43 | performs `POST /products` as `AddProductStep` states |
| BackendHandler.HandleInbound | backend/src/main.js:51-74 | performs the three database calls of an inbound request in order, with the effect `InboundStep` states |
| BackendHandler.HandleOutbound | backend/src/main.js:76-104 | performs the check and the two writes of an outbound request in order, with the effect `OutboundStep` states |
| BackendHandler.Handle | backend/src/main.js:20-135 | the handler's new store and response are those `Step` gives, and ids stay unique |
| BackendLedger.NetAppend | backend/src/main.js:56-65 | the net of a log that is two logs joined is the sum of their nets |
| BackendLedger.StepExtends | backend/src/main.js:20-135 | every request keeps ids unique, keeps every product at its position, and only appends to the log |
| BackendLedger.InboundKeepsBalance | backend/src/main.js:56-71 | after an inbound request a product's stock still equals the net of its logged movements |
| BackendLedger.OutboundKeepsBalance | backend/src/main.js:81-101 | after an outbound request a product's stock still equals the net of its logged movements |
| BackendLedger.StepKeepsBalance | backend/src/main.js:20-135 | every admissible request keeps stock equal to inbound minus outbound logged quantities |
| BackendLedger.OutboundKeepsNonNegative | backend/src/main.js:82-100 | an outbound request never leaves a stock below zero |
| BackendLedger.InboundKeepsNonNegative | backend/src/main.js:70 | an inbound request of a non-negative quantity never leaves a stock below zero |
| BackendLedger.StepKeepsNonNegative | backend/src/main.js:20-135 | every admissible request keeps stocks non-negative |
| BackendLedger.RunKeepsInvariant | backend/src/main.js:20-135 | any sequence of admissible requests keeps ids unique, stocks balanced against the log and non-negative |
| BackendLedger.StockFollowsLedger | backend/src/main.js:70-100 | a product that starts at 0 ends, after any admissible sequence of requests, with stock = inbound − accepted outbound quantities logged for it, and never negative |
| BackendLedger.InboundStatistics | backend/src/main.js:111-122 | an accepted inbound request raises total stock by its quantity and today's inbound count by one |
| BackendLedger.OutboundStatistics | backend/src/main.js:111-122 | an accepted outbound request lowers total stock by its quantity and raises today's outbound count by one |
| BackendLedger.OutboundThenInboundExample | backend/src/main.js:76-104 | from 5, taking 3 leaves 2, a second 3 is refused with nothing changed, bringing 10 gives 12, and two movements are logged |
| Dashboard.StockOf | frontend/script.js:179 | definition: `parseInt(p.quantity)` for one product, 0 when that is NaN or 0 |
| Dashboard.TotalStock | frontend/script.js:179 | definition: the sum of `StockOf` over the products |
| Dashboard.IsLowStock | frontend/script.js:180 | definition: `p.quantity` below `p.min_stock`, or below 10 when `min_stock` is falsy, with JavaScript's `<` |
| Dashboard.DashboardFigures | frontend/script.js:175-188 | definition: the four figures the dashboard shows |
| Dashboard.LowStockCount | frontend/script.js:180 | the alert count is at most the number of products |
| Dashboard.CountOfType | frontend/script.js:186-187 | a type count is at most the number of movements |
| Dashboard.TotalStockSplit | frontend/script.js:179 | the dashboard total of two lists is the sum of their totals |
| Dashboard.TotalStockUpdate | frontend/script.js:179 | replacing one product changes the total by the difference of what the two contribute |
| Dashboard.UnparsableQuantityCountsZero | frontend/script.js:179 | a missing, null or date quantity adds 0 to the total |
| Dashboard.QuantityTextCounts | frontend/script.js:179 | a quantity held as text adds the number its leading digits spell |
| Dashboard.LowStockByDefault | frontend/script.js:180 | with no usable `min_stock` (missing, zero, empty), an integer quantity is low iff it is below 10 |
| Dashboard.LowStockByMinimum | frontend/script.js:180 | with a non-zero integer `min_stock`, an integer quantity is low iff it is below that minimum |
| Dashboard.NoAlertsIff | frontend/script.js:180 | the alert count is zero iff no product is low |
| Dashboard.AllTimeCountsCoverToday | frontend/script.js:182-187 | with no date filter, the dashboard's counts are never below the backend's count for any one day |
| Dashboard.TypeCountsBounded | frontend/script.js:186-187 | the inbound count plus the outbound count is at most the number of movements |
| Dashboard.FiguresOfEmpty | frontend/script.js:175-188 | empty lists give all four figures zero |
| FrontendServices.Documents | frontend/script.js:133-146 | definition: the list under the `wms_` key in demo mode, the collection otherwise, the empty list when absent |
| FrontendServices.CreateStep | frontend/script.js:148-169 | definition: demo mode appends the new document to the stored list; the database appends to an existing collection and refuses an unknown one |
| FrontendServices.InboundData | frontend/script.js:281-287 | definition: the movement document the inbound form records |
| FrontendServices.SubmitStep | frontend/script.js:269-309 | definition: no product chosen does nothing; otherwise the movement is recorded, then the found product is raised, or the missing product stops the handler |
| FrontendServices.RaiseStep | frontend/script.js:293-303 | definition: demo mode writes back the list with the parsed old quantity (0 for NaN) + qty; the database gets the old quantity (0 when falsy) + qty |
| FrontendServices.NewDemoDoc | frontend/script.js:151 | the stored document has every field of `data`; a `$id` in `data` overrides the generated one; `$createdAt` is always the store's stamp |
| FrontendServices.FindById | frontend/script.js:279 | the position of the first product whose `$id` is the chosen id, or none exactly when no product has it |
| FrontendServices.StorageKeyInjective | frontend/script.js:135 | distinct collections are stored under distinct `wms_` keys |
| FrontendServices.DemoCreateAppends | frontend/script.js:149-154 | demo creation succeeds and appends exactly the new document, so the list grows by one with its earlier documents unchanged; other lists and the database are untouched |
| FrontendServices.ServerCreate | frontend/script.js:156-167 | creation in the database succeeds iff the collection exists, and then appends exactly the new document; local storage is untouched |
| FrontendServices.SubmitWithoutProduct | frontend/script.js:274 | submitting with no product chosen changes nothing |
| FrontendServices.InboundDataFields | frontend/script.js:281-287 | the recorded movement is typed `inbound`, status `completed`, has the chosen product id and the quantity, and takes `productName` from the product, or `Unknown` without one |
| FrontendServices.DemoSubmitRecorded | frontend/script.js:278-296 | a demo submission for an existing product appends the movement and sets that product's quantity to `parseInt` of old (or 0) + qty, other products unchanged |
| FrontendServices.DemoSubmitTotal | frontend/script.js:294 | after a demo submission the dashboard total rises by exactly qty |
| FrontendServices.DemoSubmitInboundCount | frontend/script.js:281-287 | after a demo submission the dashboard's inbound count rises by one |
| FrontendServices.DemoSubmitUnknownProduct | frontend/script.js:279-294 | a demo submission for a missing product appends its movement, then fails before any product is written |
| FrontendServices.ModesAgreeOnIntegerQuantity | frontend/script.js:293-303 | for an integer quantity both modes set it to old + qty |
| FrontendServices.DataServices.GetDocuments | frontend/script.js:133-146 | returns the stored list, or the empty list for an absent key or collection |
| FrontendServices.DataServices.CreateDocument | frontend/script.js:148-169 | the new stores and result are those `CreateStep` gives |
| FrontendServices.DataServices.LoadDashboard | frontend/script.js:175-188 | the figures are `DashboardFigures` of the current products and movements |
| FrontendServices.DataServices.SubmitInbound | frontend/script.js:269-309 | the search loop finds the first matching product; the new stores and outcome are those `SubmitStep` gives |
| FrontendServices.DataServices.RaiseQuantity | frontend/script.js:293-303 | the stock update writes what `RaiseStep` gives in either mode |

## Left out

- The database calls of node-appwrite (`listDocuments`, `getDocument`, `createDocument`, `updateDocument`) are foreign network calls. They are replaced by an in-memory store. Its only failures are an unknown id, a refused document and an id already in use. Network failures and the document metadata (`$collectionId`, `$updatedAt`, permissions) are not modelled.
- Schema validation is limited to the attributes the handlers compute with: `productId` and `quantity` of a movement, and `quantity` of a product. The other required attributes, the sizes of string attributes, and the schema defaults are not modelled.
- `listDocuments` returns at most its default page of 25 documents. The model lists the whole collection, so `total` is the full count.
- Requests are handled one at a time. The check-then-act race between simultaneous outbound requests is not modelled.
- Logging (`log`, `error`, `console.error`), `alert`, the DOM, modals and navigation are user interface or output only.
- The `localStorage` JSON round trip is not modelled. Local storage is modelled as a map to already parsed lists. One consequence: a `productName` of `undefined` is not stored rather than stored as `undefined`.
- Numbers are integers. The model does not capture:
  - `price` and other floating-point values;
  - fractions, exponents, `Infinity` and `NaN` text in `Number` (its `0x`, `0o` and `0b` literals are modelled);
  - numbers beyond 2^53.
- A `NaN` quantity from an empty or non-numeric quantity field of the inbound form is not modelled. The form's `qty` is an integer parameter.
- Stored values are integers, strings, dates and null. Booleans, arrays, nested objects and non-integer numbers in a document or request body are not modelled.
- A failed `updateDocument` after the movement was written (`backend/src/main.js:56-71` and `87-101`) would leave the log and the stock diverged. The in-memory store cannot fail that call once the product was found, so the ledger invariant rests on the update always succeeding.
- BackendStore.GetProduct: the in-memory store matches string ids only. `backend/src/main.js:68` and `:81` pass `data.productId` to node-appwrite unchanged, which writes it into the request path as text, so `productId: 5` would find the product with id `"5"`. The model answers such a request as for an unknown product: 500 where the source could answer 400 or 200.
- JsValue.StrLess: compares code points, while JavaScript compares UTF-16 code units. The two orders differ only for characters above U+FFFF.
- JsValue.Less: a date value (`Stamp`) converts to NaN, so every comparison with it is false. JavaScript would compare the date's ISO text with another string.
- JsValue.ParseInt: `parseInt` of a date value is taken as NaN. JavaScript would read the year at the start of its ISO text.
- `toDateString` and the time zone are not modelled. "Today" is the abstract day of the current instant.
- The generation of ids (`ID.unique()`, `Date.now().toString()`) and clock readings are not modelled. Both are parameters.
- The connected-mode `databases.*` calls in the browser are modelled by the same map abstraction as local storage. A failing `listDocuments` is an absent collection, giving the empty list. The server assigns `$id` and `$createdAt` when it creates a document.
- The product and supplier forms, `loadProducts`, `loadInbound`, `populateProductSelect` and `loadOutbound` only render documents or build form data.
- The configuration bootstrap of the page and `frontend/appwrite-config.js` are constants and environment wiring.
- Collection provisioning in `backend/src/setup-database.js` (from line 84) wraps foreign calls, rate-limit delays and 409 handling.
