# PizzaOne ordering: a Dafny model

This project models the pricing and order-handling core of the PizzaOne
pizzeria application. The application has two parts:

- A React client. It has a product catalogue with search, an order form, an
  order drawer, a sales dashboard, and an order service with a local-storage
  fallback.
- An Express server. It prices and stores orders and keeps two CSV logs: the
  active orders (`ativos.csv`) and the finished ones (`historico.csv`).

Each core source file becomes one Dafny module:

| module | source | form |
|---|---|---|
| `Utils` | `src/utils.ts` | The client price estimate and the removed-ingredient note codec, as functions with lemmas. |
| `LegacyUtils` | `utils.ts` | The second copy of the estimate, proved equal to the first. |
| `Database` | `backend/src/database.ts` | The server price `calcularPrecoTotal`, with its size and dessert tables. |
| `Api` | `services/api.ts` | The create payload, the stored-row mapping, and the offline store as a class holding the local list. |
| `Csv` | `backend/src/server.ts` | `csvSafe` and the record encoding, with a reader for section 2 of RFC 4180 that proves the encoding can be read back. |
| `Server` | `backend/src/server.ts` | The POST and DELETE routes as methods of a class that holds the order store (a map from id to row) and the two log files. DELETE rewrites the active log as the code does, line by line; a record-aware rewrite is given beside it (see "## Findings"). |
| `App` | `App.tsx` | The catalogue filter and the screen's order-list handlers, on a class holding the list. |
| `OrderModal` | `src/components/OrderModal.tsx` | The form's state as a class: stepper, ingredient toggles, defaults, edit loading, confirm check and total. |
| `OrderDrawer` | `src/components/OrderDrawer.tsx` | The per-line price and the list total. |
| `StatsDashboard` | `components/StatsDashboard.tsx` | The two grouping loops as a method with invariants; the sort and the top-five cut as functions. |
| `Catalog` | `constants.ts` | The catalogue as constant sequences. |

Three support modules fill in the rest:

- `Common` holds `Option` and list filtering.
- `Strings` holds the JavaScript string operations the code relies on.
- `Types` holds the record shapes.

A further module, `Agreement`, compares the client estimate with the server price.

Prices are exact reals and quantities are integers. A value JavaScript may
leave `undefined` is an `Option`. The `||`, `??` and `String(...)` idioms are
written out where the code uses them.

The server and the client do not agree on prices:

- The client multiplies the base price by a size factor.
- The server looks a price up by size or by dessert name, and charges a flat price for every drink.

`Agreement` proves that both sides agree on the catalogue desserts and on a Média
pizza priced 40. It gives counterexamples for pizzas and drinks:

- Two large Calabresas with a filled crust cost 106 on the client and 110 on the server.
- A can of Coca-Cola costs 6 on the client and 8 on the server.

Some things the design assumes but the code does not do:

- The form sends the CPF as `cpfNota`, but the create payload in `services/api.ts` has no `cpfNota` field. `Api.Body` therefore sends no CPF, following the code.
- The server keeps the total it computed itself and ignores any price the client sends.

## Model

| member | source | states |
|---|---|---|
| Utils.PizzaPrice | src/utils.ts:19-31 | a pizza costs (base · size factor + 5 if the crust is Recheada) · quantity |
| Utils.PizzaDefaultSize | src/utils.ts:21-25 | Média, or any size other than Pequena/Grande/Família, with a crust other than Recheada costs base · quantity |
| Utils.PizzaSizeScaling | src/utils.ts:22-24 | Pequena, Grande and Família scale the unit price by 0.8, 1.2 and 1.4 |
| Utils.FilledCrustPerUnit | src/utils.ts:25-31 | the Recheada surcharge is 5 per unit, added after the size factor and before the quantity |
| Utils.DrinkPrice | src/utils.ts:27-31 | a Grande drink costs base · 1.5 · quantity, any other size base · quantity, whatever the crust |
| Utils.PlainCategoryPrice | src/utils.ts:19-31 | desserts and unknown categories cost base · quantity whatever the size or crust |
| Utils.PriceLinearInQuantity | src/utils.ts:31 | the estimate is the quantity times the one-unit estimate; quantity 0 costs 0 |
| Utils.PizzaSizeFactor | src/utils.ts:22-24 | every size factor is positive |
| Utils.FormatIngredientsToExtra | src/utils.ts:43-46 | no note exactly for an empty list; otherwise "Sem: " followed by the names joined by ", " |
| Utils.ParseExtraToIngredients | src/utils.ts:37-40 | a missing note or one without the "Sem: " prefix gives no names; a prefixed note gives at least one |
| Utils.ParsePrefixed | src/utils.ts:37-40 | a note "Sem: " + j parses as the pieces of j between commas, each trimmed |
| Utils.SplitJoined | src/utils.ts:39 | splitting a ", "-joined list at commas gives the first name, then the others with one leading space each |
| Utils.TrimAllSpaced | src/utils.ts:39 | trimming pieces that each start with one added space gives the trimmed originals |
| Utils.TrimAllTrimmed | src/utils.ts:39 | trimming already trimmed names leaves them unchanged |
| Utils.TrimSplitJoined | src/utils.ts:39-45 | splitting a ", "-joined list of trimmed, comma-free names at commas and trimming gives back the list |
| Utils.ParseFormatRoundTrip | src/utils.ts:37-46 | parsing a formatted note gives back every list of trimmed, comma-free names |
| LegacyUtils.AgreesWithUtils | utils.ts:11-35 | the second copy of the estimate equals the first on every input |
| LegacyUtils.LegacyModifiers | utils.ts:21-34 | the second copy has the same size factors, surcharge and plain-category rule |
| Database.PriceDecomposition | backend/src/database.ts:237-258 | the server total is the pizza part + crust part + drink part + dessert part + extra, each computed on its own |
| Database.NoZeroEntries | backend/src/database.ts:228-235 | no table entry is 0, so the `\|\| fallback` lookups only fall back for a missing key |
| Database.PizzaSizeTable | backend/src/database.ts:229-242 | a positive pizza quantity costs 30/40/50/60 per pizza for Pequena/Média/Grande/Família, and 40 for any other size |
| Database.DessertTable | backend/src/database.ts:232-253 | each of the five desserts costs its table price, and any other name (N/A included) costs 10 |
| Database.EmptyOrderIsFree | backend/src/database.ts:237-258 | no positive quantity and no extra price give a total of 0 |
| Database.ExtraIsFlat | backend/src/database.ts:256 | an extra price raises the total by exactly itself |
| Database.TotalNonNegative | backend/src/database.ts:237-258 | a non-negative extra price gives a non-negative total |
| Catalog.CatalogLayout | constants.ts:3-34 | CATALOGO is the 14 pizzas, then the 5 desserts, then the 3 drinks (22 products) |
| Catalog.PizzasArePizzas | constants.ts:3-18 | every product in PIZZAS has the pizza category |
| Catalog.DessertsAreDesserts | constants.ts:20-26 | every product in SOBREMESAS has the dessert category |
| Catalog.DrinksAreDrinks | constants.ts:28-32 | every product in BEBIDAS has the drink category |
| Catalog.CatalogIdsDistinct | constants.ts:4-31 | no two products of the catalogue share an id |
| Catalog.CatalogPricesPositive | constants.ts:4-31 | every product has a positive price |
| Types.CategoryName | src/types.ts:3 | a category is written as 'pizza', 'sobremesa' or 'bebida' |
| Types.CategoryNameInjective | src/types.ts:3 | distinct categories have distinct names |
| Agreement.DessertTableMatchesCatalog | backend/src/database.ts:232-234 | the server's dessert table holds the catalogue price of every catalogue dessert |
| Agreement.DessertPricesAgree | constants.ts:20-26 | for a catalogue dessert, the client estimate equals the total the server saves, price · quantity |
| Agreement.TabledDessertAgrees | backend/src/database.ts:251-254 | any dessert whose client price is its entry in the server's table gets the same total on both sides, price · quantity |
| Agreement.DessertInput | services/api.ts:77-111 | a named dessert reaches the server's pricing with no pizza, no drink, a zero extra price and its own name and quantity |
| Agreement.MediumPizzaAtFortyAgrees | backend/src/database.ts:239-245 | a Média pizza with an ordinary crust and base price 40 costs the same on both sides |
| Agreement.CalabresaDisagrees | constants.ts:8 | two Grande Recheada Calabresas: the client estimates 106, the server saves 110 |
| Agreement.DrinkDisagrees | constants.ts:29 | one Coca-Cola Lata: the client estimates 6, the server saves 8 |
| Api.CreatePayload | services/api.ts:77-111 | the order's category slot holds its name and quantity, every other slot 'N/A' and 0; the crust is filled exactly for a Recheada pizza; the size is sent only for a pizza; the note is the formatted removed list; the extra price is 0; the customer fields are copied |
| Api.Body | services/api.ts:121-126 | the posted body carries no total, id, time or CPF |
| Api.FirstFilled | services/api.ts:16-31 | the category found has a filled slot and no category listed before it has one; when none is found, no listed slot is filled |
| Api.ReadLineByPriority | services/api.ts:10-31 | a row reads as its first filled slot in the order pizza, dessert, drink, with that slot's name and quantity; with no filled slot it reads as an unknown Média pizza of quantity 1 |
| Api.MapBackendOrder | services/api.ts:9-49 | the row is read as the category, name, quantity and size of its first filled slot (`ReadLine`); the id, the stored total and the order time are kept; unit price · quantity gives back the stored total (or the unit price is the total when the quantity is 0); the crust is Recheada when the row's crust is filled and Tradicional otherwise; the item id is the backend placeholder; customer, phone, address and payment are copied; no removed ingredients and no CPF |
| Api.MapBackendToFrontend | services/api.ts:8-51 | every row is mapped, with order and length kept |
| Api.OfflineReadsBack | services/api.ts:147-165 | the row stored offline for a named item reads back as that item's category, name, quantity and size |
| Api.OfflineUnitPrice | services/api.ts:113-154 | the offline total divided by the quantity is the client's one-unit estimate |
| Api.OfflineRoundTrip | services/api.ts:139-177 | an order stored offline and read back has the placeholder id and its own category, name and quantity; a pizza keeps its non-empty size and any other item reads as Padrão; the unit price is the client's one-unit estimate |
| Api.OfflineNoteRoundTrip | services/api.ts:93-95 | the stored note gives back the removed ingredients when their names are trimmed and comma-free |
| Api.RemoveRecordSpec | services/api.ts:192 | deleting offline drops every row with that id and keeps every other row in order |
| Api.OfflineStore.CreateOrder | services/api.ts:75-179 | with a reply: the server's id and total, the local list untouched; without one: the row goes to the front of the local list and the order gets the placeholder id and the client estimate |
| Api.OfflineStore.DeleteOrder | services/api.ts:181-198 | a server answer is returned as is; without one, the local list loses the id's rows and the answer is true, or false if no list was ever stored |
| Csv.CsvSafe | backend/src/server.ts:33-36 | a field without comma, quote or line break is written as is; any other field is wrapped in quotes |
| Csv.DoubleQuotesNoQuote | backend/src/server.ts:35 | a field without quotes is left as is |
| Csv.DoubleQuotesCons | backend/src/server.ts:35 | a quote is written twice and any other character once, character by character |
| Csv.ReadQuotedStep | backend/src/server.ts:35 | reading inside quotes takes back one written character at a time |
| Csv.QuoteAllPrefix | backend/src/server.ts:58 | making the first n fields safe is the first n safe fields |
| Csv.QuoteAll | backend/src/server.ts:58 | every field is made safe, position by position |
| Csv.ReadQuotedDoubled | backend/src/server.ts:35 | a field with its quotes doubled, then closed by a quote, reads back as the field |
| Csv.ReadBareExact | backend/src/server.ts:35 | a field that needs no quoting reads back up to the next comma or line break |
| Csv.ReadFieldSafe | backend/src/server.ts:33-36 | every safe field reads back as the original value |
| Csv.ReadRecordEncoded | backend/src/server.ts:38-58 | a record's line reads back as exactly its fields, whatever they contain |
| Csv.ReadRecordsEncoded | backend/src/server.ts:38-58 | the text of several records reads back as those records in order |
| Csv.UndoubleDoubled | backend/src/server.ts:35 | undoubling doubled quotes gives back the field |
| Csv.CsvSafeRoundTrip | backend/src/server.ts:33-36 | stripping the outer quotes of a safe field and undoubling gives back the value |
| Csv.DoubleQuotesAppend | backend/src/server.ts:35 | doubling quotes works piece by piece |
| Csv.DoubleQuotesSingleLine | backend/src/server.ts:35 | doubling quotes adds no line break |
| Csv.SafeFieldSingleLine | backend/src/server.ts:33-36 | a field without a line break stays on one line once made safe |
| Csv.EncodeRecordSingleLine | backend/src/server.ts:58 | a record whose fields hold no line break is written on one line |
| Server.NewRecord | backend/src/server.ts:88-110 | the row gets the store's id and time; a missing or empty name slot is 'N/A' and a present one is stored as sent; a missing size is Média, a present one is kept; quantities, crust and extra price are stored as sent, or 0/false/0 when missing; an empty note is dropped and a non-empty one kept; customer, phone, address, payment and CPF are copied |
| Server.SavedTotalIsServerPrice | backend/src/server.ts:78-109 | the saved total is `calcularPrecoTotal` of the saved row's own fields |
| Server.ClientValuesIgnored | backend/src/server.ts:76-110 | a client-sent total, id or time does not change the saved row |
| Server.PriceText | backend/src/server.ts:55 | a price is written with digits, a minus sign and a decimal point only |
| Server.PriceTextWhole | backend/src/server.ts:55 | a whole price is written as its digits alone |
| Server.PriceTextCents | backend/src/server.ts:55 | a price of zero or more is written as its whole number of cents, with no sign |
| Server.CentsWhole | backend/src/server.ts:55 | n·100 cents is written as the digits of n, with no decimal part |
| Server.EntradaFields | backend/src/server.ts:39-57 | a log line has eighteen fields |
| Server.EntradaToCsv | backend/src/server.ts:38-58 | a log line ends with one line break |
| Server.EntradaCsvRoundTrip | backend/src/server.ts:38-58 | a log line reads back as one record holding its eighteen fields |
| Server.NumberNeedsNoQuoting | backend/src/server.ts:40 | a number's text is never quoted |
| Server.EntradaStartsWithId | backend/src/server.ts:38-58 | a log line starts with the order id, unquoted, and a comma |
| Strings.NatToStringInjective | backend/src/server.ts:40 | different whole numbers are written differently |
| Strings.IntToStringInjective | backend/src/server.ts:159 | different integers are written differently, so an id's text names one id |
| Server.IdPrefix | backend/src/server.ts:159 | a line starting "a," starts with "b," exactly when a = b |
| Server.NumberLineNotBlank | backend/src/server.ts:158 | a line that starts with a number is not blank |
| Server.NumberLineNotQuoted | backend/src/server.ts:159 | a line that starts with a number does not start with a quote |
| Server.IdLineKept | backend/src/server.ts:157-160 | the line filter keeps a line starting with an id and a comma exactly when the id differs |
| Server.ActiveLogEncoded | backend/src/server.ts:113 | the active log is the encoding of its rows' records |
| Server.ReadActiveLog | backend/src/server.ts:113 | reading the active log gives back each row's fields in order |
| Server.FilterRecordsOf | backend/src/server.ts:157-160 | filtering the records by id equals taking the records of the rows with another id |
| Server.JoinedLines | backend/src/server.ts:161 | the lines of a non-empty log, joined by line breaks and ended by one, are the log |
| Server.RewriteActiveAsWritten | backend/src/server.ts:155-162 | the line-by-line rewrite always leaves a file ending with a line break |
| Server.RewriteActive | backend/src/server.ts:155-162 | the record-aware rewrite always leaves a file ending with a line break |
| Server.RewriteActiveLog | backend/src/server.ts:155-162 | the record-aware rewrite of a log of any rows leaves exactly the log of the rows with another id ("\n" when none is left) |
| Server.SplitActiveLog | backend/src/server.ts:157 | a log of single-line rows splits into its lines and one empty piece |
| Server.LineKept | backend/src/server.ts:157-160 | the line filter keeps a single line exactly when its order id differs |
| Server.FilterLines | backend/src/server.ts:157-160 | filtering single lines by id equals taking the lines of the rows with another id |
| Server.EmptyLineDropped | backend/src/server.ts:158 | the empty piece after the last line break is dropped |
| Server.RewriteAsWrittenSingleLine | backend/src/server.ts:155-162 | on rows without line breaks, the rewrite as written gives the same result as the record-aware one |
| Server.SplitFirstPiece | backend/src/server.ts:157 | the first piece of a split starts with the text's first character |
| Server.LetterLineSurvives | backend/src/server.ts:155-162 | a log whose second line starts with a capital letter is never rewritten to a lone line break, whatever the id |
| Server.LetterLineKept | backend/src/server.ts:157-160 | a piece starting with a capital letter passes the line filter for every id |
| Server.NumberSingleLine | backend/src/server.ts:40 | a number's text holds no line break |
| Server.FieldsBeforeAddressSingleLine | backend/src/server.ts:39-50 | the eleven fields before the address are written on one line |
| Server.EncodeAroundField11 | backend/src/server.ts:58 | a line is the first eleven fields, the address field, then the rest, joined by commas |
| Server.TwoLineFieldQuoted | backend/src/server.ts:35 | a two-line address is written quoted, with its line break inside the quotes |
| Server.RecordAtBreak | backend/src/server.ts:58 | a line whose address holds one break splits there into a one-line head and the address's second half plus the rest |
| Server.CutAtBreak | backend/src/server.ts:58 | regrouping a line around the break inside its quoted field |
| Server.ActiveLineAtAddressBreak | backend/src/server.ts:113 | the active line of an order with a two-line address, cut at that break |
| Server.MultilineAddressLeavesFragment | backend/src/server.ts:155-162 | deleting an order with a two-line address: the rewrite as written leaves a fragment, the record-aware rewrite leaves an empty log |
| Server.OrderServer.Post | backend/src/server.ts:74-120 | a failed insert answers 500 and changes nothing; otherwise the row is saved under a fresh id with the server's price, one line is appended to the active log, and the store invariant holds |
| Server.OrderServer.Delete | backend/src/server.ts:147-173 | an unknown id answers 404 and changes nothing; otherwise the row leaves the store, the active log (if it exists) is split at every line break, stripped of blank pieces and of pieces starting with the id, and joined again, and the row with its leaving time is appended to the history |
| App.SearchTerms | App.tsx:54 | every search term is non-empty |
| App.SearchTermsNoSpace | App.tsx:54 | no search term holds a white-space character |
| App.FilteredCatalogSpec | App.tsx:53-71 | a product is shown exactly when its category matches and its text contains every term; the result keeps catalogue order |
| App.FilteredCategory | App.tsx:57-59 | with one category chosen, every product shown is of that category |
| App.BlankSearchHasNoTerms | App.tsx:54 | a blank search has no terms |
| App.BlankSearchKeepsCategory | App.tsx:54-61 | a blank search shows every product of the chosen category |
| App.SameFilter | App.tsx:61 | with no terms the filter is the category test alone |
| App.MoreTermsNarrower | App.tsx:69 | adding terms never shows more products |
| App.RemoveByIdSpec | App.tsx:107 | removing drops every order with that id and keeps the others in order |
| App.UpdateQuantity | App.tsx:117 | the orders with that id take the new quantity; length, ids and every other field are unchanged |
| App.AppState.HandleConfirmOrder | App.tsx:80-99 | while editing only the modal closes; otherwise the new order goes to the front, the modal closes and the drawer opens |
| App.AppState.HandleRemoveOrder | App.tsx:103-112 | only a confirmed, successful delete changes the list, and then by removing that id |
| App.AppState.HandleUpdateQuantity | App.tsx:114-118 | a quantity below 1 changes nothing; otherwise the list is updated for that id |
| OrderModal.ToggleMembership | src/components/OrderModal.tsx:91-95 | a click lists the ingredient exactly when it was not listed before, and every occurrence goes when it was; other names are untouched |
| OrderModal.ToggleAbsentTwice | src/components/OrderModal.tsx:92-94 | clicking an unlisted ingredient twice restores the list exactly |
| OrderModal.ToggleTwiceSameMembers | src/components/OrderModal.tsx:92-94 | clicking any ingredient twice restores which names are listed |
| OrderModal.ToggleTwiceMayReorder | src/components/OrderModal.tsx:92-94 | clicking a listed ingredient twice can move it to the end |
| OrderModal.FilterDistinct | src/components/OrderModal.tsx:93 | removing names from a list without repeats leaves no repeats |
| OrderModal.ToggleDistinct | src/components/OrderModal.tsx:91-95 | a click keeps the removed list free of repeats |
| OrderModal.TargetProduct | src/components/OrderModal.tsx:28-35 | the form is about the chosen product, else one rebuilt from the edited order (its item id, no ingredients), else nothing |
| OrderModal.DefaultSize | src/components/OrderModal.tsx:56 | a new order's size is Padrão exactly for a drink, Média otherwise |
| OrderModal.ModalState.ResetForNewOrder | src/components/OrderModal.tsx:54-60 | quantity 1, default size, Tradicional, nothing removed, empty CPF; customer fields and payment carry over |
| OrderModal.ModalState.LoadForEdit | src/components/OrderModal.tsx:39-52 | every field is copied from the order; an empty crust becomes Tradicional and a missing CPF the empty string |
| OrderModal.ModalState.Decrement | src/components/OrderModal.tsx:136 | the quantity becomes max(1, q − 1), so it is at least 1; nothing else changes |
| OrderModal.ModalState.Increment | src/components/OrderModal.tsx:143 | the quantity becomes q + 1; nothing else changes |
| OrderModal.ModalState.ToggleIngredient | src/components/OrderModal.tsx:91-95 | the removed list is toggled, repeats stay out, nothing else changes |
| OrderModal.ModalState.Confirm | src/components/OrderModal.tsx:67-89 | nothing is sent exactly when name, phone or address is blank; otherwise the draft carries the product's id, name, category and price, the typed values, and the CPF as `cpfNota` |
| OrderModal.ModalState.Total | src/components/OrderModal.tsx:97-103 | the shown total is the quantity times the one-unit estimate for the current choices |
| OrderModal.EditThenConfirm | src/components/OrderModal.tsx:39-89 | loading an order and confirming it gives back its draft, up to the crust and CPF defaults |
| OrderModal.ConfirmedTotal | src/components/OrderModal.tsx:97-103 | the estimate of a confirmed draft is the total the form showed |
| OrderDrawer.GetPrice | src/components/OrderDrawer.tsx:20-26 | the store's total when present, else the client estimate of the line |
| OrderDrawer.TotalRevenueAppend | src/components/OrderDrawer.tsx:28 | the total of two lists laid end to end is the sum of their totals |
| OrderDrawer.TotalRevenueAdd | src/components/OrderDrawer.tsx:28 | no orders total 0; adding an order at either end adds exactly its price |
| OrderDrawer.TotalRevenueSplit | src/components/OrderDrawer.tsx:28 | the total is the total of the lines a filter keeps plus the total of those it drops |
| OrderDrawer.TotalRevenueNonNegative | src/components/OrderDrawer.tsx:28 | lines priced at 0 or more give a total of 0 or more |
| OrderDrawer.BackendPriceIgnoresQuantity | src/components/OrderDrawer.tsx:22-24 | a line with a store total shows that total whatever its quantity |
| StatsDashboard.KeysSpec | components/StatsDashboard.tsx:14-18 | the grouping keys are the keys of the list, each exactly once |
| StatsDashboard.SumForAbsent | components/StatsDashboard.tsx:16-17 | a key that never occurs sums to 0 |
| StatsDashboard.GroupedFor | components/StatsDashboard.tsx:14-18 | one entry per key, holding that key's sum |
| StatsDashboard.GroupedForStep | components/StatsDashboard.tsx:16-17 | one more order adds its amount to the entries' sum exactly when its key is listed |
| StatsDashboard.GroupedTotal | components/StatsDashboard.tsx:14-27 | the entries of a grouping add up to the total of all amounts |
| StatsDashboard.Tally | components/StatsDashboard.tsx:14-18 | the first loop lists each key once in first-appearance order and accumulates, for every listed key, the sum of its amounts |
| StatsDashboard.GroupSum | components/StatsDashboard.tsx:14-27 | the accumulation loop builds one entry per distinct key, in first-appearance order, holding the sum of that key's amounts |
| StatsDashboard.CategoryData | components/StatsDashboard.tsx:14-18 | one entry per category present, each with the units ordered in it, adding up to all units ordered |
| StatsDashboard.RevenueEntries | components/StatsDashboard.tsx:21-27 | one revenue entry per product name, each summing the estimates of that name's orders, adding up to all estimates |
| StatsDashboard.Insert | components/StatsDashboard.tsx:29 | inserting keeps every entry and adds the new one |
| StatsDashboard.InsertSorted | components/StatsDashboard.tsx:29 | inserting into a list sorted largest first keeps it sorted |
| StatsDashboard.SortDesc | components/StatsDashboard.tsx:29 | the sort is a permutation sorted largest first |
| StatsDashboard.TopFiveSpec | components/StatsDashboard.tsx:29 | the cut keeps at most five, a sorted prefix, and nothing dropped earns more than anything kept |
| StatsDashboard.RevenueData | components/StatsDashboard.tsx:21-29 | at most five revenue entries, sorted largest first, each one of the per-name entries |
| StatsDashboard.Dashboard | components/StatsDashboard.tsx:11-29 | no dashboard exactly for an empty list; otherwise both charts |

## Left out

- `formatCurrency` (src/utils.ts:5-10, utils.ts:4-9) is left out. It is pt-BR currency formatting done by the `Intl` library.
- SQL Server access (backend/src/database.ts:1-215) is I/O. The store is a map from id to row with a counter for fresh ids. An identity value used up by a failed insert is not modelled: `Post` leaves the counter as it was.
- The GET route, its `ORDER BY horaPedido DESC`, and the invoice route with `nfeService` are left out: database I/O and a stub.
- Route parameters are integers in the model. `parseInt` of a non-numeric id (which gives NaN) is not modelled.
- Database failures inside DELETE (which answer 500) are not modelled.
- Server.NewRecord: a missing `cliente`, `telefone`, `enderecoEntrega` or `formaPagamento` is stored as the empty string. In the source it stays `undefined`, so the 201 reply omits the key; the model's rows have no absent text fields.
- The file appends cannot fail in the model. The source swallows append errors, so its effect on the response is the same.
- Server.OrderServer.Delete: the history line is written from the stored row as the model holds it. In the source the row comes back from the database, and its `horaPedido` is a `Date`, which `String(...)` writes in its own format.
- Server.PriceText: exact only for whole numbers of cents. JavaScript's shortest round-trip printing of other doubles is not modelled.
- `fetch`, JSON, `localStorage`, `Math.random` and `new Date()` in services/api.ts are parameters: the server reply, the placeholder id and the time. A local list that is present but unreadable is not modelled.
- The online branch of createOrder returns the item without asking the server for the row again. The model follows this.
- React hooks, JSX, the theme, the checkout timer, the loading flags, the recharts drawing and ProductCard are left out: presentation only.
- `handleAddClick` and `handleEditOrder` (App.tsx:74-78, 120-135) only choose what the form shows. Their effect on the form is modelled as `OrderModal.TargetProduct` and `ModalState.LoadForEdit`.
- The form's input setters and the size and crust selectors only assign the chosen value. They are not modelled one by one.
- OrderModal.ModalState.LoadForEdit does not read the legacy `cpf` key (`(editingOrder as any).cpf`). Orders in this model carry only `cpfNota`.
- App.AppState.HandleConfirmOrder takes the created order directly. `api.createOrder` never returns null, so the `if (newOrder)` test always passes.
- In the constant tables and the dashboard accumulators, JavaScript objects can also return inherited keys such as `constructor`. The model uses plain maps, so these keys behave as if absent.
- The model keeps dashboard keys in insertion order. JavaScript lists integer-like keys (a product named "1") first, in numeric order; this is not modelled.
- StatsDashboard.SortDesc: stable by construction, like `Array.prototype.sort`, but stability is not stated as a property.
- StatsDashboard: quantities are summed as reals, as JavaScript numbers.
- Floating point and the DECIMAL(10,2) column are left out. Prices are exact reals.
- `toLowerCase` is modelled for ASCII letters only, and `trim` and `\s` for a fixed set of white-space characters.
- Concurrent requests are not modelled. Neither is the non-atomic pair of a database write and a CSV write.

## Findings

| source | as written | input that shows it | evidently intended | confidence | as-written member | corrected member |
|---|---|---|---|---|---|---|
| backend/src/server.ts:157-161 | DELETE splits `ativos.csv` at every line break and filters the pieces. But `csvSafe` (line 35) keeps a line break inside a quoted field, and the address comes from a multi-line text area. So one order can take two physical lines, and only the first is recognised by its id. | an order whose `enderecoEntrega` is "Rua A, 10\nBloco B", then DELETE of that order: the line `Bloco B",...` stays in the active log | remove the whole record: read the log record by record, drop the records of that id, write the rest back | high, not executed | Server.RewriteActiveAsWritten, Server.OrderServer.Delete, Server.MultilineAddressLeavesFragment | Server.RewriteActive, Server.RewriteActiveLog |
