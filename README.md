# Product registry, modelled in Dafny

This project models the in-memory product API of `server.js`. The process
holds one mutable list of product records, `produtos`. The list starts with
two seed records: id 1 "Camiseta" and id 2 "Caneca". Five route handlers
read and change that list:

- GET `/produtos` lists the records.
- GET `/produtos/:id` fetches one record.
- POST `/produtos` creates a record. Its id is the largest id plus one, or 1 when the list is empty.
- PUT `/produtos/:id` does a partial update.
- DELETE `/produtos/:id` removes a record.

Create and update check the request-body fields `nome`, `preco` and
`descricao`. Each check answers with a fixed status code and error text.

Modules:

- `Wrappers` (`wrappers.dfy`): `Option`. `None` is a body field that is absent (`undefined`).
- `Json` (`json.dfy`): the JSON values a body can carry, plus three pieces of JavaScript semantics the handlers rely on: `typeof`, truthiness, and `String.prototype.trim`. The whitespace set of `trim` is the WhiteSpace and LineTerminator sets of ECMA-262.
- `Products` (`products.dfy`): the record, body and outcome datatypes, and the error texts. It also holds the pure parts of the handlers: the lookups `find`, `findIndex`, `some` and `filter`, id allocation, and the field checks. The lemmas about these are here too.
- `Server` (`registry.dfy`): `class Registry`. Its field `products` is the list. There is one method per handler, and `Valid()` is the collection invariant.
- `Scenarios` (`scenarios.dfy`): request sequences run against a freshly started registry. Each one is proved from the handler contracts alone.

The collection invariant has three parts:

- Ids are positive and pairwise distinct.
- Records appear in increasing id order. Create always appends an id above every id present, and delete only removes records, so this order is never broken.
- Every name is a non-empty string. The seed names are non-empty, create refuses a falsy name, and update refuses a name with no visible character.

Behaviour of the code that the model keeps exactly:

- **Update is not atomic.** Fields are checked and written one at a time, in the order `nome`, `preco`, `descricao`. The first failing field answers 400. Fields written before it stay written. For example, a valid name with a non-numeric price answers with the price error but stores the new name.
- **Create and update check names differently.** Create accepts a name made only of spaces, because nothing trims it. Update rejects such a name, because it checks `nome.trim()`.
- **Create stores `descricao || ''`.** A falsy description (absent, `null`, `false`, `0`, `""`) becomes `""`. Any truthy value is stored as sent, whatever its type, for example a number. That is why `descricao` is a `JsonValue` in the model.
- **Delete filters out every record with the id.** Because ids are unique, that removes exactly the record `findIndex` finds.
- **Ids can be reused.** Deleting the record with the largest id and then creating again hands out that same id.

## Model

| member | source | states |
|---|---|---|
| Json.TypeOf | server.js:60-69 | `typeof` of a body field is `undefined` exactly when the field is absent, and `string`, `number` or `boolean` exactly for a JSON string, number or boolean |
| Json.TrimStart | server.js:107 | the result is the suffix of the input that starts at its first non-whitespace character; everything cut off is whitespace |
| Json.TrimEnd | server.js:107 | the result is the prefix of the input that ends at its last non-whitespace character; everything cut off is whitespace |
| Json.Trim | server.js:107 | `trim()` returns an infix of the input; everything cut off before and after it is whitespace, and it is empty or starts and ends with a non-whitespace character |
| Json.TwoStepTrim | server.js:107 | cutting leading whitespace and then trailing whitespace leaves an infix of the input, with only whitespace around it and non-whitespace at both ends |
| Json.TrimIsEmptyIff | server.js:107 | `s.trim()` is empty exactly when every character of `s` is whitespace |
| Products.Seed | server.js:8-11 | the start-up list has two records, ids 1 and 2, with positive distinct ascending ids and non-empty names |
| Products.FindIndex | server.js:99-103 | `findIndex` gives -1 exactly when no record has the id; otherwise it gives the first index whose record has the id |
| Products.Find | server.js:42-46 | `find` gives nothing exactly when no record has the id; otherwise it gives the record at the `findIndex` position |
| Products.Without | server.js:152 | `filter` returns no more records than it got, exactly the records that were there and whose id differs (each such record is kept), and the list unchanged when no record has the id |
| Products.WithoutDistributes | server.js:152 | `filter` works record by record and keeps order: filtering a concatenation is concatenating the filtered parts |
| Products.MaxId | server.js:72 | `Math.max` over the ids is at least every id and equals one of them |
| Products.NextId | server.js:72 | the new id exceeds every id present, so it is fresh; it is 1 for an empty list, one more than an existing id otherwise, and positive when the ids are |
| Products.CreateNomeInvalid | server.js:60-64 | create rejects `nome` exactly when it is absent, not a string, or the empty string; whitespace-only names pass |
| Products.CreatePrecoInvalid | server.js:65-69 | create rejects `preco` exactly when it is absent or not a number |
| Products.DescricaoOrEmpty | server.js:78 | a falsy description (absent, null, false, 0, empty string) becomes `""`; a truthy one, of whatever type, is stored exactly as sent |
| Products.NewProduct | server.js:72-79 | the appended record gets the id `NextId` allocates (largest id plus one, or 1), which is fresh and positive when the ids are, the name and price exactly as sent, and the defaulted description |
| Products.UpdateNomeInvalidIsTypeofTrim | server.js:106-111 | update's name check, rejecting anything but a string with a non-whitespace character, is the same as `typeof nome !== 'string' \|\| !nome.trim()` |
| Products.UpdatePrecoInvalid | server.js:115-120 | update rejects a supplied `preco` exactly when it is not a number |
| Products.UpdateDescricaoInvalid | server.js:124-129 | update rejects a supplied `descricao` exactly when it is not a string |
| Products.UpdateAnswer | server.js:106-136 | update answers the error of the first failing field in the order nome, preco, descricao, and 200 with the record only when no supplied field fails |
| Products.WithoutRemovesFoundRecord | server.js:146-152 | with distinct ids, filtering out a present id removes exactly the record at its `findIndex` position, keeps the others in order, and shortens the list by one |
| Products.WithoutSingleMatch | server.js:152 | filtering out the id of the only record that has it leaves the records before and after it, joined in order |
| Products.OnlyFoundRecordHasId | server.js:99-103 | with distinct ids, no record before or after the `findIndex` position has the id |
| Products.WithoutKeepsValidIds | server.js:152 | filtering keeps ids positive and distinct |
| Products.WithoutKeepsAscending | server.js:152 | filtering keeps the records in increasing id order |
| Products.AppendFreshKeepsValidIds | server.js:81 | appending a record with a fresh positive id keeps ids positive and distinct |
| Products.AppendAboveKeepsAscending | server.js:81 | appending a record whose id exceeds all present keeps the increasing id order |
| Products.ReplaceSameIdKeepsInvariant | server.js:112-130 | rewriting one record's fields without its id, with a non-empty name, keeps all three parts of the invariant |
| Products.NextIdIsLastPlusOne | server.js:72 | in an id-ordered list the new id is the last record's id plus one |
| Products.NextIdAfterAppend | server.js:72-81 | after appending the record with the allocated id, the next id is that id plus one |
| Server.Registry.constructor | server.js:8-11 | the collection starts as the seed and satisfies the invariant, names included |
| Server.Registry.List | server.js:31-33 | the list route returns the whole collection in order, with positive, distinct, ascending ids and non-empty names |
| Server.Registry.Get | server.js:39-49 | 404 exactly when no record has the id; otherwise 200 with the record at the `findIndex` position; nothing is changed |
| Server.Registry.Create | server.js:57-87 | name error first, then price error, each leaving the list unchanged; otherwise exactly one record, `NewProduct` with the allocated id, is appended at the end and returned; the invariant is kept |
| Server.Registry.Update | server.js:95-137 | 404 and no change for an absent id; otherwise only the found record changes, its id never changes, each field holds its new value exactly when it was written before the first failing check, and the answer is that of UpdateAnswer; the invariant, non-empty names included, is kept |
| Server.Registry.Delete | server.js:143-155 | 404 and no change for an absent id; otherwise 204, the collection is the filtered list, which is the old list without the found index, one shorter, with no record of that id; the invariant is kept |
| Scenarios.ListAfterStart | server.js:8-11 | listing right after start gives exactly the two seed records, ids 1 and 2 |
| Scenarios.CreateThenGet | server.js:72-81 | creating `{nome: "X", preco: 1.5}` yields id 3 with description `""`, and fetching id 3 returns it |
| Scenarios.CreateTwice | server.js:72 | two creates in a row get ids 3 and 4 |
| Scenarios.CreateWithoutPrice | server.js:65-69 | a create without a price answers 400 with the price message and leaves the list unchanged |
| Scenarios.UpdatePriceOnly | server.js:115-122 | updating only the price leaves the name and description as they were |
| Scenarios.UpdateBlankName | server.js:106-111 | an update with a name of three spaces answers 400 and leaves the record unchanged |
| Scenarios.UpdateKeepsNameWhenPriceFails | server.js:106-122 | a valid name with a non-numeric price answers the price error, and the new name is stored anyway |
| Scenarios.AbsentIdOnEveryRoute | server.js:44-45 | fetch, update and delete of an absent id all answer 404 |
| Scenarios.DeleteThenGet | server.js:146-154 | deleting id 1 answers 204, leaves only record 2, and a later fetch of id 1 answers 404 |
| Scenarios.DeleteLastThenCreate | server.js:72 | after the record with the largest id is deleted, the next create reuses that id |

## Left out

- Express app setup, JSON body parsing, response serialisation, and `app.listen` with its log line (server.js:1-6, 157-159). Handlers take already-parsed inputs and return an `Outcome` that names the status code and body.
- The `GET /` description route (server.js:14-25). It returns a constant object and has no logic.
- `Number(req.params.id)`. The path id is an already-parsed integer. A path that does not parse to an integer matches no record, which is the same as any absent id.
- Floating-point semantics of `preco`. A JSON number is a `real`, and NaN and infinities are not modelled. The model never computes on price; it only stores it.
- Bodies that are not JSON objects, and the case where `req.body` is missing altogether. A body is the three optional fields.
- The call-stack limit of `Math.max(...ids)` on very long lists. `MaxId` has no size limit.
- Ids as JavaScript doubles. Ids are modelled as unbounded integers, so the 2^53 precision limit is not captured: past 2^53, `Math.max(...) + 1` at server.js:72 rounds back and would hand out a duplicate id, which the invariant "ids are distinct" does not account for.
- Concurrency. Handlers run to completion one at a time, so `Registry` is a sequential class.
- Response records as live references. Update answers with `produtos[indice]`, which is serialised at once, so the model returns the record's value.
