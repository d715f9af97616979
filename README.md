# City/State CRUD core, modelled in Dafny

This project models the core of a small REST API that manages States and the Cities they contain. The core is a generic CRUD engine (`GenericCRUD`) with five operations: insert, update, remove, find by id and find all. Each operation ends in a response envelope (`ApplicationResponse`) carrying `data`, `message` and a status code. Every failure the engine catches goes through one classifier (`generateFailedResponse`). Errors the engine raises itself are `APIError`s, which carry a fixed status code.

Two specialisations build on the engine:

- `StateCRUD` removes a State and then deletes every City that references it. The cascade runs whatever the removal answered.
- `CityCRUD` refuses a write with 409 when some City already matches every submitted field. Its read hooks populate each City's `state` reference.

The document store is modelled as a set of collections. A collection is a sequence of records in natural order. A record is an identifier plus a map from field names to values. Each persistence call (`create`, `updateOne`, `deleteOne`, `deleteMany`, `findById`, `find`, `exists`) is a function over that sequence.

The model has two layers:

- Pure functions give each operation's envelope and the collection it leaves behind. The lemmas are stated over these functions.
- Classes (`Collection`, `ApplicationResponse`, `GenericCRUD`, `StateCRUD`, `CityCRUD`) perform the operations step by step, the way the source does. Each method is proved to agree with its function.

Modules, one per file:

- `HttpStatus`: status codes.
- `ApiErrors`: `APIError`.
- `Documents`: records, lookup, filter, populate.
- `Store`: the persistence calls and the `Collection` class.
- `Envelope`: `ApplicationResponse`.
- `GenericCrud`: the engine and its classifier.
- `StateCrud`: the State specialisation.
- `CityCrud`: the City specialisation.

Some inputs come from outside the code and are parameters:

- `isValid`: mongoose's `ObjectId.isValid`, an uninterpreted identifier check.
- `newId`: the identifier the store generates for a created record. It must be unused.
- `fault`, `cascadeFault`, `existsFault`, `createFault`, `updateFault`: the failure a persistence call ends with, if any. This covers connection failures, non-duplicate `MongoError`s, and cast or validation errors.

## Model

| member | source | states |
|---|---|---|
| `ApiErrors.APIError.GetStatusCode` | error/APIError.js:12-14 | returns the status code the error was built with |
| `ApiErrors.ConstructedAsGiven` | error/APIError.js:4-8 | an error built from a message and a code gives back that code and that message, and its name is "APIError"; being a value, it cannot change afterwards |
| `Envelope.ApplicationResponse.constructor` | helpers/ApplicationResponse.js:1-8 | a fresh envelope holds the given data, message "" and status code 0 |
| `Envelope.ApplicationResponse.SetMessage` | helpers/ApplicationResponse.js:10-12 | changes the message only; data and status code stay |
| `Envelope.ApplicationResponse.SetStatusCode` | helpers/ApplicationResponse.js:14-16 | changes the status code only; data and message stay |
| `Envelope.ApplicationResponse.GetStatusCode` | helpers/ApplicationResponse.js:18-20 | returns the current status code |
| `Envelope.SetThenGet` | helpers/ApplicationResponse.js:14-20 | after `setStatusCode(c)`, and a later `setMessage`, `getStatusCode()` gives `c` and the data is still the constructor's |
| `Documents.Matches` | helpers/CityCRUD.js:15 | the shallow equality filter of `exists` and `deleteMany` holds exactly when the filter's field/value pairs are among the document's |
| `Documents.Lookup` | helpers/GenericCRUD.js:127-129 | finds a record exactly when the identifier is in the collection, and the record found has that identifier |
| `Documents.LookupFinds` | helpers/GenericCRUD.js:127-129 | with distinct identifiers, looking up a record's identifier finds that record |
| `Documents.FilterKeepsDistinct` | helpers/GenericCRUD.js:98 | deleting records never makes two records share an identifier |
| `Documents.Populate` | helpers/CityCRUD.js:39-45 | populating a path keeps the identifier, the field names and every other field; a non-reference is left as it is |
| `Documents.PopulateResolves` | helpers/CityCRUD.js:39-41 | a populated reference is the referenced record itself |
| `Documents.PopulateDangling` | helpers/CityCRUD.js:39-41 | a reference to an identifier that does not exist populates to null |
| `Store.CreateCall` | helpers/GenericCRUD.js:46 | create succeeds exactly when no failure is injected and no unique field collides, and then appends the new record; a collision fails with code 11000 and writes nothing |
| `Store.UpdateOneCall` | helpers/GenericCRUD.js:67 | with no injected failure the call succeeds exactly when the identifier is absent or the patched record collides with no other; the matched count is then 1 when the identifier exists and 0 otherwise, whatever the patch; a collision fails with code 11000; only a successful match applies `$set` |
| `Store.SetFields` | helpers/GenericCRUD.js:67 | `$set` replaces or adds the patched fields of the record with that identifier only; every identifier and every other record stay |
| `Store.DeleteOneCall` | helpers/GenericCRUD.js:98 | the deleted count is 1 or 0; afterwards the identifier is absent, every other record remains and no record is added |
| `Store.DeleteManyCall` | helpers/StateCRUD.js:17 | exactly the records matching the filter are deleted, and the count is how many went |
| `Store.FindByIdCall` | helpers/GenericCRUD.js:128 | finds a record exactly when the identifier is present |
| `Store.FindCall` | helpers/GenericCRUD.js:153 | returns exactly the records whose fields satisfy the filter; when the collection's identifiers are distinct, so are those of the result, so no record comes back twice |
| `Store.ExistsCall` | helpers/CityCRUD.js:15 | true exactly when some record matches every field of the filter |
| `Store.CreateKeepsWellFormed` | models/state.model.js:4-13 | create keeps identifiers distinct and never lets two records share a unique field's value |
| `Store.UpdateOneKeepsWellFormed` | models/state.model.js:4-13 | update keeps identifiers distinct and the unique indexes intact |
| `Store.DeleteOneKeepsWellFormed` | helpers/GenericCRUD.js:98 | deleting one record keeps the store invariant |
| `Store.DeleteManyKeepsWellFormed` | helpers/StateCRUD.js:17 | deleting many records keeps the store invariant |
| `Store.Collection.constructor` | models/state.model.js:4-13 | a new collection is empty, keeps the invariant and has the schema's unique fields |
| `Store.Collection.Create` | helpers/GenericCRUD.js:46 | the collection after the call and the result are those of `CreateCall`; the invariant is kept |
| `Store.Collection.UpdateOne` | helpers/GenericCRUD.js:67 | as `UpdateOneCall`, with the invariant kept |
| `Store.Collection.DeleteOne` | helpers/GenericCRUD.js:98 | as `DeleteOneCall`, with the invariant kept |
| `Store.Collection.DeleteMany` | helpers/StateCRUD.js:17 | as `DeleteManyCall`, with the invariant kept |
| `Store.Collection.FindById` | helpers/GenericCRUD.js:128 | the result is `FindByIdCall`'s on the current records; nothing is written |
| `Store.Collection.Find` | helpers/GenericCRUD.js:153 | the result is `FindCall`'s on the current records; nothing is written |
| `Store.Collection.Exists` | helpers/CityCRUD.js:15 | the result is `ExistsCall`'s on the current records; nothing is written |
| `GenericCrud.SuccessResponse` | helpers/GenericCRUD.js:179-184 | a success envelope carries the document, status 200 and message "" |
| `GenericCrud.FailedResponse` | helpers/GenericCRUD.js:192-208 | the classifier, in order: an APIError gives its own code and message; a MongoError with code 11000 gives 409 "Document already exists"; any other MongoError keeps status 0 and its message, not 500 (helpers/GenericCRUD.js:198-203); anything else gives 500 and its message; data is always undefined |
| `GenericCrud.OnFindDocument` | helpers/GenericCRUD.js:23-25 | the default hook leaves the record unchanged; no hook changes the identifier |
| `GenericCrud.OnFindDocuments` | helpers/GenericCRUD.js:34-36 | the list hook shapes each record as the single-record hook does and keeps the length |
| `GenericCrud.InsertOutcome` | helpers/GenericCRUD.js:44-54 | 200 with the created record, appended to the collection, exactly when the store call neither fails nor collides; otherwise no data and an unchanged collection; a failing store call gives exactly the classifier's envelope for its error |
| `GenericCrud.UpdateOutcome` | helpers/GenericCRUD.js:63-86 | 200 "Document successfully updated" exactly when the id is valid, the store call does not fail, the id exists and the patched record collides with no other; then only the target gets the patch; otherwise the collection is unchanged; for a valid id a failing store call gives exactly the classifier's envelope for its error |
| `GenericCrud.RemoveOutcome` | helpers/GenericCRUD.js:94-116 | 200 "Document successfully removed" exactly when the id is valid, the store call does not fail and the id exists; afterwards the id is absent (or nothing changed) and every other record remains; for a valid id a failing store call gives exactly the classifier's envelope for its error |
| `GenericCrud.FindByIdResponse` | helpers/GenericCRUD.js:124-144 | 200 with the hook-shaped record exactly when the id is valid, the store call does not fail and the record exists; otherwise no data; for a valid id a failing store call gives exactly the classifier's envelope for its error |
| `GenericCrud.GetAllResponse` | helpers/GenericCRUD.js:151-161 | 200 exactly when the store call does not fail, and then the records returned are exactly the ones satisfying the filter, each passed through the read hook, each once when the collection's identifiers are distinct (possibly none); a failing store call gives exactly the classifier's envelope for its error |
| `GenericCrud.InvalidIdIsBadRequest` | helpers/GenericCRUD.js:63-144 | an invalid id gives 400 "Invalid ID" from update, remove and find-by-id, and the collection is unchanged |
| `GenericCrud.MissingIdIsNotFound` | helpers/GenericCRUD.js:63-144 | a valid id that matches nothing gives 404 "Document not found" from update, remove and find-by-id, and the collection is unchanged |
| `GenericCrud.UnchangedPatchSucceeds` | helpers/GenericCRUD.js:67-74 | success is judged on the matched count, so a patch of the record's current values answers 200 and leaves the collection as it was |
| `GenericCrud.InsertThenFind` | helpers/GenericCRUD.js:44-54 | after a successful insert, find-by-id of the new id returns the created record |
| `GenericCrud.UpdateThenFind` | helpers/GenericCRUD.js:63-86 | after a successful update, find-by-id returns the record with the patch applied |
| `GenericCrud.RemoveThenFind` | helpers/GenericCRUD.js:94-116 | after a successful remove, find-by-id and a second remove both answer 404 |
| `GenericCrud.DuplicateInsertConflicts` | helpers/GenericCRUD.js:44-53 | an insert that collides on a unique field answers 409 "Document already exists" and inserts nothing |
| `GenericCrud.UpdateCollisionConflicts` | helpers/GenericCRUD.js:63-86 | an update giving the target a unique field's value that another record holds answers 409 "Document already exists" and writes nothing |
| `GenericCrud.GetAllEmpty` | helpers/GenericCRUD.js:151-161 | find-all on an empty collection answers 200 with the empty list |
| `GenericCrud.StatusCodesAreKnown` | helpers/GenericCRUD.js:192-208 | unless the store fails with a non-duplicate MongoError, update and remove answer 200, 400, 404, 409 or 500 |
| `GenericCrud.GenericCRUD.constructor` | helpers/GenericCRUD.js:12-14 | the engine is bound to the given collection |
| `GenericCrud.GenericCRUD.GenerateSuccessResponse` | helpers/GenericCRUD.js:179-184 | builds, through the setters, a fresh envelope equal to `SuccessResponse` |
| `GenericCrud.GenericCRUD.GenerateFailedResponse` | helpers/GenericCRUD.js:192-208 | builds, through the setters, a fresh envelope equal to the classifier's |
| `GenericCrud.GenericCRUD.Insert` | helpers/GenericCRUD.js:44-54 | the envelope and the collection afterwards are `InsertOutcome`'s |
| `GenericCrud.GenericCRUD.Update` | helpers/GenericCRUD.js:63-86 | the envelope and the collection afterwards are `UpdateOutcome`'s |
| `GenericCrud.GenericCRUD.Remove` | helpers/GenericCRUD.js:94-116 | the envelope and the collection afterwards are `RemoveOutcome`'s |
| `GenericCrud.GenericCRUD.FindById` | helpers/GenericCRUD.js:124-144 | the envelope is `FindByIdResponse`'s; nothing is written |
| `GenericCrud.GenericCRUD.GetAll` | helpers/GenericCRUD.js:151-161 | the envelope is `GetAllResponse`'s; nothing is written |
| `StateCrud.CitiesOf` | helpers/StateCRUD.js:17 | the cascade filter matches exactly the Cities whose `state` is the id |
| `StateCrud.CascadingRemoveOutcome` | helpers/StateCRUD.js:14-19 | the State removal always takes effect; the operation resolves exactly when the cascade does not fail, and then to the generic removal's envelope with exactly the Cities of the id deleted; a failed cascade rejects and leaves the Cities alone |
| `StateCrud.NoCityReferencesRemovedState` | helpers/StateCRUD.js:17 | after a removal that resolves, no City references the id |
| `StateCrud.CascadeRunsOnNotFound` | helpers/StateCRUD.js:15-17 | when the State is not found the answer is 404, and the Cities referencing the id are still deleted |
| `StateCrud.RemoveKeepsTheRest` | helpers/StateCRUD.js:15-17 | every other State and every City of another State remain |
| `StateCrud.RemoveKeepsNoOrphans` | helpers/StateCRUD.js:14-19 | if every City had an existing State before, a removal that resolves leaves no orphan |
| `StateCrud.FailedCascadeLeavesOrphans` | helpers/StateCRUD.js:15-18 | the two writes are not atomic: a removed State whose cascade fails leaves its Cities orphaned, and the operation rejects |
| `StateCrud.DuplicateStateConflicts` | models/state.model.js:4-13 | the inherited insert of a State whose name or abbreviation is taken answers 409 and inserts nothing |
| `StateCrud.StateCRUD.constructor` | helpers/StateCRUD.js:9-11 | the engine is bound to the State collection |
| `StateCrud.StateCRUD.Insert` | helpers/StateCRUD.js:8-11 | the inherited insert, with State's unique fields |
| `StateCrud.StateCRUD.Update` | helpers/StateCRUD.js:8-11 | the inherited update, with State's unique fields |
| `StateCrud.StateCRUD.FindById` | helpers/StateCRUD.js:8-11 | the inherited find-by-id with the default hook |
| `StateCrud.StateCRUD.GetAll` | helpers/StateCRUD.js:8-11 | the inherited find-all with the default hook |
| `StateCrud.StateCRUD.Remove` | helpers/StateCRUD.js:14-19 | the settled result and both collections afterwards are `CascadingRemoveOutcome`'s |
| `CityCrud.PopulateState` | helpers/CityCRUD.js:39-45 | the City read hook turns every record into that record with its `state` path populated from the State collection |
| `CityCrud.CheckedInsertOutcome` | helpers/CityCRUD.js:14-24 | a failing exists call rejects; a match answers 409 without a write; otherwise the result is exactly the generic insert's |
| `CityCrud.CheckedUpdateOutcome` | helpers/CityCRUD.js:26-36 | a failing exists call rejects; a City matching the patch gives 409 without a write; otherwise the result is exactly the generic update's |
| `CityCrud.ConflictIsDuplicateKeyEnvelope` | helpers/CityCRUD.js:17-20 | the pre-write conflict envelope equals the classifier's envelope for a duplicate key |
| `CityCrud.ConflictPrecedesIdValidation` | helpers/CityCRUD.js:26-35 | an invalid id with a patch some City matches gets 409, where the generic update gives 400 |
| `CityCrud.EmptyPatchConflicts` | helpers/CityCRUD.js:27-32 | an empty patch matches every City, so on a non-empty collection it always gets 409 |
| `CityCrud.UnchangedSaveConflicts` | helpers/CityCRUD.js:27-32 | saving a City with values it already has gets 409, where the generic update would answer 200 |
| `CityCrud.InsertKeepsNoTwins` | helpers/CityCRUD.js:14-24 | a City insert never creates a City with the same fields as an existing one |
| `CityCrud.SetFieldsKeepsNoTwins` | helpers/CityCRUD.js:26-35 | applying a patch that no City matches cannot make two Cities identical |
| `CityCrud.UpdateKeepsNoTwins` | helpers/CityCRUD.js:26-36 | a City update never makes two Cities identical |
| `CityCrud.FindByIdPopulatesState` | helpers/CityCRUD.js:39-41 | find-by-id returns the City with its `state` replaced by the State record |
| `CityCrud.GetAllPopulatesEach` | helpers/CityCRUD.js:43-45 | find-all answers 200, each record returned is a matching City with its State populated, and every matching City is returned so populated |
| `CityCrud.CityCRUD.constructor` | helpers/CityCRUD.js:10-12 | the engine is bound to the City collection |
| `CityCrud.CityCRUD.NewConflictResponse` | helpers/CityCRUD.js:17-20 | builds, through the setters, the 409 "Document already exists" envelope with no data |
| `CityCrud.CityCRUD.Insert` | helpers/CityCRUD.js:14-24 | the settled result and the collection afterwards are `CheckedInsertOutcome`'s |
| `CityCrud.CityCRUD.Update` | helpers/CityCRUD.js:26-36 | the settled result and the collection afterwards are `CheckedUpdateOutcome`'s |
| `CityCrud.CityCRUD.Remove` | helpers/CityCRUD.js:9-12 | the inherited remove, with no cascade |
| `CityCrud.CityCRUD.FindById` | helpers/CityCRUD.js:39-41 | find-by-id through the populating hook, read from the current State collection |
| `CityCrud.CityCRUD.GetAll` | helpers/CityCRUD.js:43-45 | find-all through the populating hook |

The classifier follows the code: a `MongoError` whose code is not 11000 leaves the status at 0, not 500 (helpers/GenericCRUD.js:198-203), and `GenericCrud.FailedResponse` does the same.

## Left out

- HTTP routing, controllers, the Express bootstrap, logging and request-body validation are not part of this model. A well-formed body is assumed, so the mongoose validation and cast errors it would prevent only appear as injected failures.
- `mongoose.Types.ObjectId.isValid` is an uninterpreted parameter `isValid`. Its format rule lives in a library outside this model.
- The model does not convert a valid identifier into an `ObjectId` (helpers/GenericCRUD.js:66,97,127, and the cast of `{state: id}` at helpers/StateCRUD.js:17). Identifiers are compared as strings, so two spellings of one ObjectId are different identifiers here: a 12-byte string and its 24-digit hex form, or a hex id in upper and in lower case. Find-by-id, update or remove with the upper-case spelling of a stored lower-case id answers 404 in the model where the source answers as for the stored id, and the cascade misses Cities stored under the other spelling.
- `StateCrud.CascadingRemoveOutcome`: the cast of the cascade filter `{state: id}` is not modelled. For an identifier mongoose cannot cast, `deleteMany` would reject; here that rejection only arises through `cascadeFault`.
- Creation and modification timestamps are not modelled. Neither are the store's own write semantics beyond `$set`, nor its query language (the `$regex` name filter becomes the abstract predicate given to find-all).
- `populate` is modelled for a reference stored as an identifier. The query that loads the referenced State cannot fail on its own: a failure of the find call covers it.
- async/await and concurrency are left out. Each operation runs its store calls one after another, with nothing interleaved. The lack of atomicity between the State removal and the City cascade is kept, and it is stated in `StateCrud.FailedCascadeLeavesOrphans`.
- `StateCrud.DuplicateStateConflicts`: a unique index counts two records as colliding only when both hold the field. Mongo's treatment of missing fields as equal nulls is not modelled, since validation makes name and abbreviation required.
