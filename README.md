# User management API — a Dafny model of its request pipeline

The service is a small Express CRUD API for one resource, User. This
project models its decision logic and proves properties of it:

- the zod-based input validator, with a create profile and an update profile;
- the user service over the Mongoose users collection, with the
  unique-email index and the `required` paths of the schema;
- the four controllers, each a composition of validate, call the service,
  then send an envelope, pass the error to `next`, or do nothing;
- the error middleware, which classifies any error first-match into an error
  envelope, and the unmatched-route handler.

Layout, one module per source file plus shared types:

| file | module | models |
|---|---|---|
| `wrappers.dfy` | `Wrappers` | Option / Result |
| `js_values.dfy` | `JsValues` | JSON request bodies, zod issues, the error object as the middleware probes it |
| `user_model.dfy` | `UserModel` | `src/models/user.model.ts` |
| `user_validator.dfy` | `UserValidator` | `src/validators/user.validator.ts` |
| `user_service.dfy` | `UserService` | `src/services/user.service.ts` |
| `http.dfy` | `Http` | the response envelope |
| `error_middleware.dfy` | `ErrorMiddleware` | `src/middlewares/error.middleware.ts` |
| `user_controller.dfy` | `UserController` | `src/controllers/user.controller.ts` |

The main modelling choices:

- **Error objects.** A thrown error is a record of optional probe fields:
  `type`, `name`, `code`, `errors`, the keys of `keyValue`, `statusCode` and
  `message`. One object can match several probes, and `Handle` keeps the
  source's order for that case. `Handle` returns `Threw` in two cases where
  the middleware itself would throw a TypeError: a `ZodError` with no
  `errors` list, and a code-11000 error with no `keyValue`.
- **Validator.** zod's `z.object(...).parse` is modelled once, generically,
  over a schema (a list of fields). Every field is checked in schema order,
  one issue per failing field is collected, unknown keys are stripped, and
  the result is `Ok(payload)` or `Err(ZodError)`. zod's email check is the
  parameter `isEmail`.
- **Service and store.** The service is specified by pure step functions:
  `CreateStep`, `GetResult`, `UpdateStep` and `DeleteStep` each give the
  result and the new collection. The class `UserService.UserStore` holds the
  collection as a `map<Id, UserRecord>` and its methods change it in place.
  The store's invariant is that emails are unique and every key is a
  well-formed id. Whether an id string is an ObjectId is Mongoose's rule, so
  it is the abstract `isObjectId`. New ids and the clock are parameters.
- **Controllers.** Each handler is a function of how the awaited service
  call settles, the same way the controller tests mock the service. It
  returns the service call it made, if any, and one outcome: `Respond`,
  `Forward` or `NoResponse`. The `Handle*` methods run each handler against
  a real `UserStore`. `Deliver` joins the handler and the error middleware
  into what the client finally receives.

Facts about the code that the model keeps, some of them easy to miss:

- The validator has no non-empty rule for name, so an empty name passes it.
- On create, Mongoose's `required` check rejects the empty string. The
  client then gets the fallback response: 500 with the ValidationError's
  message (`EmptyNameOnCreateIs500`).
- `findByIdAndUpdate` runs no schema validators, so an update can store an
  empty name.
- age accepts any number: negative and fractional values pass both the
  validator and the schema.
- The duplicate-key message names the first key of `keyValue`.
- The controllers validate `req.body` but pass the original body, not the
  parsed value, to the service (`ServiceGetsOriginalBody`).

## Model

| member | source | states |
|---|---|---|
| `UserValidator.Parse` | src/validators/user.validator.ts:12 | Ok exactly when the body is an object and every schema field accepts it; Ok holds the input's values at the schema keys present and nothing else; a failure is a ZodError with at least one issue |
| `UserValidator.ShapeIssuesEmpty` | src/validators/user.validator.ts:6-10 | the issue list is empty if and only if every field of the schema accepts the payload |
| `UserValidator.FirstIssueIsFirstFailingField` | src/validators/user.validator.ts:6-10 | errors[0] is the issue of the first failing field in schema order (name, email, age) |
| `UserValidator.CreateAcceptsExactly` | src/validators/user.validator.ts:5-13 | the create profile accepts exactly: name a string, email a string passing the email check, age absent or a number |
| `UserValidator.UpdateAcceptsExactly` | src/validators/user.validator.ts:16-24 | the update profile accepts exactly: each present field has its type, and a present email passes the email check |
| `UserValidator.CreateAcceptedIsUpdateAccepted` | src/validators/user.validator.ts:5-24 | every body the create profile accepts, the update profile accepts |
| `UserValidator.UpdateAcceptsEmpty` | src/validators/user.validator.ts:17-21 | the update profile accepts the empty object and returns it unchanged |
| `UserValidator.CreateRejectsBadName` | src/validators/user.validator.ts:7 | a missing or non-string name is rejected, and the first issue is invalid_type on path name with the received type |
| `UserValidator.CreateAcceptsEmptyName` | src/validators/user.validator.ts:7 | an empty-string name is accepted (there is no non-empty rule) |
| `UserValidator.CreateEmailRules` | src/validators/user.validator.ts:8 | with a valid name, a non-string email gives an invalid_type first issue, and a string failing the email check gives an invalid_string issue "Invalid email" |
| `UserValidator.AgeMustBeNumber` | src/validators/user.validator.ts:9 | in both profiles a present non-number age is rejected, and it is the first issue when name and email pass |
| `UserValidator.ParsedKeepsFields` | src/validators/user.validator.ts:23 | on success the parsed name, email and age are present exactly when present in the input, with the input's values |
| `UserValidator.ValidateCreateUserData` | src/validators/user.validator.ts:5-13 | the create profile's parse: a success holds only the keys name, email and age; a failure is a ZodError (CreateAcceptsExactly gives the exact accepted set) |
| `UserValidator.ValidateUpdateUserData` | src/validators/user.validator.ts:16-24 | the update profile's parse: a success holds only the keys name, email and age; a failure is a ZodError (UpdateAcceptsExactly gives the exact accepted set) |
| `UserValidator.ZodError` | src/validators/user.validator.ts:12 | the error parse() throws: no parse-failure type and name ZodError, so the middleware's ZodError branch is the first to match, with the issues in order |
| `UserModel.RequiredNameMessage` | src/models/user.model.ts:6-9 | the ValidationError for a missing name carries Mongoose's message for the required path `name` |
| `UserModel.MissingRequired` | src/models/user.model.ts:6-15 | the required paths that fail: none exactly when name and email are both non-empty, and a path is listed exactly when its value is the empty string |
| `UserModel.ValidationError` | src/models/user.model.ts:6-15 | the error save() raises for failing required paths: name ValidationError, no type, code or status, and a non-empty message, so only the middleware's fallback matches it |
| `UserModel.DuplicateKeyError` | src/models/user.model.ts:13 | the error the unique index raises: code 11000, not a ZodError or parse failure, and the first key of keyValue is the duplicated field |
| `UserModel.CastError` | src/services/user.service.ts:17-29 | the error findById, findByIdAndUpdate and findByIdAndDelete raise for an id that is not an ObjectId: name CastError, no type and no code, so the middleware's CastError branch is the first to match |
| `UserModel.UniqueEmails` | src/models/user.model.ts:11-15 | the unique index as a predicate: no two stored documents share an email; Create/Update/DeleteKeepsInvariant prove every operation keeps it |
| `UserService.EnsureUserExists` | src/services/user.service.ts:5-8 | null becomes HttpException(404, "User not found"); any other value is returned unchanged |
| `UserService.HttpException` | src/services/user.service.ts:6 | the HttpException behind `NotFound`: no type or code, neither a ZodError nor a CastError, so only the middleware's fallback matches it, with the given status and message |
| `UserService.GetResult` | src/services/user.service.ts:16-19 | Ok exactly when the id is well-formed and stored, and then it is that document without __v; otherwise the 404 failure or a CastError, never null |
| `UserService.NewRecord` | src/models/user.model.ts:4-22 | new UserModel(data): the stored name, email and age are the body's, both timestamps are the clock's, and __v is 0; CreateThenGet states what a later get returns |
| `UserService.ApplyUpdate` | src/services/user.service.ts:22-24 | the document findByIdAndUpdate stores: fields present in the body replace the stored ones, absent ones are kept, updatedAt is stamped with the clock; UpdateThenGet states all of this for the returned document and a later get |
| `UserService.CreateStep` | src/services/user.service.ts:10-14 | create succeeds exactly when name and email are non-empty and no stored document has the email; a failure leaves the collection unchanged; a success adds exactly the new id, keeps every other document, and returns the saved document with its id, both timestamps equal to the clock, and __v 0 |
| `UserService.UpdateStep` | src/services/user.service.ts:21-26 | update succeeds exactly when the id is well-formed and stored and no other document holds a new email; a failure leaves the collection unchanged; a success keeps the key set and every other document |
| `UserService.DeleteStep` | src/services/user.service.ts:28-31 | delete succeeds exactly when the id is well-formed and stored, returns that document with __v, and removes exactly it; a failure leaves the collection unchanged |
| `UserService.StoreInvariant` | src/models/user.model.ts:11-15 | unique emails and well-formed keys; it is UserStore's Valid(), and Create/Update/DeleteKeepsInvariant prove each step keeps it |
| `UserService.CreateKeepsInvariant` | src/models/user.model.ts:11-15 | create keeps emails unique and keys well-formed |
| `UserService.UpdateKeepsInvariant` | src/models/user.model.ts:11-15 | update keeps emails unique and keys well-formed |
| `UserService.DeleteKeepsInvariant` | src/models/user.model.ts:11-15 | delete keeps emails unique and keys well-formed |
| `UserService.CreateRejectsDuplicateEmail` | src/models/user.model.ts:13 | creating with an email already stored is the code-11000 error on key email, and the collection is unchanged |
| `UserService.CreateRejectsMissingName` | src/models/user.model.ts:6-9 | creating with an empty name is a ValidationError on path name, and the collection is unchanged |
| `UserService.UpdateRejectsDuplicateEmail` | src/models/user.model.ts:13 | updating to an email another document holds is the code-11000 error, and the collection is unchanged |
| `UserService.CreateAddsExactlyOne` | src/services/user.service.ts:10-14 | a successful create adds exactly the new id and leaves every other document as it was |
| `UserService.CreateThenGet` | src/services/user.service.ts:10-19 | after a create, getUser on the new id returns the same name, email and age, the store's timestamps and no __v |
| `UserService.UpdateThenGet` | src/services/user.service.ts:21-26 | update returns the post-update document, the one getUser returns: present fields replaced, absent ones kept, createdAt kept, updatedAt set to the clock in both the returned and the stored document, other documents untouched |
| `UserService.DeleteThenGet` | src/services/user.service.ts:28-31 | delete returns the removed document with __v, removes only it, and a later getUser on it is the 404 failure |
| `UserService.MissingIdIsNotFound` | src/services/user.service.ts:21-31 | update and delete on a well-formed id that is not stored are the 404 failure and change nothing |
| `UserService.MalformedIdIsCastError` | src/services/user.service.ts:16-31 | get, update and delete on a malformed id are a CastError and change nothing |
| `UserService.UserStore.GetUser` | src/services/user.service.ts:16-19 | returns exactly GetResult of the current collection, and has no modifies clause (reads never change the store) |
| `UserService.UserStore.CreateUser` | src/services/user.service.ts:10-14 | the result and the new collection are CreateStep of the old one; the store invariant is kept |
| `UserService.UserStore.UpdateUser` | src/services/user.service.ts:21-26 | the result and the new collection are UpdateStep of the old one; the store invariant is kept |
| `UserService.UserStore.DeleteUser` | src/services/user.service.ts:28-31 | the result and the new collection are DeleteStep of the old one; the store invariant is kept |
| `ErrorMiddleware.Handle` | src/middlewares/error.middleware.ts:5-69 | first match in the order parse failure, ZodError, 11000, CastError, fallback; recognised errors are 400 and unlogged; only the parse-failure body lacks statusCode; the fallback logs and uses statusCode, or 500 when it is absent or 0, and message, or the default when it is absent or empty; body statusCode equals the HTTP status |
| `ErrorMiddleware.ZodTypeIssueMessage` | src/middlewares/error.middleware.ts:20-31 | a ZodError whose first issue is invalid_type gets "<path[0]> should be a <expected> not <received>" |
| `ErrorMiddleware.ZodOtherIssueMessage` | src/middlewares/error.middleware.ts:32-36 | a ZodError whose first issue has another code gets that issue's own message, and no message when there is no issue |
| `ErrorMiddleware.FallbackKeepsMessage` | src/middlewares/error.middleware.ts:58-68 | an unrecognised error with no status code and a non-empty message gets 500 with that message, logged |
| `ErrorMiddleware.MalformedJsonIs400` | src/middlewares/error.middleware.ts:12-17 | the body-parser's parse failure gets 400 "Bad JSON request body" with no statusCode in the body |
| `ErrorMiddleware.UnhandledRoutes` | src/middlewares/error.middleware.ts:72-81 | always 404, status "error", statusCode 404, message "<method> request to: <originalUrl> not available on this server!" |
| `JsValues.BodyParseError` | src/app.ts:11 | the error express.json() passes on for a body that is not valid JSON: tagged entity.parse.failed whatever the detail, the tag the middleware checks first |
| `ErrorMiddleware.UnhandledPostNope` | src/middlewares/error.middleware.ts:79 | POST /nope gets "POST request to: /nope not available on this server!" |
| `UserController.CreateUser` | src/controllers/user.controller.ts:9-30 | a validation failure is forwarded and the service is not called; otherwise the service gets the original body, and a truthy result gives 201 "User created successfully" without data, a rejection is forwarded, a falsy result gives no response |
| `UserController.GetUser` | src/controllers/user.controller.ts:32-50 | calls getUser(id); a truthy result gives 200 "User details retrieved successfully" with data equal to it, a rejection is forwarded, a falsy result gives no response |
| `UserController.UpdateUser` | src/controllers/user.controller.ts:52-73 | a validation failure is forwarded without a service call; otherwise the service gets the original body, and a truthy result gives 200 "User updated successfully" with data, a rejection is forwarded, a falsy result gives no response |
| `UserController.DeleteUser` | src/controllers/user.controller.ts:75-92 | calls deleteUser(id); a truthy result gives 200 "User deleted successfully" without data, a rejection is forwarded, a falsy result gives no response |
| `UserController.ServiceGetsOriginalBody` | src/controllers/user.controller.ts:11-13 | the validator's parsed value is discarded: the service receives the body with its unknown keys, which differs from the parsed payload |
| `UserController.FromService` | src/services/user.service.ts:5-8 | the real service never resolves to a falsy value |
| `UserController.Deliver` | src/app.ts:23-25 | routes, then unhandledRoutes, then errorMiddleware: a handler's own envelope is what the client gets; a forwarded error gets the middleware's reply when it replies, an error envelope without data, or else the middleware throwing; a request hangs exactly when the controller neither replied nor forwarded |
| `UserController.MissingUserIs404` | src/services/user.service.ts:5-8 | get, update and delete of a well-formed unknown id reach the client as 404 "User not found" |
| `UserController.MalformedIdIs400` | src/middlewares/error.middleware.ts:49-56 | get, delete, and update with a body the update profile accepts, of a malformed id reach the client as 400 "Invalid resource ID" |
| `UserController.DuplicateEmailIs400` | src/middlewares/error.middleware.ts:40-47 | creating a user with a stored email reaches the client as 400 "email already exist" |
| `UserController.ValidCreateIs201` | src/controllers/user.controller.ts:15-24 | a valid create with a new email reaches the client as 201 without data |
| `UserController.BadNameMessage` | src/middlewares/error.middleware.ts:20-31 | a create body with a missing or non-string name reaches the client as 400 "name should be a string not <type>", and the service is not called |
| `UserController.BadEmailMessage` | src/middlewares/error.middleware.ts:32-36 | a create body whose email fails the email check reaches the client as 400 "Invalid email" |
| `UserController.ArrayAgeMessage` | src/tests/user.controller.test.ts:84-92 | an array age makes create and update answer 400 "age should be a number not array" without calling the service |
| `UserController.EmptyNameOnCreateIs500` | src/models/user.model.ts:6-9 | an empty name passes the validator but fails Mongoose's required check, so the client gets 500 with the ValidationError's message |
| `UserController.HandleCreateUser` | src/controllers/user.controller.ts:9-30 | with the real store: the outcome is CreateUser's for what the store returned, never no response; the store changes only if validation passed, and then as CreateStep says |
| `UserController.HandleGetUser` | src/controllers/user.controller.ts:32-50 | with the real store: the outcome is GetUser's for GetResult, never no response |
| `UserController.HandleUpdateUser` | src/controllers/user.controller.ts:52-73 | with the real store: the outcome is UpdateUser's for what the store returned, never no response; the store changes only if validation passed, and then as UpdateStep says |
| `UserController.HandleDeleteUser` | src/controllers/user.controller.ts:75-92 | with the real store: the outcome is DeleteUser's for what the store returned, never no response; the store changes as DeleteStep says |

## Left out

- Logging: the `logger.info` and `logger.error` calls in the controllers are not modelled. The middleware's single `logger.error` call is the `logged` flag of `Handled`. The Winston configuration in `src/utils/customLogger.ts` is not part of this model.
- zod's email regular expression: the abstract parameter `isEmail`. The ZodError's own `message` (a JSON rendering of its issues) is not modelled, because no branch reads it.
- Mongoose's ObjectId cast rule: the abstract `isObjectId`. Casting of ill-typed update or create fields is not modelled. The service methods require the shape the validator guarantees: `IsUserData` for create, `IsUpdateData` for update.
- UserService.GetResult: ids are looked up as the raw URL string. Mongoose casts the id to an ObjectId first, and the cast is many-to-one (24-digit hex is read in either case), so `507F191E810C19729DE860EA` finds the document stored as `507f191e810c19729de860ea`. In the model two spellings of one ObjectId are distinct keys.
- UserService.UpdateStep: the same gap: "not stored" means no key with that exact spelling, so a differently-cased spelling of a stored id is not found in the model.
- UserService.DeleteStep: the same gap: "not stored" means no key with that exact spelling, so a differently-cased spelling of a stored id is not found in the model.
- UserService.MissingIdIsNotFound: the same gap: "not stored" means no key with that exact spelling, so a differently-cased spelling of a stored id is not found in the model.
- UserController.MissingUserIs404: the same gap: "not stored" means no key with that exact spelling, so a differently-cased spelling of a stored id is not found in the model.
- Id generation and clocks: the fresh id and the time are parameters. A body that carries its own `_id` is not modelled.
- UserService.UpdateThenGet: keys of the update body other than name, email and age are not modelled. Mongoose applies update operators such as `$set`, `$unset` and `$inc` from the raw body, so `{"$set": {"email": "x"}}` can store an email zod would reject, and `$unset` can remove a required path. The model ignores such keys.
- UserService.UpdateStep: the same gap: update operator keys in the body are applied by Mongoose and not modelled.
- UserService.ApplyUpdate: the same gap: only the plain name, email and age keys change the stored document.
- UserService.UserStore.UpdateUser: the same gap: its new state follows UpdateStep, which ignores update operator keys.
- UserController.HandleUpdateUser: the same gap: the raw body reaches the store, but its operator keys are not modelled.
- UserService.CreateThenGet: a create body that carries `createdAt`, `updatedAt` or `__v` is not modelled. Mongoose keeps a caller-supplied `createdAt` on a new document, while the model always stamps both timestamps with the clock and sets `__v` to 0.
- UserService.NewRecord: the same gap: timestamp and `__v` keys in the body are ignored.
- UserService.CreateStep: the same gap: timestamp and `__v` keys in the body are ignored.
- UserService.UserStore.CreateUser: the same gap: its new state follows CreateStep.
- UserController.HandleCreateUser: the same gap: the raw body reaches the store, but its timestamp and `__v` keys are not modelled.
- Numbers: a JSON number is an exact real. The rounding of doubles and the `Infinity` that an overflowing literal such as `1e400` parses to (which `z.number()` accepts) are not modelled.
- The database-name prefix in the E11000 message is not modelled. The middleware does not read that message.
- `async`/`await`, request concurrency and the persistence connection: each handler is one sequential call.
- `src/server.ts`, `src/app.ts` and `src/routers/user.router.ts` are not part of this model: environment, listener, cors/helmet wiring, the route table and the welcome route.
- Express's own reply when the error middleware throws is the `MiddlewareThrew` delivery; its HTML body is not modelled.
- Status codes Node would refuse to send (for example a `statusCode` above 999 in the fallback) are not modelled. The response carries the code as given.
- Non-object error values (a thrown string or number) and `HttpException`'s own class are not modelled. `HttpException` is taken to be an `Error` carrying `statusCode` and `message`.
- `UserController.FromService`: states only that the real service never resolves falsy. The other direction of the source's `User | null` type is the subject of `MissingUserIs404`.
