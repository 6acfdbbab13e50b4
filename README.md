# Customer microservice: a Dafny model

This project models the decision logic of a small Vert.x customer service:

- the `Customer` record (three nullable fields) and its JSON codec;
- the MongoDB-backed `CustomerService` implementation, which turns each store answer into a service result;
- the REST verticle, which turns each service result into an HTTP outcome. It also holds the liveness
  check, the readiness check and the listen-port default.

The store and the HTTP transport are abstracted as inputs:

- Each service operation is split into what it asks of the store (`...Call`, a `StoreCall`) and what
  it hands back once the store has answered (`...Result`).
- Each handler is a function from the service result to an `Outcome`. A handler method drives a mutable
  `Exchange` (the routing context and its response) to exactly that outcome.

Files, one module each:

- `wrappers.dfy`: `Option` (Java null), `Cause` (a Throwable) and `Result` (Vert.x `AsyncResult`).
- `json.dfy`: JSON values. It also has the `JsonObject` getters the record uses: `getString`,
  `getInteger` and `getInteger(key, def)`. `Int32` models `java.lang.Integer`. `getInteger` on a
  wider integral number keeps the low 32 bits, as `Number.intValue()` does.
- `customer.dfy`: the `Customer` value, `FromJson` (the JSON constructor) and `ToJson`. It also has
  the class `CustomerObject`, whose setters update its three fields in place.
- `service.dfy`: `CustomerServiceMongoImpl`, including the private `toDocument`.
- `rest.dfy`: the `RestVerticle` handlers, the loop that builds the JSON array, the health future and
  the port lookup.
- `store.dfy`: an in-memory stand-in for the "customers" collection, used only for end-to-end
  statements. It is an assumption about the foreign store, not a model of MongoDB:
  - `save` upserts by `_id`;
  - `find` answers with the selected documents, one per `_id`, in any order.

  Which documents a query selects is defined in `service.dfy` by `Selects`: a document is selected
  when every query field is present in it with the same value. The contracts of `GetCustomersCall`
  and `GetCustomerCall` use it.
- `scenarios.dfy`: the scenarios of the repository's tests, stated as lemmas.

Some members are assumed models of Vert.x library calls and have no row below:
`Exchange.PutHeader`, `SetStatusCode`, `End` and `FailRequest`, and `HealthFuture.Complete` and `Fail`.
Their preconditions (`ended.None?`, `!IsComplete()`) stand for the `IllegalStateException` the
library throws when a response is already ended or a future already completed.

Behaviours of the code worth noting:

- Every field is nullable, `customerId` included. Nothing is validated.
- `getCustomers` keeps the order of the store's answer. The model makes no claim about what that order is.
- `addCustomer` passes the store's `save` answer through unchanged. That answer may be null (the tests
  answer with null), so it is a `Result<Option<string>>`.
- `getInteger("customer.http.port", 8080)` falls back to 8080 only when the key is absent. An explicit
  null stays null: `ListenPort` gives `None`.

## Model

| member | source | states |
|---|---|---|
| `Json.IntValue` | src/main/java/com/redhat/rhoar/customer/model/Customer.java:35 | `intValue()` of the stored number: congruent to it modulo 2^32, and the number itself when it fits in 32 bits |
| `Json.GetString` | src/main/java/com/redhat/rhoar/customer/model/Customer.java:33-34 | null exactly when the key is missing or holds null; otherwise the stored string |
| `Json.GetInteger` | src/main/java/com/redhat/rhoar/customer/model/Customer.java:35 | null exactly when the key is missing or holds null; otherwise the stored integer taken to 32 bits |
| `Json.GetIntegerOr` | src/main/java/com/redhat/rhoar/customer/server/RestVerticle.java:65 | the default when the key is absent, otherwise what `getInteger` gives |
| `Json.StringValue` | src/main/java/com/redhat/rhoar/customer/model/Customer.java:53-54 | a null string is stored as JSON null, any other as that string |
| `Json.IntegerValue` | src/main/java/com/redhat/rhoar/customer/model/Customer.java:55 | a null Integer is stored as JSON null, any other as that integer |
| `CustomerModel.FromJson` | src/main/java/com/redhat/rhoar/customer/model/Customer.java:32-36 | a key missing from the input leaves its field null. A key holding a string (or, for `balance`, an integer) is read: the field is that string, or that integer taken to 32 bits. A non-null field is what is stored |
| `CustomerModel.FromJsonIgnoresOtherKeys` | src/main/java/com/redhat/rhoar/customer/model/Customer.java:32-36 | two objects that agree on `customerId`, `vipStatus` and `balance` decode to the same customer, whatever other keys (such as `_id`) they hold |
| `CustomerModel.ToJson` | src/main/java/com/redhat/rhoar/customer/model/Customer.java:51-57 | keys are exactly the three field names, each holding its field's value, a null field as JSON null. Decoding the result gives back the same customer for every customer, null fields and negative balances included |
| `CustomerModel.CustomerObject.constructor` | src/main/java/com/redhat/rhoar/customer/model/Customer.java:17-19 | the default constructor leaves all three fields null |
| `CustomerModel.CustomerObject.FromJsonObject` | src/main/java/com/redhat/rhoar/customer/model/Customer.java:32-36 | the object built from JSON holds the decoded customer |
| `CustomerModel.CustomerObject.ToJsonObject` | src/main/java/com/redhat/rhoar/customer/model/Customer.java:51-57 | the three puts on a fresh object give the encoding of the object's current value |
| `CustomerModel.CustomerObject.GetCustomerId` | src/main/java/com/redhat/rhoar/customer/model/Customer.java:59-61 | returns the current `customerId` |
| `CustomerModel.CustomerObject.SetCustomerId` | src/main/java/com/redhat/rhoar/customer/model/Customer.java:63-65 | `customerId` becomes the argument; the other two fields keep their values |
| `CustomerModel.CustomerObject.GetVipStatus` | src/main/java/com/redhat/rhoar/customer/model/Customer.java:67-69 | returns the current `vipStatus` |
| `CustomerModel.CustomerObject.SetVipStatus` | src/main/java/com/redhat/rhoar/customer/model/Customer.java:71-73 | `vipStatus` becomes the argument; the other two fields keep their values |
| `CustomerModel.CustomerObject.GetBalance` | src/main/java/com/redhat/rhoar/customer/model/Customer.java:75-77 | returns the current `balance` |
| `CustomerModel.CustomerObject.SetBalance` | src/main/java/com/redhat/rhoar/customer/model/Customer.java:79-81 | `balance` becomes the argument; the other two fields keep their values |
| `CustomerServiceMongo.GetCustomersCall` | src/main/java/com/redhat/rhoar/customer/service/CustomerServiceMongoImpl.java:39-40 | a find on the "customers" collection whose empty query selects every document |
| `CustomerServiceMongo.GetCustomersResult` | src/main/java/com/redhat/rhoar/customer/service/CustomerServiceMongoImpl.java:41-48 | success exactly when the store succeeded. The list has the store's length and order, element i being the customer decoded from document i. A failure keeps its cause and carries no partial list |
| `CustomerServiceMongo.GetCustomerCall` | src/main/java/com/redhat/rhoar/customer/service/CustomerServiceMongoImpl.java:64-65 | a find on "customers" whose only query key is `customerId`; it selects exactly the documents whose `customerId` is the given id |
| `CustomerServiceMongo.GetCustomerResult` | src/main/java/com/redhat/rhoar/customer/service/CustomerServiceMongoImpl.java:66-75 | success exactly when the store succeeded. No match gives a success with no customer, not a failure. One or more matches give the customer of the first document. A failure keeps its cause |
| `CustomerServiceMongo.ToDocument` | src/main/java/com/redhat/rhoar/customer/service/CustomerServiceMongoImpl.java:89-93 | the keys are the three field names plus `_id`, and `_id` holds the same value as `customerId`. Removing `_id` gives `toJson` back, and the document decodes to the same customer |
| `CustomerServiceMongo.AddCustomerCall` | src/main/java/com/redhat/rhoar/customer/service/CustomerServiceMongoImpl.java:80-82 | a save on "customers" of exactly the customer's document |
| `CustomerServiceMongo.AddCustomerResult` | src/main/java/com/redhat/rhoar/customer/service/CustomerServiceMongoImpl.java:81 | the store's save answer reaches the caller unchanged, success or failure |
| `CustomerServiceMongo.Ping` | src/main/java/com/redhat/rhoar/customer/service/CustomerServiceMongoImpl.java:85-87 | always a success carrying "OK" |
| `StoreDouble.SaveDoc` | src/main/java/com/redhat/rhoar/customer/service/CustomerServiceMongoImpl.java:81 | the assumed save: the document is stored under its `_id` (or a generated id) and every other entry is untouched |
| `StoreDouble.AddKeepsKeyed` | src/main/java/com/redhat/rhoar/customer/service/CustomerServiceMongoImpl.java:89-93 | saving the documents addCustomer builds keeps every stored document keyed by its `customerId` |
| `StoreDouble.SaveReplaces` | src/main/java/com/redhat/rhoar/customer/service/CustomerServiceMongoImpl.java:81 | saving two customers with the same id leaves only the second document, in full (replace, not merge) |
| `StoreDouble.GetAfterAdd` | src/main/java/com/redhat/rhoar/customer/service/CustomerServiceMongoImpl.java:64-75 | after addCustomer(c), any correct answer of getCustomer's find is exactly c's document, and getCustomer returns c |
| `StoreDouble.GetNeverStored` | src/main/java/com/redhat/rhoar/customer/service/CustomerServiceMongoImpl.java:64-75 | for an id never stored, the find selects nothing and getCustomer succeeds with no customer |
| `RestVerticle.CustomersArrayAt` | src/main/java/com/redhat/rhoar/customer/server/RestVerticle.java:86-89 | the array built from a customer list has one element per customer: element i is customer i's `toJson` |
| `RestVerticle.ToJsonArray` | src/main/java/com/redhat/rhoar/customer/server/RestVerticle.java:86-89 | the `forEach(json::add)` loop gives an array of the list's length whose element i is customer i's `toJson` |
| `RestVerticle.GetCustomersOutcome` | src/main/java/com/redhat/rhoar/customer/server/RestVerticle.java:83-95 | success gives status 200 with `Content-type: application/json` and the array of every customer's `toJson` in list order. A failure fails the request with the same cause and never responds |
| `RestVerticle.GetCustomerOutcome` | src/main/java/com/redhat/rhoar/customer/server/RestVerticle.java:110-124 | a 200 response exactly when the service found a customer: Content-type application/json and exactly that customer's `toJson` as body, which decodes back to the customer. `fail(404)` exactly when the service succeeded with no customer. A failure keeps its cause |
| `RestVerticle.AddCustomerOutcome` | src/main/java/com/redhat/rhoar/customer/server/RestVerticle.java:138-143 | status 201 with an empty body exactly when the service succeeded; a failure fails the request with the same cause |
| `RestVerticle.GetCustomersHandler` | src/main/java/com/redhat/rhoar/customer/server/RestVerticle.java:83-95 | putting the header and ending the response (or failing the context) leaves the exchange as `GetCustomersOutcome` says |
| `RestVerticle.GetCustomerHandler` | src/main/java/com/redhat/rhoar/customer/server/RestVerticle.java:109-124 | the path parameter goes to the service unchanged, and the exchange ends as `GetCustomerOutcome` says of the answer |
| `RestVerticle.AddCustomerHandler` | src/main/java/com/redhat/rhoar/customer/server/RestVerticle.java:137-144 | the service receives `new Customer(body)`, and the exchange ends as `AddCustomerOutcome` says of the answer |
| `RestVerticle.ReadinessHandler` | src/main/java/com/redhat/rhoar/customer/server/RestVerticle.java:49 | readiness always responds 200 with "OK" |
| `RestVerticle.Health` | src/main/java/com/redhat/rhoar/customer/server/RestVerticle.java:148-161 | a pending future is completed with OK on a ping success and with KO on a failure; an already completed future is left unchanged |
| `RestVerticle.HealthCompletesOnce` | src/main/java/com/redhat/rhoar/customer/server/RestVerticle.java:151-158 | a future that timed out stays failed; otherwise the first ping decides the status and a later ping changes nothing |
| `RestVerticle.ListenPort` | src/main/java/com/redhat/rhoar/customer/server/RestVerticle.java:65 | the configured `customer.http.port` when present, 8080 when the key is absent, null when it holds null |
| `Scenarios.ServiceAddCustomerScenario` | src/test/java/com/redhat/rhoar/customer/verticle/service/CustomerServiceTest.java:53-80 | a customer built with the setters and added is stored under `_id` A10 with vipStatus Gold |
| `Scenarios.ServiceGetCustomersScenario` | src/test/java/com/redhat/rhoar/customer/verticle/service/CustomerServiceTest.java:93-137 | with A11 and A12 stored, getCustomers returns two customers whose ids are A11 and A12 |
| `Scenarios.ServiceGetNonExistingScenario` | src/test/java/com/redhat/rhoar/customer/verticle/service/CustomerServiceTest.java:197-224 | with only a document lacking `customerId` stored, getCustomer("A12") succeeds with no customer |
| `Scenarios.RestGetCustomersScenario` | src/test/java/com/redhat/rhoar/customer/server/RestVerticleTest.java:107-139 | GET /customers answers 200, application/json, with the JSON of A11 and A22 in list order |
| `Scenarios.RestGetCustomerScenario` | src/test/java/com/redhat/rhoar/customer/server/RestVerticleTest.java:156-180 | GET /customer/A11 answers 200, application/json, with `customerId` A11 in the body |
| `Scenarios.RestGetNonExistingScenario` | src/test/java/com/redhat/rhoar/customer/server/RestVerticleTest.java:194-205 | an empty find for A99 reaches the client as a failed request with status 404 |
| `Scenarios.RestAddCustomerScenario` | src/test/java/com/redhat/rhoar/customer/server/RestVerticleTest.java:213-237 | the posted body decodes to customerId A11, and a successful save answers 201 with an empty body |
| `Scenarios.LivenessScenario` | src/main/java/com/redhat/rhoar/customer/server/RestVerticle.java:148-161 | with this service's ping, a pending liveness future completes with OK |

## Left out

- MongoDB itself is not modelled. The following are store inputs or the assumptions in `store.dfy`:
  query matching beyond field-equality filters, upsert semantics and the order of `find` results.
  A `_id` generated on save is a parameter.
- Type-coercion failures of the JSON getters are left out. For example, `getInteger` on a string
  throws a `ClassCastException`. `Decodable`, `StringOrAbsent` and `IntegerOrAbsent` are preconditions
  instead. Floating-point JSON numbers are not modelled.
- Vert.x routing is not modelled: path-pattern matching for `:customerId`, `BodyHandler` and
  `getBodyAsJson` parsing. The status Vert.x's default failure handler gives a failed context is
  also left out.
- `encodePrettily` text formatting is not modelled. A response body is the JSON value it would encode.
- Asynchrony and the event loop are left out. Each callback is modelled by the value it receives and
  what it does with it. The health-check handler's timeout is an input (`HealthFuture.Fail`).
- The HTTP server's `listen` is left out, including a failed start and ports outside 0-65535. Only
  the port lookup is modelled.
- Startup and wiring are not part of this model: MainVerticle.java, GuiceDeploymentHelper.java,
  Binder.java, AppConfig.java and StartUp.java. They cover config retrieval, deployment and dependency
  injection.
- `CustomerModel.FromJson`: the round trip is stated for values the model can hold. A JSON integer
  outside 32 bits is decoded by keeping its low 32 bits.
