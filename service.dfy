/**
 * CustomerServiceMongoImpl: each operation issues one call on the MongoClient and turns the
 * store's answer into its own result. The answer is a parameter: `XCall` is what the operation
 * asks of the store, `XResult` what it hands to its caller once the store has answered.
 */
module CustomerServiceMongo {
  import opened Wrappers
  import opened Json
  import opened CustomerModel

  const Collection := "customers"
  const IdKey := "_id"

  /** A call on the MongoClient. */
  datatype StoreCall =
    | Find(collection: string, query: JsonObject)
    | Save(collection: string, document: JsonObject)

  /** The reading of an equality filter: each field of the query is present in the document with that value. */
  predicate Selects(query: JsonObject, doc: JsonObject) {
    forall k :: k in query ==> k in doc && doc[k] == query[k]
  }

  /** Every document the store answers with can be read by the JSON constructor. */
  predicate AllDecodable(docs: seq<JsonObject>) {
    forall i :: 0 <= i < |docs| ==> Decodable(docs[i])
  }

  /** getCustomers: a find on "customers" with the empty query, which selects every document. */
  function GetCustomersCall(): (call: StoreCall)
    ensures call.Find? && call.collection == Collection
    ensures forall doc :: Selects(call.query, doc)
  {
    Find(Collection, map[])
  }

  /** getCustomers completion: every document becomes a Customer, in the store's order; a failure passes through. */
  function GetCustomersResult(found: Result<seq<JsonObject>>): (r: Result<seq<Customer>>)
    requires found.Success? ==> AllDecodable(found.value)
    ensures r.Success? <==> found.Success?
    ensures found.Failure? ==> r == Failure(found.cause)
    ensures found.Success? ==> |r.value| == |found.value|
    ensures found.Success? ==> forall i :: 0 <= i < |r.value| ==> r.value[i] == FromJson(found.value[i])
  {
    match found
    case Failure(e) => Failure(e)
    case Success(docs) => Success(seq(|docs|, i requires 0 <= i < |docs| => FromJson(docs[i])))
  }

  /** getCustomer(customerId): a find on "customers" selecting exactly the documents with that customerId. */
  function GetCustomerCall(customerId: string): (call: StoreCall)
    ensures call.Find? && call.collection == Collection
    ensures call.query.Keys == {CustomerIdKey}
    ensures forall doc :: Selects(call.query, doc) <==> CustomerIdKey in doc && doc[CustomerIdKey] == JStr(customerId)
  {
    Find(Collection, map[CustomerIdKey := JStr(customerId)])
  }

  /**
   * getCustomer completion: no match is a success with no customer (not a failure), otherwise the
   * first document wins; a failure passes through. Only the first document is ever decoded.
   */
  function GetCustomerResult(found: Result<seq<JsonObject>>): (r: Result<Option<Customer>>)
    requires found.Success? && found.value != [] ==> Decodable(found.value[0])
    ensures r.Success? <==> found.Success?
    ensures found.Failure? ==> r == Failure(found.cause)
    ensures found.Success? ==> (r.value.None? <==> found.value == [])
    ensures found.Success? && found.value != [] ==> r.value == Some(FromJson(found.value[0]))
  {
    match found
    case Failure(e) => Failure(e)
    case Success(docs) => if docs == [] then Success(None) else Success(Some(FromJson(docs[0])))
  }

  /**
   * toDocument: the customer's JSON plus `_id` set to its customerId, so the store keys the
   * document by customerId; removing `_id` gives toJson back and the document decodes to c.
   */
  function ToDocument(c: Customer): (d: JsonObject)
    ensures d.Keys == CustomerKeys + {IdKey}
    ensures d[IdKey] == d[CustomerIdKey] == StringValue(c.customerId)
    ensures d - {IdKey} == ToJson(c)
    ensures Decodable(d) && FromJson(d) == c
  {
    var d := ToJson(c)[IdKey := StringValue(c.customerId)];
    assert d - {IdKey} == ToJson(c);
    FromJsonIgnoresOtherKeys(ToJson(c), d);
    d
  }

  /** addCustomer(customer): a save on "customers" of the customer's document. */
  function AddCustomerCall(c: Customer): (call: StoreCall)
    ensures call.Save? && call.collection == Collection
    ensures call.document == ToDocument(c)
  {
    Save(Collection, ToDocument(c))
  }

  /** addCustomer completion: the store's save result is handed to the caller unchanged. */
  function AddCustomerResult(saved: Result<Option<string>>): (r: Result<Option<string>>)
    ensures r == saved
  {
    saved
  }

  /** ping: always a success with "OK"; the store is not consulted. */
  function Ping(): (r: Result<string>)
    ensures r == Success("OK")
  {
    Success("OK")
  }
}
