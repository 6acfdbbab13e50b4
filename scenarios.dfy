/** The scenarios of the repository's tests, stated over the model. */
module Scenarios {
  import opened Wrappers
  import opened Json
  import opened CustomerModel
  import opened CustomerServiceMongo
  import opened RestVerticle
  import opened StoreDouble

  /** A customer as the tests write it: id, status, balance. */
  function CustomerJson(id: string, status: string, balance: int): (o: JsonObject) {
    map[CustomerIdKey := JStr(id), VipStatusKey := JStr(status), BalanceKey := JInt(balance)]
  }

  /** The customerIds of a list of customers. */
  function Ids(cs: seq<Customer>): (ids: set<Option<string>>) {
    set c | c in cs :: c.customerId
  }

  /** A correct find over a collection of two selected documents answers with both, and nothing else. */
  lemma FindOfTwo(g1: JsonValue, g2: JsonValue, d1: JsonObject, d2: JsonObject, q: JsonObject, docs: seq<JsonObject>)
    requires g1 != g2 && Selects(q, d1) && Selects(q, d2)
    requires FindAnswers(map[g1 := d1, g2 := d2], q, docs)
    ensures |docs| == 2 && d1 in docs && d2 in docs
    ensures forall i :: 0 <= i < |docs| ==> docs[i] == d1 || docs[i] == d2
  {
    var s := map[g1 := d1, g2 := d2];
    assert Selected(s, q) == {g1, g2};
    forall i | 0 <= i < |docs|
      ensures docs[i] == d1 || docs[i] == d2
    {
      assert docs[i] in s.Values;
    }
  }

  /** The customerIds of the customers decoded from docs are those the documents' JSON holds. */
  lemma IdsOfDecoded(docs: seq<JsonObject>, ids: set<Option<string>>)
    requires AllDecodable(docs)
    requires forall d :: d in docs ==> FromJson(d).customerId in ids
    requires forall id :: id in ids ==> exists d :: d in docs && FromJson(d).customerId == id
    ensures Ids(GetCustomersResult(Success(docs)).value) == ids
  {
  }

  /**
   * Service test of getCustomers: A11 Diamond and A12 Silver saved (ids generated by the store);
   * any correct answer of the match-all find yields two customers with ids A11 and A12.
   */
  lemma ServiceGetCustomersScenario(g1: JsonValue, g2: JsonValue, docs: seq<JsonObject>)
    requires g1 != g2
    requires FindAnswers(SaveDoc(SaveDoc(map[], CustomerJson("A11", "Diamond", 1000), g1),
                                 CustomerJson("A12", "Silver", 1000), g2),
                         GetCustomersCall().query, docs)
    ensures AllDecodable(docs)
    ensures var r := GetCustomersResult(Success(docs));
      r.Success? && |r.value| == 2 && Ids(r.value) == {Some("A11"), Some("A12")}
  {
    var d1 := CustomerJson("A11", "Diamond", 1000)[IdKey := g1];
    var d2 := CustomerJson("A12", "Silver", 1000)[IdKey := g2];
    assert SaveDoc(SaveDoc(map[], CustomerJson("A11", "Diamond", 1000), g1), CustomerJson("A12", "Silver", 1000), g2)
      == map[g1 := d1, g2 := d2];
    FindOfTwo(g1, g2, d1, d2, GetCustomersCall().query, docs);
    assert FromJson(d1).customerId == Some("A11");
    assert FromJson(d2).customerId == Some("A12");
    IdsOfDecoded(docs, {Some("A11"), Some("A12")});
  }

  /**
   * Service test of getCustomer on a missing id: the only stored document has an `itemId` but no
   * `customerId`, so getCustomer("A12") succeeds with no customer.
   */
  lemma ServiceGetNonExistingScenario(g: JsonValue, docs: seq<JsonObject>)
    requires FindAnswers(SaveDoc(map[], map["itemId" := JStr("A11"), VipStatusKey := JStr("Diamond"),
                                            BalanceKey := JInt(1000)], g),
                         GetCustomerCall("A12").query, docs)
    ensures GetCustomerResult(Success(docs)) == Success(None)
  {
  }

  /** REST test of GET /customers: 200, application/json, and the body's customers have ids A11 and A22. */
  lemma RestGetCustomersScenario()
    ensures var o := GetCustomersOutcome(Success([FromJson(CustomerJson("A11", "Diamond", 1000)),
                                                  FromJson(CustomerJson("A22", "Bronze", 1000))]));
      && o.Respond? && o.status == 200 && o.headers[ContentTypeHeader] == JsonContentType
      && o.body == JsonBody(JArr([JObj(ToJson(Customer(Some("A11"), Some("Diamond"), Some(1000)))),
                                  JObj(ToJson(Customer(Some("A22"), Some("Bronze"), Some(1000))))]))
  {
  }

  /** REST test of GET /customer/A11: 200, application/json, and the body's customerId is A11. */
  lemma RestGetCustomerScenario()
    ensures var o := GetCustomerOutcome(Success(Some(FromJson(CustomerJson("A11", "Diamond", 1000)))));
      && o.Respond? && o.status == 200 && o.headers[ContentTypeHeader] == JsonContentType
      && o.body.json.fields[CustomerIdKey] == JStr("A11")
  {
  }

  /** GET /customer/A99 with no such customer: the service's empty find becomes a 404, never a 200. */
  lemma RestGetNonExistingScenario()
    ensures GetCustomerOutcome(GetCustomerResult(Success([]))) == Fail(WithStatus(404))
  {
  }

  /** POST /customer: the service receives customerId A11, and a successful save gives 201 with no body. */
  lemma RestAddCustomerScenario()
    ensures FromJson(CustomerJson("A11", "Diamond", 1000)).customerId == Some("A11")
    ensures AddCustomerOutcome(AddCustomerResult(Success(None))) == Respond(201, map[], Empty)
  {
  }

  /**
   * Service test of addCustomer: a customer built with the setters and saved is found under
   * `_id` A10 with vipStatus Gold.
   */
  method ServiceAddCustomerScenario(generated: JsonValue) returns (stored: JsonObject)
    ensures IdKey in stored && VipStatusKey in stored
    ensures stored[IdKey] == JStr("A10") && stored[VipStatusKey] == JStr("Gold")
  {
    var customer := new CustomerObject();
    customer.SetCustomerId(Some("A10"));
    customer.SetVipStatus(Some("Gold"));
    customer.SetBalance(Some(100));
    var collection := SaveDoc(map[], AddCustomerCall(customer.Value()).document, generated);
    stored := collection[JStr("A10")];
  }

  /** Liveness with this service's ping: a pending health future completes with OK. */
  method LivenessScenario() returns (s: FutureState)
    ensures s == Completed(OK)
  {
    s := HealthCompletesOnce(None, Ping(), Failure(Cause("unreachable")));
  }
}
