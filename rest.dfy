/**
 * RestVerticle: the HTTP handlers. Each handler receives the service's result and either ends
 * the response or fails the routing context; the `...Outcome` functions say which, and the
 * handler methods drive a mutable exchange to exactly that outcome.
 */
module RestVerticle {
  import opened Wrappers
  import opened Json
  import opened CustomerModel

  const ContentTypeHeader := "Content-type"
  const JsonContentType := "application/json"
  const JsonHeaders: map<string, string> := map[ContentTypeHeader := JsonContentType]
  const PortKey := "customer.http.port"
  const DefaultPort: Int32 := 8080

  /** What `end` writes: nothing, a JSON value (before pretty-printing) or plain text. */
  datatype Body = Empty | JsonBody(json: JsonValue) | TextBody(text: string)

  /** The argument of RoutingContext.fail: a status code or a Throwable. */
  datatype FailReason = WithStatus(code: int) | WithCause(cause: Cause)

  /** How an exchange ends: not yet, a response written and ended, or a failed routing context. */
  datatype Outcome =
    | Unanswered
    | Respond(status: int, headers: map<string, string>, body: Body)
    | Fail(reason: FailReason)

  /** The routing context of one request together with its HttpServerResponse. */
  class Exchange {
    var status: int
    var headers: map<string, string>
    var ended: Option<Body>
    var failure: Option<FailReason>

    /** What the exchange has amounted to so far. */
    function Outcome(): Outcome
      reads this
    {
      if failure.Some? then Fail(failure.value)
      else if ended.Some? then Respond(status, headers, ended.value)
      else Unanswered
    }

    /** A request just routed to a handler: status 200, no header, nothing written, not failed. */
    predicate Fresh()
      reads this
    {
      status == 200 && headers == map[] && ended == None && failure == None
    }

    constructor ()
      ensures Fresh() && Outcome() == Unanswered
    {
      status, headers, ended, failure := 200, map[], None, None;
    }

    method PutHeader(name: string, value: string)
      requires ended.None?
      modifies this
      ensures headers == old(headers)[name := value]
      ensures status == old(status) && ended == old(ended) && failure == old(failure)
    {
      headers := headers[name := value];
    }

    method SetStatusCode(code: int)
      requires ended.None?
      modifies this
      ensures status == code
      ensures headers == old(headers) && ended == old(ended) && failure == old(failure)
    {
      status := code;
    }

    method End(body: Body)
      requires ended.None?
      modifies this
      ensures ended == Some(body)
      ensures status == old(status) && headers == old(headers) && failure == old(failure)
    {
      ended := Some(body);
    }

    method FailRequest(reason: FailReason)
      modifies this
      ensures failure == Some(reason)
      ensures status == old(status) && headers == old(headers) && ended == old(ended)
    {
      failure := Some(reason);
    }
  }

  /** The elements of the JsonArray built from a customer list: one toJson per customer. */
  function CustomersArray(cs: seq<Customer>): (elems: seq<JsonValue>)
  {
    if cs == [] then [] else CustomersArray(cs[..|cs| - 1]) + [JObj(ToJson(cs[|cs| - 1]))]
  }

  /** The array has one element per customer, in list order. */
  lemma {:induction false} CustomersArrayAt(cs: seq<Customer>)
    ensures |CustomersArray(cs)| == |cs|
    ensures forall i :: 0 <= i < |cs| ==> CustomersArray(cs)[i] == JObj(ToJson(cs[i]))
  {
    if cs != [] {
      CustomersArrayAt(cs[..|cs| - 1]);
    }
  }

  /** `customers.stream().map(toJson).forEach(json::add)`: append each customer's JSON to a new array. */
  method ToJsonArray(customers: seq<Customer>) returns (json: JsonValue)
    ensures json == JArr(CustomersArray(customers))
    ensures |json.elems| == |customers|
    ensures forall i :: 0 <= i < |customers| ==> json.elems[i] == JObj(ToJson(customers[i]))
  {
    var elems: seq<JsonValue> := [];
    var i := 0;
    while i < |customers|
      invariant 0 <= i <= |customers|
      invariant elems == CustomersArray(customers[..i])
    {
      assert customers[..i + 1][..i] == customers[..i];
      elems := elems + [JObj(ToJson(customers[i]))];
      i := i + 1;
    }
    assert customers[..i] == customers;
    CustomersArrayAt(customers);
    json := JArr(elems);
  }

  /**
   * GET /customers: on success a 200 with Content-type application/json and the array of every
   * customer's toJson in list order; on failure the routing context fails with the same cause.
   */
  function GetCustomersOutcome(r: Result<seq<Customer>>): (o: Outcome)
    ensures r.Failure? <==> o.Fail?
    ensures r.Failure? ==> o == Fail(WithCause(r.cause))
    ensures r.Success? ==> o.Respond? && o.status == 200 && o.headers == JsonHeaders
    ensures r.Success? ==> o.body.JsonBody? && o.body.json.JArr? && |o.body.json.elems| == |r.value|
    ensures r.Success? ==> forall i :: 0 <= i < |r.value| ==> o.body.json.elems[i] == JObj(ToJson(r.value[i]))
  {
    match r
    case Failure(e) => Fail(WithCause(e))
    case Success(cs) =>
      CustomersArrayAt(cs);
      Respond(200, JsonHeaders, JsonBody(JArr(CustomersArray(cs))))
  }

  /**
   * GET /customer/:customerId: a customer gives a 200 with its toJson; a successful null gives
   * fail(404), never a 200; a failure fails with the same cause.
   */
  function GetCustomerOutcome(r: Result<Option<Customer>>): (o: Outcome)
    ensures o.Respond? <==> r.Success? && r.value.Some?
    ensures o == Fail(WithStatus(404)) <==> r == Success(None)
    ensures r.Failure? ==> o == Fail(WithCause(r.cause))
    ensures r.Success? && r.value.Some? ==> o == Respond(200, JsonHeaders, JsonBody(JObj(ToJson(r.value.value))))
    ensures o.Respond? ==> o.status == 200 && o.headers == JsonHeaders && o.body.JsonBody? && o.body.json.JObj?
    ensures o.Respond? ==> Decodable(o.body.json.fields) && FromJson(o.body.json.fields) == r.value.value
  {
    match r
    case Failure(e) => Fail(WithCause(e))
    case Success(None) => Fail(WithStatus(404))
    case Success(Some(c)) => Respond(200, JsonHeaders, JsonBody(JObj(ToJson(c))))
  }

  /** POST /customer: a successful save gives 201 with an empty body; a failure fails with the same cause. */
  function AddCustomerOutcome(r: Result<Option<string>>): (o: Outcome)
    ensures r.Success? <==> o == Respond(201, map[], Empty)
    ensures r.Failure? ==> o == Fail(WithCause(r.cause))
  {
    match r
    case Failure(e) => Fail(WithCause(e))
    case Success(_) => Respond(201, map[], Empty)
  }

  /** The getCustomers callback on the response. */
  method GetCustomersHandler(ex: Exchange, answer: Result<seq<Customer>>)
    requires ex.Fresh()
    modifies ex
    ensures ex.Outcome() == GetCustomersOutcome(answer)
  {
    if answer.Success? {
      var json := ToJsonArray(answer.value);
      ex.PutHeader(ContentTypeHeader, JsonContentType);
      ex.End(JsonBody(json));
    } else {
      ex.FailRequest(WithCause(answer.cause));
    }
  }

  /** The getCustomer handler: the path parameter goes to the service unchanged. */
  method GetCustomerHandler(ex: Exchange, customerId: string, service: string -> Result<Option<Customer>>)
    requires ex.Fresh()
    modifies ex
    ensures ex.Outcome() == GetCustomerOutcome(service(customerId))
  {
    var answer := service(customerId);
    if answer.Success? {
      if answer.value.Some? {
        var json := ToJson(answer.value.value);
        ex.PutHeader(ContentTypeHeader, JsonContentType);
        ex.End(JsonBody(JObj(json)));
      } else {
        ex.FailRequest(WithStatus(404));
      }
    } else {
      ex.FailRequest(WithCause(answer.cause));
    }
  }

  /** The addCustomer handler: the service receives `new Customer(body)`. */
  method AddCustomerHandler(ex: Exchange, body: JsonObject, service: Customer -> Result<Option<string>>)
    requires Decodable(body)
    requires ex.Fresh()
    modifies ex
    ensures ex.Outcome() == AddCustomerOutcome(service(FromJson(body)))
  {
    var customer := new CustomerObject.FromJsonObject(body);
    var answer := service(customer.Value());
    if answer.Success? {
      ex.SetStatusCode(201);
      ex.End(Empty);
    } else {
      ex.FailRequest(WithCause(answer.cause));
    }
  }

  /** GET /health/readiness: always a 200 with body "OK". */
  method ReadinessHandler(ex: Exchange)
    requires ex.Fresh()
    modifies ex
    ensures ex.Outcome() == Respond(200, map[], TextBody("OK"))
  {
    ex.End(TextBody("OK"));
  }

  /** The health-check Status. */
  datatype Status = OK | KO

  /** A Future<Status>: pending, or completed once with a status, or failed (the handler's timeout). */
  datatype FutureState = Incomplete | Completed(status: Status) | Failed(cause: Cause)

  class HealthFuture {
    var state: FutureState

    constructor ()
      ensures state == Incomplete
    {
      state := Incomplete;
    }

    predicate IsComplete()
      reads this
    {
      !state.Incomplete?
    }

    /** Future.complete: only allowed on a pending future. */
    method Complete(s: Status)
      requires !IsComplete()
      modifies this
      ensures state == Completed(s)
    {
      state := Completed(s);
    }

    /** Future.fail, as the health-check handler does on timeout: only allowed on a pending future. */
    method Fail(cause: Cause)
      requires !IsComplete()
      modifies this
      ensures state == Failed(cause)
    {
      state := Failed(cause);
    }
  }

  /** health: a ping success completes a pending future with OK, a failure with KO; a completed future is left alone. */
  method Health(f: HealthFuture, ping: Result<string>)
    modifies f
    ensures old(f.IsComplete()) ==> f.state == old(f.state)
    ensures !old(f.IsComplete()) ==> f.state == Completed(if ping.Success? then OK else KO)
  {
    if ping.Success? {
      if !f.IsComplete() {
        f.Complete(OK);
      }
    } else {
      if !f.IsComplete() {
        f.Complete(KO);
      }
    }
  }

  /**
   * One liveness check on a fresh future, possibly timed out first, answered by two pings: the
   * future ends failed by the timeout, or else completed by the first ping, whatever the second says.
   */
  method HealthCompletesOnce(timeout: Option<Cause>, first: Result<string>, second: Result<string>)
    returns (s: FutureState)
    ensures timeout.Some? ==> s == Failed(timeout.value)
    ensures timeout.None? ==> s == Completed(if first.Success? then OK else KO)
  {
    var f := new HealthFuture();
    if timeout.Some? {
      f.Fail(timeout.value);
    }
    Health(f, first);
    Health(f, second);
    s := f.state;
  }

  /** `config().getInteger("customer.http.port", 8080)`: the configured port, else 8080; an explicit null stays null. */
  function ListenPort(config: JsonObject): (port: Option<Int32>)
    requires IntegerOrAbsent(config, PortKey)
    ensures PortKey !in config ==> port == Some(DefaultPort)
    ensures PortKey in config && config[PortKey] == JNull ==> port == None
    ensures PortKey in config && config[PortKey].JInt? && -0x8000_0000 <= config[PortKey].n < 0x8000_0000 ==>
              port == Some(config[PortKey].n as Int32)
  {
    GetIntegerOr(config, PortKey, DefaultPort)
  }
}
