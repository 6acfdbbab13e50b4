/** The Customer record: its three nullable fields, its JSON constructor and its toJson serialiser. */
module CustomerModel {
  import opened Wrappers
  import opened Json

  const CustomerIdKey := "customerId"
  const VipStatusKey := "vipStatus"
  const BalanceKey := "balance"
  const CustomerKeys: set<string> := {CustomerIdKey, VipStatusKey, BalanceKey}

  /** The value of a Customer object: each field may be null (None). */
  datatype Customer = Customer(customerId: Option<string>, vipStatus: Option<string>, balance: Option<Int32>)

  /** The JSON objects the JSON constructor reads without a type-coercion failure. */
  predicate Decodable(o: JsonObject) {
    StringOrAbsent(o, CustomerIdKey) && StringOrAbsent(o, VipStatusKey) && IntegerOrAbsent(o, BalanceKey)
  }

  /** `new Customer(jsonObject)`: reads the three keys, a missing one leaves its field null. */
  function FromJson(o: JsonObject): (c: Customer)
    requires Decodable(o)
    ensures CustomerIdKey !in o ==> c.customerId == None
    ensures VipStatusKey !in o ==> c.vipStatus == None
    ensures BalanceKey !in o ==> c.balance == None
    ensures c.customerId.Some? ==> o[CustomerIdKey] == JStr(c.customerId.value)
    ensures c.vipStatus.Some? ==> o[VipStatusKey] == JStr(c.vipStatus.value)
    ensures c.balance.Some? ==> o[BalanceKey].JInt?
    ensures CustomerIdKey in o && o[CustomerIdKey].JStr? ==> c.customerId == Some(o[CustomerIdKey].s)
    ensures VipStatusKey in o && o[VipStatusKey].JStr? ==> c.vipStatus == Some(o[VipStatusKey].s)
    ensures BalanceKey in o && o[BalanceKey].JInt? ==> c.balance == Some(IntValue(o[BalanceKey].n))
  {
    Customer(GetString(o, CustomerIdKey), GetString(o, VipStatusKey), GetInteger(o, BalanceKey))
  }

  /** o1 and o2 hold the same thing (or nothing) under key. */
  predicate AgreeOn(o1: JsonObject, o2: JsonObject, key: string) {
    (key in o1 <==> key in o2) && (key in o1 ==> o1[key] == o2[key])
  }

  /** o1 and o2 agree on the three customer keys; anything else may differ. */
  predicate SameCustomerFields(o1: JsonObject, o2: JsonObject) {
    AgreeOn(o1, o2, CustomerIdKey) && AgreeOn(o1, o2, VipStatusKey) && AgreeOn(o1, o2, BalanceKey)
  }

  /** The JSON constructor reads no key but the three customer keys: e.g. a store `_id` has no effect. */
  lemma FromJsonIgnoresOtherKeys(o1: JsonObject, o2: JsonObject)
    requires Decodable(o1) && SameCustomerFields(o1, o2)
    ensures Decodable(o2) && FromJson(o2) == FromJson(o1)
  {
  }

  /** `toJson()`: exactly the three keys, each holding its field, null included; it decodes back to c. */
  function ToJson(c: Customer): (o: JsonObject)
    ensures o.Keys == CustomerKeys
    ensures o[CustomerIdKey] == StringValue(c.customerId)
    ensures o[VipStatusKey] == StringValue(c.vipStatus)
    ensures o[BalanceKey] == IntegerValue(c.balance)
    ensures o[CustomerIdKey] == JNull <==> c.customerId.None?
    ensures o[VipStatusKey] == JNull <==> c.vipStatus.None?
    ensures o[BalanceKey] == JNull <==> c.balance.None?
    ensures Decodable(o) && FromJson(o) == c
  {
    map[CustomerIdKey := StringValue(c.customerId),
        VipStatusKey := StringValue(c.vipStatus),
        BalanceKey := IntegerValue(c.balance)]
  }

  /** A Customer object, whose setters update its fields in place. */
  class CustomerObject {
    var customerId: Option<string>
    var vipStatus: Option<string>
    var balance: Option<Int32>

    /** The record value the object currently holds. */
    function Value(): (c: Customer)
      reads this
    {
      Customer(customerId, vipStatus, balance)
    }

    /** `new Customer()`: all three fields null. */
    constructor ()
      ensures Value() == Customer(None, None, None)
    {
      customerId, vipStatus, balance := None, None, None;
    }

    /** `new Customer(jsonObject)`. */
    constructor FromJsonObject(o: JsonObject)
      requires Decodable(o)
      ensures Value() == FromJson(o)
    {
      customerId := GetString(o, CustomerIdKey);
      vipStatus := GetString(o, VipStatusKey);
      balance := GetInteger(o, BalanceKey);
    }

    /** `toJson()` on the object: the encoding of its current value. */
    method ToJsonObject() returns (o: JsonObject)
      ensures o == ToJson(Value())
    {
      o := map[];
      o := o[CustomerIdKey := StringValue(customerId)];
      o := o[VipStatusKey := StringValue(vipStatus)];
      o := o[BalanceKey := IntegerValue(balance)];
    }

    method GetCustomerId() returns (id: Option<string>)
      ensures id == Value().customerId
    {
      id := customerId;
    }

    method SetCustomerId(id: Option<string>)
      modifies this
      ensures Value() == old(Value()).(customerId := id)
    {
      customerId := id;
    }

    method GetVipStatus() returns (status: Option<string>)
      ensures status == Value().vipStatus
    {
      status := vipStatus;
    }

    method SetVipStatus(status: Option<string>)
      modifies this
      ensures Value() == old(Value()).(vipStatus := status)
    {
      vipStatus := status;
    }

    method GetBalance() returns (b: Option<Int32>)
      ensures b == Value().balance
    {
      b := balance;
    }

    method SetBalance(b: Option<Int32>)
      modifies this
      ensures Value() == old(Value()).(balance := b)
    {
      balance := b;
    }
  }
}
