/**
 * An in-memory stand-in for the "customers" collection, used only to state end-to-end
 * properties of the service. It is an ASSUMPTION about the foreign store, not a model of
 * MongoDB: a save upserts by `_id`, and a find answers with the documents the query selects,
 * each once, in some order.
 */
module StoreDouble {
  import opened Wrappers
  import opened Json
  import opened CustomerModel
  import opened CustomerServiceMongo

  /** The collection: documents by their `_id` value. */
  type Collection = map<JsonValue, JsonObject>

  /** save: upsert by `_id`; a document without one gets the store-generated id. */
  function SaveDoc(s: Collection, doc: JsonObject, generated: JsonValue): (s': Collection)
    ensures var key := if IdKey in doc then doc[IdKey] else generated;
      s'.Keys == s.Keys + {key} && s'[key] == doc[IdKey := key] &&
      forall k :: k in s && k != key ==> s'[k] == s[k]
  {
    var key := if IdKey in doc then doc[IdKey] else generated;
    s[key := doc[IdKey := key]]
  }

  /** The ids of the documents of s that query selects. */
  function Selected(s: Collection, query: JsonObject): (ids: set<JsonValue>) {
    set k | k in s && Selects(query, s[k])
  }

  /** A correct answer of find(query) on s: the selected documents, one per selected id, in any order. */
  predicate FindAnswers(s: Collection, query: JsonObject, docs: seq<JsonObject>) {
    && (forall i :: 0 <= i < |docs| ==> docs[i] in s.Values && Selects(query, docs[i]))
    && (forall k :: k in s && Selects(query, s[k]) ==> s[k] in docs)
    && |docs| == |Selected(s, query)|
  }

  /** Every stored document is keyed by its customerId, as the documents addCustomer saves are. */
  predicate Keyed(s: Collection) {
    forall k :: k in s ==>
      IdKey in s[k] && s[k][IdKey] == k && CustomerIdKey in s[k] && s[k][CustomerIdKey] == k && Decodable(s[k])
  }

  /** Saving a customer's document keeps the collection keyed by customerId. */
  lemma AddKeepsKeyed(s: Collection, c: Customer, generated: JsonValue)
    requires Keyed(s)
    ensures Keyed(SaveDoc(s, AddCustomerCall(c).document, generated))
  {
  }

  /** A second addCustomer with the same customerId replaces the first document in full (no merge). */
  lemma SaveReplaces(s: Collection, c1: Customer, c2: Customer, generated: JsonValue)
    requires c1.customerId == c2.customerId
    ensures var s2 := SaveDoc(SaveDoc(s, ToDocument(c1), generated), ToDocument(c2), generated);
      s2 == SaveDoc(s, ToDocument(c2), generated) && s2[StringValue(c2.customerId)] == ToDocument(c2)
  {
  }

  /** addCustomer(c) followed by getCustomer(c's id) finds exactly c's document and returns c. */
  lemma GetAfterAdd(s: Collection, c: Customer, generated: JsonValue, docs: seq<JsonObject>)
    requires Keyed(s) && c.customerId.Some?
    requires FindAnswers(SaveDoc(s, AddCustomerCall(c).document, generated),
                         GetCustomerCall(c.customerId.value).query, docs)
    ensures docs == [ToDocument(c)]
    ensures GetCustomerResult(Success(docs)) == Success(Some(c))
  {
    var d := ToDocument(c);
    var id := JStr(c.customerId.value);
    var s' := SaveDoc(s, d, generated);
    var q := GetCustomerCall(c.customerId.value).query;
    AddKeepsKeyed(s, c, generated);
    assert d[IdKey := id] == d;
    assert s'[id] == d && Selects(q, d);
    forall k | k in Selected(s', q)
      ensures k == id
    {
      assert s'[k][CustomerIdKey] == k;
    }
    assert Selected(s', q) == {id};
    assert docs[0] in s'.Values;
    var k :| k in s' && s'[k] == docs[0];
    assert Selects(q, docs[0]);
  }

  /** getCustomer of an id never stored: the find selects nothing and the result is "no customer". */
  lemma GetNeverStored(s: Collection, customerId: string, docs: seq<JsonObject>)
    requires Keyed(s) && JStr(customerId) !in s
    requires FindAnswers(s, GetCustomerCall(customerId).query, docs)
    ensures docs == []
    ensures GetCustomerResult(Success(docs)) == Success(None)
  {
  }
}
