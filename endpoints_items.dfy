/** Item property and item data requests (lib/xminds/endpoints/items_data_and_properties.rb). */
module ItemsEndpoints {

  import opened Wrappers
  import opened JsonValues
  import opened Requests

  function ListAllItemProperties(): Call {
    Get(path := "items-properties/")
  }

  function CreateItemProperty(propertyName: Json, valueType: Json, repeated: Json := JBool(false)): Call {
    Post(path := "items-properties/",
         body := map["property_name" := propertyName, "value_type" := valueType, "repeated" := repeated])
  }

  function GetItemProperty(propertyName: string): Call {
    Get(path := "items-properties/" + propertyName + "/")
  }

  function DeleteItemProperty(propertyName: string): Call {
    Delete(path := "items-properties/" + propertyName + "/")
  }

  function GetItem(itemId: string): Call {
    Get(path := "items/" + itemId + "/")
  }

  function CreateOrUpdateItem(itemId: string, item: Json): Call {
    Put(path := "items/" + itemId + "/", body := map["item" := item])
  }

  function PartialUpdateItem(itemId: string, item: Json, createIfMissing: Json := JBool(false)): Call {
    Patch(path := "items/" + itemId + "/", body := map["item" := item, "create_if_missing" := createIfMissing])
  }

  function CreateOrUpdateItemBulk(items: Json): Call {
    Put(path := "items-bulk/", body := map["items" := items])
  }

  function PartialUpdateItemBulk(items: Json, createIfMissing: Json := JBool(false)): Call {
    Patch(path := "items-bulk/", body := map["items" := items, "create_if_missing" := createIfMissing])
  }

  function ListAllItems(amount: Json := JNull, cursor: Json := JNull): Call {
    Get(path := "items-bulk/", query := map["amt" := amount, "cursor" := cursor])
  }

  function ListAllItemsById(itemIds: Json): Call {
    Post(path := "items-bulk/list/", body := map["items_id" := itemIds])
  }

  /**
   * Properties are listed and created on the collection path and addressed
   * one by one under their name; creating one sends the name, the value
   * type and `repeated` as given, `repeated` false unless given.
   */
  lemma ItemPropertyRequests(name: string, propertyName: Json, valueType: Json, repeated: Json)
    ensures ListAllItemProperties().path == CreateItemProperty(propertyName, valueType).path == "items-properties/"
    ensures ListAllItemProperties().verb == GET && CreateItemProperty(propertyName, valueType).verb == POST
    ensures GetItemProperty(name).verb == GET && DeleteItemProperty(name).verb == DELETE
    ensures GetItemProperty(name).path == DeleteItemProperty(name).path == "items-properties/" + name + "/"
    ensures CreateItemProperty(propertyName, valueType).body["repeated"] == JBool(false)
    ensures CreateItemProperty(propertyName, valueType, repeated).body.Keys == {"property_name", "value_type", "repeated"}
    ensures CreateItemProperty(propertyName, valueType, repeated).body
      == map["property_name" := propertyName, "value_type" := valueType, "repeated" := repeated]
  {
  }

  /** One item is read with GET, replaced with PUT and patched with PATCH on its own path; `create_if_missing` is false unless given. */
  lemma ItemRequests(itemId: string, item: Json, createIfMissing: Json)
    ensures GetItem(itemId).verb == GET && CreateOrUpdateItem(itemId, item).verb == PUT
    ensures PartialUpdateItem(itemId, item).verb == PATCH
    ensures GetItem(itemId).path == CreateOrUpdateItem(itemId, item).path == PartialUpdateItem(itemId, item).path == "items/" + itemId + "/"
    ensures CreateOrUpdateItem(itemId, item).body == map["item" := item]
    ensures PartialUpdateItem(itemId, item).body == map["item" := item, "create_if_missing" := JBool(false)]
    ensures PartialUpdateItem(itemId, item, createIfMissing).body["create_if_missing"] == createIfMissing
  {
  }

  /** Bulk writes go to `items-bulk/`: PUT replaces, PATCH updates; listing by id posts the ids under `items_id`. */
  lemma ItemBulkRequests(items: Json, itemIds: Json, createIfMissing: Json)
    ensures CreateOrUpdateItemBulk(items).verb == PUT && PartialUpdateItemBulk(items).verb == PATCH
    ensures CreateOrUpdateItemBulk(items).body == map["items" := items]
    ensures CreateOrUpdateItemBulk(items).path == PartialUpdateItemBulk(items).path == "items-bulk/"
    ensures PartialUpdateItemBulk(items).body == map["items" := items, "create_if_missing" := JBool(false)]
    ensures PartialUpdateItemBulk(items, createIfMissing).body == map["items" := items, "create_if_missing" := createIfMissing]
    ensures var c := ListAllItemsById(itemIds); c.verb == POST && c.path == "items-bulk/list/" && c.body == map["items_id" := itemIds]
  {
  }

  /** Listing items sends `amt` and `cursor` only when set, and no query string when neither is. */
  lemma ListAllItemsQuery(endpoint: string, token: Option<string>, amount: Json, cursor: Json)
    ensures var m := MessageFor(endpoint, token, ListAllItems(amount, cursor));
      && m.verb == GET && m.path == "items-bulk/"
      && (m.query.None? <==> amount == JNull && cursor == JNull)
      && (m.query.Some? ==> NullFree(m.query.value) && m.query.value.Keys <= {"amt", "cursor"}
                            && SentIfSet(m.query.value, "amt", amount)
                            && SentIfSet(m.query.value, "cursor", cursor))
  {
    var q := map["amt" := amount, "cursor" := cursor];
    if amount != JNull {
      assert "amt" in Compact(q);
    } else if cursor != JNull {
      assert "cursor" in Compact(q);
    } else {
      assert Compact(q) == map[];
    }
  }
}
