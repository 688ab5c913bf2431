/**
 * The DynamoDB table the handler talks to, as an abstract store: a map from
 * the partition key `id` to the item stored under it, with the put, update,
 * delete and query calls the handler makes. Scans are given as pages.
 */
module Store {
  import opened Wrappers
  import opened Json

  /** A stored item: attribute name to value. */
  type Item = map<string, Value>

  /** One page of a scan: its items, and the key to continue from when the scan was cut short. */
  datatype Page = Page(items: seq<Item>, lastEvaluatedKey: Option<string>)

  /**
   * The pages a scan returns one after the other: every page but the last
   * carries a `LastEvaluatedKey`, the last one does not.
   */
  predicate Chain(pages: seq<Page>) {
    && |pages| > 0
    && (forall i :: 0 <= i < |pages| - 1 ==> pages[i].lastEvaluatedKey.Some?)
    && pages[|pages| - 1].lastEvaluatedKey.None?
  }

  /** The items of the pages, page after page. */
  function Flatten(pages: seq<Page>): seq<Item> {
    if pages == [] then [] else Flatten(pages[..|pages| - 1]) + pages[|pages| - 1].items
  }

  /** An `update_item` request as the table receives it: the item's key, the update expression and the placeholder values. */
  datatype UpdateCall = UpdateCall(key: string, expression: string, values: map<string, Value>)

  /** The items whose `id` is `key`: the one stored under it, or none. */
  function ItemsWithId(items: map<string, Item>, key: string): (found: seq<Item>)
    ensures key in items ==> found == [items[key]]
    ensures key !in items ==> found == []
  {
    if key in items then [items[key]] else []
  }

  /** Whether `s` is a value placeholder `:name` of an update expression. */
  predicate IsPlaceholder(s: string) {
    |s| > 0 && s[0] == ':'
  }

  /** The attributes a `set name = :name, ...` update assigns: each placeholder's name, bound to its value. */
  function Assigned(values: map<string, Value>): (attributes: Item)
    ensures forall s :: s in values && IsPlaceholder(s) ==> s[1..] in attributes && attributes[s[1..]] == values[s]
    ensures forall a :: a in attributes ==> ":" + a in values
  {
    forall s, t | s in values && t in values && IsPlaceholder(s) && IsPlaceholder(t) && s[1..] == t[1..]
      ensures s == t
    {
      assert s == [s[0]] + s[1..];
      assert t == [t[0]] + t[1..];
    }
    var attributes := map s | s in values && IsPlaceholder(s) :: s[1..] := values[s];
    assert forall a :: a in attributes ==> ":" + a in values by {
      forall a | a in attributes ensures ":" + a in values {
        var s :| s in values && IsPlaceholder(s) && s[1..] == a;
        assert s == ":" + a;
      }
    }
    attributes
  }

  /**
   * The items after an update assigns `attributes` to the item under `key`:
   * the assigned attributes overwrite, the others stay, and an absent item is
   * created holding its key.
   */
  function AfterUpdate(items: map<string, Item>, key: string, attributes: Item): (after: map<string, Item>)
    ensures after.Keys == items.Keys + {key}
    ensures forall k :: k in items && k != key ==> after[k] == items[k]
    ensures forall a :: a in attributes ==> a in after[key] && after[key][a] == attributes[a]
    ensures key in items ==> forall a :: a in items[key] && a !in attributes ==> a in after[key] && after[key][a] == items[key][a]
    ensures key in items ==> after[key].Keys == items[key].Keys + attributes.Keys
    ensures key !in items ==> after[key].Keys == attributes.Keys + {"id"}
  {
    var current := if key in items then items[key] else map["id" := JStr(key)];
    items[key := current + attributes]
  }

  class Table {
    /** The items, by the value of their `id` attribute. */
    var items: map<string, Item>

    /** The update_item requests received so far, oldest first. */
    var updates: seq<UpdateCall>

    constructor (items: map<string, Item>)
      ensures this.items == items && updates == []
    {
      this.items := items;
      updates := [];
    }

    /** put_item(Item=item): the item replaces whatever was stored under its id. */
    method PutItem(item: Item)
      requires "id" in item && item["id"].JStr?
      modifies this
      ensures items == old(items)[item["id"].s := item]
      ensures updates == old(updates)
    {
      items := items[item["id"].s := item];
    }

    /**
     * update_item(Key={"id": key}, UpdateExpression=..., ExpressionAttributeValues=values,
     * ReturnValues="UPDATED_NEW"): the assigned attributes overwrite the stored ones,
     * the others stay; an absent item is created with its key. Returns the assigned
     * attributes with their new values.
     */
    method UpdateItem(key: string, expression: string, values: map<string, Value>) returns (updated: Item)
      modifies this
      ensures updated == Assigned(values)
      ensures items == AfterUpdate(old(items), key, updated)
      ensures updates == old(updates) + [UpdateCall(key, expression, values)]
    {
      updated := Assigned(values);
      items := AfterUpdate(items, key, updated);
      updates := updates + [UpdateCall(key, expression, values)];
    }

    /** delete_item(Key={"id": key}): no item is stored under the key afterwards; deleting an absent key is not an error. */
    method DeleteItem(key: string)
      modifies this
      ensures items == old(items) - {key}
      ensures updates == old(updates)
    {
      items := items - {key};
    }

    /** query(KeyConditionExpression=Key("id").eq(key)): the items whose id is the key. */
    method Query(key: string) returns (found: seq<Item>)
      ensures found == ItemsWithId(items, key)
    {
      found := if key in items then [items[key]] else [];
    }
  }
}
