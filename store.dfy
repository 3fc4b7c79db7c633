/** The DynamoDB tables the handlers write, as boto3's `Table` resource and the
    service behave for the three calls the handlers make: `put_item`,
    `update_item` with an `ADD` expression, and `get_item`. A table is a map
    from its (partition key, sort key) pair to the item stored there. */
module Store {
  import opened Common

  /** An attribute value as DynamoDB stores it. */
  datatype Attr =
    | S(s: string)
    | N(n: real)
    | BOOL(b: bool)
    | NULL
    | L(items: seq<Attr>)
    | M(fields: map<string, Attr>)

  type Item = map<string, Attr>

  /** The values of an item's partition key and sort key. */
  type Key = (string, string)

  /** The names of a table's two key attributes and of the other attributes
      its global secondary indexes are keyed on, all of string type. */
  datatype Schema = Schema(partitionKey: string, sortKey: string, indexKeys: set<string>)

  /** The monthly usage table, keyed by user and month bucket. */
  const MonthlyUsageSchema := Schema("userArn", "month_year", {})

  /** The transactions table, keyed by user and timestamp, with indexes on
      the month bucket and on the model id. */
  const TransactionsSchema := Schema("userArn", "timestamp", {"month_year", "model_id"})

  datatype StoreError =
    | NotSerializable      // boto3 refuses a float or an over-long int before any request is sent
    | MissingKey           // an item that lacks one of the key attributes
    | KeyTypeMismatch      // a key attribute that is not a string
    | EmptyKey             // a key attribute holding the empty string
    | KeyMismatch          // a Key argument whose attribute names differ from the schema's
    | KeyAttributeUpdated  // an ADD that names a key attribute
    | NonNumericOperand    // an ADD to an attribute that holds something other than a number
    | IndexKeyInvalid      // an index key attribute that is not a non-empty string, or an ADD to one

  /** 10^38: boto3 converts an int to a number in a decimal context of 38
      digits that traps rounding, so an int of 39 or more digits is refused. */
  const NumberDigitsLimit: int := 100000000000000000000000000000000000000

  /** boto3 serialises every Python value except a float (TypeError) and an
      int of more than 38 digits (decimal.Rounded). */
  predicate Serializable(v: Value) {
    match v
    case Float(_) => false
    case Int(i) => -NumberDigitsLimit < i < NumberDigitsLimit
    case List(items) => forall i :: 0 <= i < |items| ==> Serializable(items[i])
    case Dict(fields) => forall k :: k in fields ==> Serializable(fields[k])
    case _ => true
  }

  /** boto3's TypeSerializer: int and Decimal become numbers, None NULL. */
  function Serialize(v: Value): (a: Attr)
    requires Serializable(v)
    ensures v.Str? <==> a.S?
    ensures v.Str? ==> a == S(v.s)
  {
    match v
    case Null => NULL
    case Bool(b) => BOOL(b)
    case Int(i) => N(i as real)
    case Decimal(d) => N(d)
    case Str(s) => S(s)
    case List(items) => L(seq(|items|, i requires 0 <= i < |items| => Serialize(items[i])))
    case Dict(fields) => M(map k | k in fields :: Serialize(fields[k]))
  }

  function SerializeItem(item: map<string, Value>): (r: Result<Item, StoreError>)
    ensures r.Ok? <==> forall n :: n in item ==> Serializable(item[n])
    ensures r.Ok? ==> r.value.Keys == item.Keys
    ensures r.Ok? ==> forall n :: n in item ==> r.value[n] == Serialize(item[n])
    ensures r.Err? ==> r.error == NotSerializable
  {
    if forall n :: n in item ==> Serializable(item[n])
    then Ok(map n | n in item :: Serialize(item[n]))
    else Err(NotSerializable)
  }

  /** The key of an item about to be stored: both key attributes must be
      present, of string type and non-empty. */
  function KeyOf(schema: Schema, item: Item): (r: Result<Key, StoreError>)
    ensures r.Ok? <==>
      && schema.partitionKey in item && item[schema.partitionKey].S? && item[schema.partitionKey].s != ""
      && schema.sortKey in item && item[schema.sortKey].S? && item[schema.sortKey].s != ""
    ensures r.Ok? ==> item[schema.partitionKey] == S(r.value.0) && item[schema.sortKey] == S(r.value.1)
  {
    var pk, sk := schema.partitionKey, schema.sortKey;
    if pk !in item || sk !in item then Err(MissingKey)
    else if !item[pk].S? || !item[sk].S? then Err(KeyTypeMismatch)
    else if item[pk].s == "" || item[sk].s == "" then Err(EmptyKey)
    else Ok((item[pk].s, item[sk].s))
  }

  /** The key named by the `Key=` argument of `update_item` and `get_item`,
      which must hold exactly the schema's two attributes. */
  function KeyArgument(schema: Schema, key: map<string, Value>): (r: Result<Key, StoreError>)
    ensures r.Ok? ==> key.Keys == {schema.partitionKey, schema.sortKey}
    ensures r.Ok? ==> key[schema.partitionKey] == Str(r.value.0) && key[schema.sortKey] == Str(r.value.1)
    ensures r.Ok? ==> r.value.0 != "" && r.value.1 != ""
    ensures key.Keys == {schema.partitionKey, schema.sortKey}
            && key[schema.partitionKey].Str? && key[schema.partitionKey].s != ""
            && key[schema.sortKey].Str? && key[schema.sortKey].s != ""
            ==> r == Ok((key[schema.partitionKey].s, key[schema.sortKey].s))
  {
    var a :- SerializeItem(key);
    if key.Keys != {schema.partitionKey, schema.sortKey} then Err(KeyMismatch)
    else KeyOf(schema, a)
  }

  /** What one handler call writes: the transaction item, the key of the
      monthly record, and the amounts ADDed to it. */
  datatype Writes = Writes(transaction: map<string, Value>, monthlyKey: map<string, Value>, increments: map<string, real>)

  /** The body `{"ok": true}` both recording handlers answer with, status 200. */
  const Acknowledged := Dict(map["ok" := Bool(true)])

  /** How a handler invocation ends when it does not return: a Python
      exception raised by the handler itself, or a request the table refused. */
  datatype Failure = Raised(exception: PyError) | Rejected(reason: StoreError)

  /** Every stored item carries its own key. */
  ghost predicate WellKeyed(schema: Schema, items: map<Key, Item>) {
    forall k :: k in items ==> KeyOf(schema, items[k]) == Ok(k)
  }

  /** An item may leave out an index key attribute, but one it holds must be
      a non-empty string. */
  predicate IndexKeysValid(schema: Schema, item: Item) {
    forall n :: n in schema.indexKeys && n in item ==> item[n].S? && item[n].s != ""
  }

  /** `put_item`: the item replaces whatever was stored under its key. */
  function Put(schema: Schema, items: map<Key, Item>, item: map<string, Value>): (r: Result<map<Key, Item>, StoreError>)
    ensures r.Ok? <==> && SerializeItem(item).Ok? && KeyOf(schema, SerializeItem(item).value).Ok?
                       && IndexKeysValid(schema, SerializeItem(item).value)
    ensures r.Ok? ==>
      var k := KeyOf(schema, SerializeItem(item).value).value;
      && r.value.Keys == items.Keys + {k}
      && r.value[k] == SerializeItem(item).value
      && forall k' :: k' in items && k' != k ==> r.value[k'] == items[k']
  {
    var stored :- SerializeItem(item);
    var k :- KeyOf(schema, stored);
    if !IndexKeysValid(schema, stored) then Err(IndexKeyInvalid)
    else Ok(items[k := stored])
  }

  /** The numeric value of attribute `name`, zero when it is absent (ADD
      refuses an attribute that holds anything but a number). */
  function NumberOr0(item: Item, name: string): real {
    if name in item && item[name].N? then item[name].n else 0.0
  }

  /** The item an update starts from: the stored one, or just its key. */
  function Current(schema: Schema, items: map<Key, Item>, k: Key): Item {
    if k in items then items[k] else map[schema.partitionKey := S(k.0), schema.sortKey := S(k.1)]
  }

  /** `ADD name :delta` for every pair in `deltas`, applied to one item. */
  function Added(base: Item, deltas: map<string, real>): (r: Item)
    requires forall n :: n in deltas && n in base ==> base[n].N?
    ensures r.Keys == base.Keys + deltas.Keys
    ensures forall n :: n in deltas ==> r[n] == N(NumberOr0(base, n) + deltas[n])
    ensures forall n :: n in base && n !in deltas ==> r[n] == base[n]
  {
    map n | n in base.Keys + deltas.Keys :: if n in deltas then N(NumberOr0(base, n) + deltas[n]) else base[n]
  }

  /** `update_item` with `ADD`: each named number grows by its delta, an
      absent attribute counting as zero and an absent item as an empty one. */
  function Add(schema: Schema, items: map<Key, Item>, key: map<string, Value>, deltas: map<string, real>)
    : (r: Result<map<Key, Item>, StoreError>)
    ensures r.Ok? ==> KeyArgument(schema, key).Ok?
    ensures r.Ok? ==> schema.partitionKey !in deltas && schema.sortKey !in deltas
    ensures r.Ok? ==> forall n :: n in deltas ==> n !in schema.indexKeys
    ensures r.Ok? ==>
      var k := KeyArgument(schema, key).value;
      var base := Current(schema, items, k);
      && (forall n :: n in deltas && n in base ==> base[n].N?)
      && r.value.Keys == items.Keys + {k}
      && r.value[k] == Added(base, deltas)
      && forall k' :: k' in items && k' != k ==> r.value[k'] == items[k']
    ensures KeyArgument(schema, key).Ok? && schema.partitionKey !in deltas && schema.sortKey !in deltas
            && (forall n :: n in deltas ==> n !in schema.indexKeys)
            && (forall n :: n in deltas && n in Current(schema, items, KeyArgument(schema, key).value)
                  ==> Current(schema, items, KeyArgument(schema, key).value)[n].N?)
            ==> r.Ok?
  {
    var k :- KeyArgument(schema, key);
    if schema.partitionKey in deltas || schema.sortKey in deltas then Err(KeyAttributeUpdated)
    else if exists n :: n in deltas && n in schema.indexKeys then Err(IndexKeyInvalid)
    else
      var base := Current(schema, items, k);
      if exists n :: n in deltas && n in base && !base[n].N? then Err(NonNumericOperand)
      else Ok(items[k := Added(base, deltas)])
  }

  /** `get_item`: the stored item, or None when there is none. */
  function Get(schema: Schema, items: map<Key, Item>, key: map<string, Value>): (r: Result<Option<Item>, StoreError>)
    ensures r.Ok? <==> KeyArgument(schema, key).Ok?
    ensures r.Ok? ==> var k := KeyArgument(schema, key).value;
      r.value == if k in items then Some(items[k]) else None
  {
    var k :- KeyArgument(schema, key);
    Ok(if k in items then Some(items[k]) else None)
  }

  /** What a successful ADD leaves under the key it names: every named
      attribute grown by its delta from the item's previous value or zero,
      and every other key's item unchanged. */
  lemma AddedUnder(schema: Schema, items: map<Key, Item>, key: map<string, Value>, deltas: map<string, real>, k: Key)
    requires Add(schema, items, key, deltas).Ok? && KeyArgument(schema, key) == Ok(k)
    ensures var r := Add(schema, items, key, deltas).value;
      var base := Current(schema, items, k);
      && r.Keys == items.Keys + {k}
      && (forall n :: n in deltas ==> n in r[k] && r[k][n] == N(NumberOr0(base, n) + deltas[n]))
      && forall k' :: k' in items && k' != k ==> r[k'] == items[k']
  {
  }

  lemma PutKeepsWellKeyed(schema: Schema, items: map<Key, Item>, item: map<string, Value>)
    requires WellKeyed(schema, items) && Put(schema, items, item).Ok?
    ensures WellKeyed(schema, Put(schema, items, item).value)
  {
  }

  lemma AddKeepsWellKeyed(schema: Schema, items: map<Key, Item>, key: map<string, Value>, deltas: map<string, real>)
    requires schema.partitionKey != schema.sortKey
    requires WellKeyed(schema, items) && Add(schema, items, key, deltas).Ok?
    ensures WellKeyed(schema, Add(schema, items, key, deltas).value)
  {
    var k := KeyArgument(schema, key).value;
    var base := Current(schema, items, k);
    assert KeyOf(schema, base) == Ok(k);
    assert KeyOf(schema, Added(base, deltas)) == Ok(k);
  }

  /** Every stored item holds at least its key attributes, so Python sees it as truthy. */
  lemma StoredItemsNonEmpty(schema: Schema, items: map<Key, Item>, k: Key)
    requires WellKeyed(schema, items) && k in items
    ensures schema.partitionKey in items[k] && items[k] != map[]
  {
    assert KeyOf(schema, items[k]) == Ok(k);
  }

  /** A DynamoDB table as the boto3 `Table` resource exposes it. */
  class Table {
    const schema: Schema
    var items: map<Key, Item>

    ghost predicate Valid()
      reads this
    {
      schema.partitionKey != schema.sortKey && WellKeyed(schema, items)
    }

    constructor (schema: Schema)
      requires schema.partitionKey != schema.sortKey
      ensures this.schema == schema && items == map[] && Valid()
    {
      this.schema := schema;
      items := map[];
    }

    method PutItem(item: map<string, Value>) returns (err: Option<StoreError>)
      requires Valid()
      modifies this
      ensures Valid()
      ensures match Put(schema, old(items), item)
        case Ok(t) => err == None && items == t
        case Err(e) => err == Some(e) && items == old(items)
    {
      var r := Put(schema, items, item);
      if r.Ok? {
        PutKeepsWellKeyed(schema, items, item);
        items := r.value;
        err := None;
      } else {
        err := Some(r.error);
      }
    }

    method UpdateItem(key: map<string, Value>, deltas: map<string, real>) returns (err: Option<StoreError>)
      requires Valid()
      modifies this
      ensures Valid()
      ensures match Add(schema, old(items), key, deltas)
        case Ok(t) => err == None && items == t
        case Err(e) => err == Some(e) && items == old(items)
    {
      var r := Add(schema, items, key, deltas);
      if r.Ok? {
        AddKeepsWellKeyed(schema, items, key, deltas);
        items := r.value;
        err := None;
      } else {
        err := Some(r.error);
      }
    }

    function GetItem(key: map<string, Value>): (r: Result<Option<Item>, StoreError>)
      reads this
      ensures r.Ok? <==> KeyArgument(schema, key).Ok?
      ensures r.Ok? ==> (r.value.Some? <==> KeyArgument(schema, key).value in items)
      ensures r.Ok? && r.value.Some? ==> r.value.value == items[KeyArgument(schema, key).value]
    {
      Get(schema, items, key)
    }
  }
}
