/**
 * Values as the YAML parser and the message payload hand them over: PHP scalars
 * and arrays. A PHP array is either a list (keys 0..n-1) or a map with string
 * keys kept in insertion order.
 */
module Values {
  import opened Wrappers

  datatype Value =
    | Null
    | Bool(b: bool)
    | Int(i: int)
    | Str(s: string)
    | List(items: seq<Value>)
    | Map(entries: seq<(string, Value)>)

  /** PHP `is_array`. */
  predicate IsArray(v: Value)
  {
    v.List? || v.Map?
  }

  /** The entry stored under `key` in a map (a list has only integer keys). */
  function Lookup(v: Value, key: string): Option<Value>
  {
    match v
    case Map(entries) => LookupEntry(entries, key)
    case _ => None
  }

  function LookupEntry(entries: seq<(string, Value)>, key: string): Option<Value>
    decreases |entries|
  {
    if entries == [] then None
    else if entries[0].0 == key then Some(entries[0].1)
    else LookupEntry(entries[1..], key)
  }

  /** A PHP array never holds a key twice. */
  predicate DistinctKeys(entries: seq<(string, Value)>)
  {
    forall i, j :: 0 <= i < j < |entries| ==> entries[i].0 != entries[j].0
  }

  /** Looking a key up in a map extended at its end: the earlier entries first, then the new one. */
  lemma {:induction false} LookupEntrySnoc(entries: seq<(string, Value)>, entry: (string, Value), key: string)
    ensures LookupEntry(entries + [entry], key)
      == if LookupEntry(entries, key).Some? then LookupEntry(entries, key)
         else if entry.0 == key then Some(entry.1) else None
    decreases |entries|
  {
    if entries == [] {
      assert [entry][1..] == [];
    } else {
      assert (entries + [entry])[1..] == entries[1..] + [entry];
      LookupEntrySnoc(entries[1..], entry, key);
    }
  }

  /** A key is found exactly when some entry carries it. */
  lemma {:induction false} LookupEntryFound(entries: seq<(string, Value)>, key: string)
    ensures LookupEntry(entries, key).Some? <==> exists i :: 0 <= i < |entries| && entries[i].0 == key
    decreases |entries|
  {
    if entries != [] {
      LookupEntryFound(entries[1..], key);
      if LookupEntry(entries[1..], key).Some? {
        var i :| 0 <= i < |entries[1..]| && entries[1..][i].0 == key;
        assert entries[i + 1].0 == key;
      }
      if exists i :: 0 <= i < |entries| && entries[i].0 == key {
        var i :| 0 <= i < |entries| && entries[i].0 == key;
        if i > 0 {
          assert entries[1..][i - 1].0 == key;
        }
      }
    }
  }

  /** PHP `array_key_exists(key, v)` together with `is_array(v)`. */
  predicate HasKey(v: Value, key: string)
  {
    Lookup(v, key).Some?
  }

  /** PHP `$v[key] ?? null`: the entry, or null when it is absent or `v` is no array. */
  function Coalesce(v: Value, key: string): Value
  {
    match Lookup(v, key)
    case Some(x) => x
    case None => Null
  }

  /** The values of an array in order (what `foreach ($v as $x)` visits). */
  function ArrayValues(v: Value): seq<Value>
  {
    match v
    case List(items) => items
    case Map(entries) => seq(|entries|, i requires 0 <= i < |entries| => entries[i].1)
    case _ => []
  }

  /** A message payload: string keys to arbitrary values, `null` values allowed. */
  type Payload = map<string, Value>

  /** Presence as the required-key check sees it (`array_key_exists`): a null value counts. */
  predicate KeyExists(payload: Payload, key: string)
  {
    key in payload
  }

  /** Presence as the query/body projection sees it (`isset`): a null value does not count. */
  predicate HasNonNullValue(payload: Payload, key: string)
  {
    key in payload && payload[key] != Null
  }

  /** A non-null value is also present; the converse fails exactly on null values. */
  lemma PresenceSemanticsDiffer(payload: Payload, key: string)
    ensures HasNonNullValue(payload, key) ==> KeyExists(payload, key)
    ensures KeyExists(payload, key) && !HasNonNullValue(payload, key) <==> key in payload && payload[key] == Null
  {
  }

  /** Decimal text of an integer, as PHP interpolates an int into a string. */
  function IntToString(i: int): string
  {
    if i < 0 then "-" + NatToString(-i) else NatToString(i)
  }

  function NatToString(n: nat): string
    decreases n
  {
    if n < 10 then [DigitChar(n)] else NatToString(n / 10) + [DigitChar(n % 10)]
  }

  function DigitChar(d: nat): char
    requires d < 10
  {
    "0123456789"[d]
  }
}
