/**
 * Loading the application settings: the saved configuration is merged over
 * the defaults (top-level fields replaced, the broker section merged field
 * by field), the legacy `apiKeys` pair is folded into the single `apiKey`,
 * and anything that makes loading throw gives the defaults.
 *
 * The browser storage is a parameter: the saved text is given already
 * parsed, or as unparsable.
 */
module Settings {
  import opened Common

  /** A JSON value; an object is a map from its keys to their values (key
      order is not modelled). */
  datatype Json =
    | JNull
    | JBool(b: bool)
    | JNum(x: real)
    | JStr(s: string)
    | JArray(items: seq<Json>)
    | JObject(fields: map<string, Json>)

  /** What storage holds: nothing (or an empty string), text that
      `JSON.parse` rejects, or a parsed value. */
  datatype Saved = NoSaved | Unparsable | Parsed(value: Json)

  /** JavaScript truthiness of a JSON value. */
  predicate Truthy(v: Json)
  {
    match v
    case JNull => false
    case JBool(b) => b
    case JNum(x) => x != 0.0
    case JStr(s) => s != ""
    case JArray(_) => true
    case JObject(_) => true
  }

  function DigitChar(d: nat): char
    requires d < 10
  {
    "0123456789"[d]
  }

  /** The decimal numeral of `n`, as JavaScript writes an array index. */
  function DecimalString(n: nat): string
  {
    if n < 10 then [DigitChar(n)] else DecimalString(n / 10) + [DigitChar(n % 10)]
  }

  /** The own properties of an array or string: its indices. */
  function Indexed(values: seq<Json>): map<string, Json>
  {
    if values == [] then map[]
    else Indexed(values[..|values| - 1])[DecimalString(|values| - 1) := values[|values| - 1]]
  }

  function Characters(s: string): seq<Json>
  {
    if s == "" then [] else [JStr([s[0]])] + Characters(s[1..])
  }

  /** `{...v}`: the own enumerable properties of `v`; null, booleans and
      numbers have none. */
  function Spread(v: Json): map<string, Json>
  {
    match v
    case JObject(fields) => fields
    case JArray(items) => Indexed(items)
    case JStr(s) => Indexed(Characters(s))
    case _ => map[]
  }

  /** Reading property `key` of a value that is not null: an object's own
      field, undefined (None) otherwise. Only index keys would be found on
      arrays and strings, and the keys read here are not indices. */
  function Property(v: Json, key: string): Option<Json>
  {
    if v.JObject? && key in v.fields then Some(v.fields[key]) else None
  }

  /** `v || {}` for a property read. */
  function OrEmptyObject(v: Option<Json>): Json
  {
    if v.Some? && Truthy(v.value) then v.value else JObject(map[])
  }

  const DefaultBroker: map<string, Json> := map[
    "accountType" := JStr("demo"),
    "apiKey" := JStr(""),
    "status" := JStr("disconnected"),
    "lastConnection" := JNull,
    "accountInfo" := JNull,
    "balance" := JNull]

  const DefaultNotifications: map<string, Json> := map["email" := JBool(true), "push" := JBool(false), "sms" := JBool(false)]

  const DefaultAlerts: map<string, Json> :=
    map["highVolatility" := JBool(true), "systemErrors" := JBool(true), "tradeExecutions" := JBool(true)]

  const Defaults: map<string, Json> := map[
    "theme" := JStr("dark"),
    "language" := JStr("pt"),
    "notifications" := JObject(DefaultNotifications),
    "broker" := JObject(DefaultBroker),
    "alerts" := JObject(DefaultAlerts)]

  /** The broker section before migration: the default broker fields, with
      the saved broker's fields over them. */
  function MergedBroker(parsed: Json): map<string, Json>
  {
    DefaultBroker + Spread(OrEmptyObject(Property(parsed, "broker")))
  }

  /** `apiKeys.demo || apiKeys.real || ''`. */
  function LegacyKey(apiKeys: Json): Json
  {
    var demo := Property(apiKeys, "demo");
    var live := Property(apiKeys, "real");
    if demo.Some? && Truthy(demo.value) then demo.value
    else if live.Some? && Truthy(live.value) then live.value
    else JStr("")
  }

  /** A truthy legacy `apiKeys` becomes `apiKey` and is deleted; a falsy one
      is left where it is. */
  function Migrated(broker: map<string, Json>): map<string, Json>
  {
    if "apiKeys" in broker && Truthy(broker["apiKeys"]) then
      broker["apiKey" := LegacyKey(broker["apiKeys"])] - {"apiKeys"}
    else broker
  }

  /** The configuration the provider starts with. An unparsable text and a
      saved `null` (whose `broker` property cannot be read) both throw
      inside the loader, which then returns the defaults. */
  function Loaded(saved: Saved): map<string, Json>
  {
    match saved
    case Unparsable => Defaults
    case NoSaved => Finish(JObject(map[]))
    case Parsed(v) => if v.JNull? then Defaults else Finish(v)
  }

  function Finish(parsed: Json): map<string, Json>
  {
    (Defaults + Spread(parsed))["broker" := JObject(Migrated(MergedBroker(parsed)))]
  }

  /** The loader as written: the merge, then the migration, which changes
      the broker object of the merged configuration in place. */
  method LoadConfig(saved: Saved) returns (config: map<string, Json>)
    ensures config == Loaded(saved)
  {
    if saved.Unparsable? {
      return Defaults;
    }
    var parsed := if saved.NoSaved? then JObject(map[]) else saved.value;
    if parsed.JNull? {
      return Defaults;
    }
    var broker := DefaultBroker + Spread(OrEmptyObject(Property(parsed, "broker")));
    config := (Defaults + Spread(parsed))["broker" := JObject(broker)];
    if "apiKeys" in broker && Truthy(broker["apiKeys"]) {
      broker := broker["apiKey" := LegacyKey(broker["apiKeys"])];
      broker := broker - {"apiKeys"};
      config := config["broker" := JObject(broker)];
    }
  }

  /** With nothing saved, and whenever loading throws, the configuration is
      exactly the defaults. */
  lemma NothingSavedGivesDefaults()
    ensures Loaded(NoSaved) == Defaults
    ensures Loaded(Unparsable) == Defaults
    ensures Loaded(Parsed(JNull)) == Defaults
  {
    var empty := JObject(map[]);
    assert Spread(empty) == map[];
    assert Defaults + map[] == Defaults;
    assert OrEmptyObject(Property(empty, "broker")) == empty;
    assert MergedBroker(empty) == DefaultBroker;
    assert "apiKeys" !in DefaultBroker;
    assert Migrated(DefaultBroker) == DefaultBroker;
    assert Defaults["broker" := JObject(DefaultBroker)] == Defaults;
  }

  /** A saved top-level field replaces the default one whole; a section the
      save leaves out keeps its default; only the broker is rebuilt. */
  lemma TopLevelOverride(saved: map<string, Json>, key: string)
    requires key != "broker"
    ensures key in Loaded(Parsed(JObject(saved))) <==> key in saved || key in Defaults
    ensures key in saved ==> Loaded(Parsed(JObject(saved)))[key] == saved[key]
    ensures key !in saved && key in Defaults ==> Loaded(Parsed(JObject(saved)))[key] == Defaults[key]
  {
  }

  /** The loaded broker section is an object that has every default broker
      field; a field other than the two key fields has its saved value when
      the saved broker has one, and its default otherwise. */
  lemma BrokerMergedFieldByField(parsed: Json, key: string)
    requires !parsed.JNull?
    requires key != "apiKey" && key != "apiKeys"
    ensures "broker" in Loaded(Parsed(parsed)) && Loaded(Parsed(parsed))["broker"].JObject?
    ensures var broker := Loaded(Parsed(parsed))["broker"].fields;
      && (forall k :: k in DefaultBroker ==> k in broker)
      && (key in Spread(OrEmptyObject(Property(parsed, "broker"))) ==>
            key in broker && broker[key] == Spread(OrEmptyObject(Property(parsed, "broker")))[key])
      && (key !in Spread(OrEmptyObject(Property(parsed, "broker"))) && key in DefaultBroker ==>
            key in broker && broker[key] == DefaultBroker[key])
  {
  }

  /** The migration: a truthy legacy `apiKeys` sets `apiKey` to its `demo`
      key, else its `real` key, else the empty string, over any saved
      `apiKey`, and is removed; without one, `apiKey` is the saved one or
      the default empty string. A legacy `apiKeys` that survives loading is
      always falsy. */
  lemma ApiKeyMigration(parsed: Json)
    requires !parsed.JNull?
    ensures var merged := MergedBroker(parsed);
      var broker := Loaded(Parsed(parsed))["broker"].fields;
      && (("apiKeys" in merged && Truthy(merged["apiKeys"])) ==>
            ("apiKeys" !in broker && broker["apiKey"] == LegacyKey(merged["apiKeys"])))
      && (!("apiKeys" in merged && Truthy(merged["apiKeys"])) ==> broker == merged)
      && ("apiKeys" in broker ==> !Truthy(broker["apiKeys"]))
      && "apiKey" in broker
  {
    var merged := MergedBroker(parsed);
    assert Loaded(Parsed(parsed))["broker"] == JObject(Migrated(merged));
    assert "apiKey" in DefaultBroker && "apiKey" in merged;
  }

  /** The legacy key prefers the demo token, then the real one. */
  lemma LegacyKeyChoice(demo: Json, live: Json)
    ensures Truthy(demo) ==> LegacyKey(JObject(map["demo" := demo, "real" := live])) == demo
    ensures !Truthy(demo) && Truthy(live) ==> LegacyKey(JObject(map["demo" := demo, "real" := live])) == live
    ensures !Truthy(demo) && !Truthy(live) ==> LegacyKey(JObject(map["demo" := demo, "real" := live])) == JStr("")
  {
  }

  /** Array indices are written without leading zeros, so index 12 is the
      key "12". */
  lemma DecimalStringExample()
    ensures DecimalString(12) == "12" && DecimalString(7) == "7"
  {
    assert DecimalString(1) == "1";
  }

  /** Distinct indices are written differently. */
  lemma {:induction false} DecimalStringInjective(a: nat, b: nat)
    requires DecimalString(a) == DecimalString(b)
    ensures a == b
  {
    if a >= 10 && b >= 10 {
      var sa := DecimalString(a);
      assert sa[..|sa| - 1] == DecimalString(a / 10);
      assert DecimalString(b)[..|sa| - 1] == DecimalString(b / 10);
      DecimalStringInjective(a / 10, b / 10);
      assert DigitChar(a % 10) == DigitChar(b % 10);
    }
  }

  /** The own properties of a spread array are exactly its indices written
      as decimal numerals, each holding the element at that index. */
  lemma {:induction false} IndexedSpec(values: seq<Json>)
    ensures forall i :: 0 <= i < |values| ==>
      DecimalString(i) in Indexed(values) && Indexed(values)[DecimalString(i)] == values[i]
    ensures forall k :: k in Indexed(values) ==> exists i :: 0 <= i < |values| && DecimalString(i) == k
  {
    if values != [] {
      var init := values[..|values| - 1];
      var last := |values| - 1;
      var before := Indexed(init);
      assert Indexed(values) == before[DecimalString(last) := values[last]];
      IndexedSpec(init);
      forall i | 0 <= i < |values|
        ensures DecimalString(i) in Indexed(values) && Indexed(values)[DecimalString(i)] == values[i]
      {
        if i < last {
          if DecimalString(i) == DecimalString(last) {
            DecimalStringInjective(i, last);
          }
          assert init[i] == values[i];
        }
      }
      forall k | k in Indexed(values)
        ensures exists i :: 0 <= i < |values| && DecimalString(i) == k
      {
        if k != DecimalString(last) {
          var i :| 0 <= i < |init| && DecimalString(i) == k;
          assert 0 <= i < |values|;
        }
      }
    }
  }
}
