/**
 * Model instances of the ORM: a dictionary of column values bound to a compiled schema,
 * with lazily resolved defaults, the argument vectors of `save`, `update` and `remove`,
 * `find`'s empty-result rule, and the `?` to `%s` rewrite applied before a statement
 * reaches the driver.
 */
module OrmModel {
  import opened Wrappers
  import opened Text
  import opened Values
  import opened OrmSchema

  datatype OrmError = KeyError(key: string) | AttributeError(key: string) | TypeError

  type Row = map<string, Value>

  /** `getattr(self, key, None)`: the stored value, `None` when the key is absent. */
  function Stored(values: Row, key: string): Value
  {
    if key in values then values[key] else Null
  }

  /** What `getValueOrDefault(key)` returns, and the instance's dictionary afterwards. */
  datatype Resolution = Resolution(value: Value, values: Row)

  /**
   * `getValueOrDefault` as evidently intended: a stored value other than `None` is returned
   * as is; otherwise a declared default (the factory's result when it is callable) is
   * stored and returned. A key without a field raises `KeyError`.
   */
  function Resolve(values: Row, mappings: map<string, Field>, key: string, call: nat -> Value): Result<Resolution, OrmError>
  {
    var v := Stored(values, key);
    if v != Null then Ok(Resolution(v, values))
    else if key !in mappings then Err(KeyError(key))
    else
      match mappings[key].default
      case Const(d) => if d == Null then Ok(Resolution(Null, values)) else Ok(Resolution(d, values[key := d]))
      case Factory(id) => Ok(Resolution(call(id), values[key := call(id)]))
  }

  /**
   * `getValueOrDefault` as written: on the default path, line 120 applies `%` to the
   * `None` that `logging.debug` returns, which raises `TypeError` before the default is stored.
   */
  function ResolveAsWritten(values: Row, mappings: map<string, Field>, key: string, call: nat -> Value): Result<Value, OrmError>
  {
    var v := Stored(values, key);
    if v != Null then Ok(v)
    else if key !in mappings then Err(KeyError(key))
    else if mappings[key].default == Const(Null) then Ok(Null)
    else Err(TypeError)
  }

  /** The values `save` and `update` read for `keys`, in order. */
  function Arguments(values: Row, keys: seq<string>): (r: seq<Value>)
    ensures |r| == |keys|
    ensures forall i :: 0 <= i < |keys| ==> r[i] == Stored(values, keys[i])
  {
    if |keys| == 0 then [] else [Stored(values, keys[0])] + Arguments(values, keys[1..])
  }

  /** The dictionary after resolving `keys` one after the other. */
  function FillDefaults(values: Row, mappings: map<string, Field>, keys: seq<string>, call: nat -> Value): Row
    requires forall k :: k in keys ==> k in mappings
  {
    if |keys| == 0 then values
    else
      var prev := FillDefaults(values, mappings, keys[..|keys| - 1], call);
      Resolve(prev, mappings, keys[|keys| - 1], call).value.values
  }

  /** The columns `save` and `update` pass, in template order: the other fields, then the key. */
  function SaveColumns(s: Schema): seq<string>
  {
    s.fields + [s.primaryKey]
  }

  /** The columns `save` walks are distinct and each has a field. */
  lemma SaveColumnsDistinct(s: Schema)
    requires SaveReady(s)
    ensures forall k :: k in SaveColumns(s) ==> k in s.mappings
    ensures forall a, b :: 0 <= a < b < |SaveColumns(s)| ==> SaveColumns(s)[a] != SaveColumns(s)[b]
  {
    var keys := SaveColumns(s);
    forall a, b | 0 <= a < b < |keys| ensures keys[a] != keys[b] {
      if b == |s.fields| {
        assert keys[a] in s.fields;
      }
    }
  }

  /** Resolving column `i` of `save` extends the filled dictionary and the argument vector by one. */
  lemma {:induction false} SaveStep(initial: Row, mappings: map<string, Field>, keys: seq<string>, i: nat, call: nat -> Value)
    requires i < |keys| && forall k :: k in keys ==> k in mappings
    requires forall a, b :: 0 <= a < b < |keys| ==> keys[a] != keys[b]
    ensures var prev := FillDefaults(initial, mappings, keys[..i], call);
      var res := Resolve(prev, mappings, keys[i], call).value;
      && FillDefaults(initial, mappings, keys[..i + 1], call) == res.values
      && Arguments(res.values, keys[..i + 1]) == Arguments(prev, keys[..i]) + [res.value]
  {
    assert keys[..i + 1][..i] == keys[..i];
    assert keys[..i + 1] == keys[..i] + [keys[i]];
    NotEarlier(keys, i);
    ResolveStep(FillDefaults(initial, mappings, keys[..i], call), mappings, keys[..i], keys[i], call);
  }

  lemma NotEarlier(keys: seq<string>, i: nat)
    requires i < |keys| && forall a, b :: 0 <= a < b < |keys| ==> keys[a] != keys[b]
    ensures keys[i] !in keys[..i]
  {
  }

  /** The columns `save` walks are distinct and each has a field: true of every compiled schema. */
  predicate SaveReady(s: Schema)
  {
    && s.primaryKey in s.mappings && s.primaryKey !in s.fields
    && (forall f :: f in s.fields ==> f in s.mappings)
    && (forall i, j :: 0 <= i < j < |s.fields| ==> s.fields[i] != s.fields[j])
  }

  lemma WellFormedSaveReady(s: Schema)
    requires WellFormed(s)
    ensures SaveReady(s)
  {
  }

  /** An instance of a compiled entity: `dict` of column values plus the class's schema. */
  class Model {
    const schema: Schema
    var values: Row

    /** `Model(**kw)`: the keyword arguments become the instance's dictionary. */
    constructor (schema: Schema, kw: Row)
      ensures this.schema == schema && values == kw
    {
      this.schema := schema;
      values := kw;
    }

    /** `__getattr__`: a stored key, or `AttributeError`. */
    function GetAttr(key: string): (r: Result<Value, OrmError>)
      reads this
      ensures r.Ok? <==> key in values
      ensures r.Ok? ==> r.value == values[key]
      ensures r.Err? ==> r.error == AttributeError(key)
    {
      if key in values then Ok(values[key]) else Err(AttributeError(key))
    }

    /** `__setattr__`: writes the key into the dictionary. */
    method SetAttr(key: string, value: Value)
      modifies this
      ensures values == old(values)[key := value]
    {
      values := values[key := value];
    }

    /** `getValue`: the stored value or `None`, never a default. */
    function GetValue(key: string): (v: Value)
      reads this
      ensures GetAttr(key).Ok? ==> v == GetAttr(key).value
      ensures GetAttr(key).Err? ==> v == Null
    {
      Stored(values, key)
    }

    /** `getValueOrDefault`, with `call(id)` standing for what the factory `id` returns. */
    method GetValueOrDefault(key: string, call: nat -> Value) returns (r: Result<Value, OrmError>)
      modifies this
      ensures var res := Resolve(old(values), schema.mappings, key, call);
        && (res.Err? ==> r == Err(res.error) && values == old(values))
        && (res.Ok? ==> r == Ok(res.value.value) && values == res.value.values)
    {
      var value := GetValue(key);
      if value == Null {
        if key !in schema.mappings {
          return Err(KeyError(key));
        }
        var field := schema.mappings[key];
        if field.default != Const(Null) {
          value := match field.default
            case Factory(id) => call(id)
            case Const(d) => d;
          SetAttr(key, value);
        }
      }
      r := Ok(value);
    }

    /**
     * The argument vector of `save`: each other field, then the key, through
     * `getValueOrDefault`. It equals what `update` would pass afterwards.
     */
    method SaveArgs(call: nat -> Value) returns (args: seq<Value>)
      requires SaveReady(schema)
      modifies this
      ensures values == FillDefaults(old(values), schema.mappings, SaveColumns(schema), call)
      ensures args == UpdateArgs()
    {
      var keys := SaveColumns(schema);
      SaveColumnsDistinct(schema);
      ghost var initial := values;
      args := [];
      var i := 0;
      while i < |keys|
        invariant 0 <= i <= |keys|
        invariant values == FillDefaults(initial, schema.mappings, keys[..i], call)
        invariant args == Arguments(values, keys[..i])
      {
        SaveStep(initial, schema.mappings, keys, i, call);
        var r := GetValueOrDefault(keys[i], call);
        args := args + [r.value];
        i := i + 1;
      }
      assert keys[..i] == keys;
    }

    /** The argument vector of `update`: the same columns through `getValue`, no default. */
    function UpdateArgs(): (r: seq<Value>)
      reads this
      ensures |r| == |schema.fields| + 1
      ensures forall i :: 0 <= i < |schema.fields| ==> r[i] == GetValue(schema.fields[i])
      ensures r[|schema.fields|] == GetValue(schema.primaryKey)
    {
      Arguments(values, SaveColumns(schema))
    }

    /** The argument vector of `remove`: the key's stored value alone. */
    function RemoveArgs(): (r: seq<Value>)
      reads this
      ensures r == [GetValue(schema.primaryKey)]
    {
      [GetValue(schema.primaryKey)]
    }
  }

  // ---------------------------------------------------------------- lemmas about defaults

  /** After resolution the dictionary holds the returned value (or `None` when nothing was stored), and only `key` changed. */
  lemma ResolveStores(values: Row, mappings: map<string, Field>, key: string, call: nat -> Value)
    requires Resolve(values, mappings, key, call).Ok?
    ensures var res := Resolve(values, mappings, key, call).value;
      && Stored(res.values, key) == res.value
      && forall k :: k != key ==> Stored(res.values, k) == Stored(values, k)
  {
  }

  /** Resolving one more key appends its value to the arguments already read and leaves them as they were. */
  lemma {:induction false} ResolveStep(values: Row, mappings: map<string, Field>, done: seq<string>, key: string, call: nat -> Value)
    requires key in mappings && key !in done
    ensures var res := Resolve(values, mappings, key, call).value;
      Arguments(res.values, done + [key]) == Arguments(values, done) + [res.value]
  {
    var res := Resolve(values, mappings, key, call).value;
    ResolveStores(values, mappings, key, call);
    forall i | 0 <= i < |done| ensures Stored(res.values, done[i]) == Stored(values, done[i]) {
      assert done[i] != key;
    }
  }

  /** A stored value other than `None` is returned unchanged and nothing is written. */
  lemma ResolveKeepsValue(values: Row, mappings: map<string, Field>, key: string, call: nat -> Value)
    requires Stored(values, key) != Null
    ensures Resolve(values, mappings, key, call) == Ok(Resolution(Stored(values, key), values))
  {
  }

  /** Resolving twice gives the same value and the second time writes nothing. */
  lemma ResolveIdempotent(values: Row, mappings: map<string, Field>, key: string, call: nat -> Value)
    requires Resolve(values, mappings, key, call).Ok?
    ensures var first := Resolve(values, mappings, key, call).value;
      Resolve(first.values, mappings, key, call) == Ok(first)
  {
    var first := Resolve(values, mappings, key, call).value;
    if Stored(values, key) == Null && mappings[key].default.Factory? {
      var id := mappings[key].default.id;
      assert first.values[key := call(id)] == first.values;
    }
  }

  /**
   * `save` fills every unset column whose field declares a default, keeps every value
   * already set, and touches no other key.
   */
  lemma {:induction false} FillDefaultsEffect(values: Row, mappings: map<string, Field>, keys: seq<string>, call: nat -> Value, k: string)
    requires forall c :: c in keys ==> c in mappings
    requires forall i, j :: 0 <= i < j < |keys| ==> keys[i] != keys[j]
    ensures var after := FillDefaults(values, mappings, keys, call);
      && (k !in keys ==> Stored(after, k) == Stored(values, k))
      && (k in keys && Stored(values, k) != Null ==> Stored(after, k) == Stored(values, k))
      && (k in keys && Stored(values, k) == Null && mappings[k].default.Const? ==>
            Stored(after, k) == mappings[k].default.value)
      && (k in keys && Stored(values, k) == Null && mappings[k].default.Factory? ==>
            Stored(after, k) == call(mappings[k].default.id))
  {
    if |keys| > 0 {
      var n := |keys| - 1;
      var init := keys[..n];
      assert forall c :: c in init ==> c in keys;
      FillDefaultsEffect(values, mappings, init, call, k);
      var prev := FillDefaults(values, mappings, init, call);
      ResolveStores(prev, mappings, keys[n], call);
      if k == keys[n] {
        assert k !in init;
      } else if k in keys {
        var i :| 0 <= i < |keys| && keys[i] == k;
        assert init[i] == k;
      }
    }
  }

  // ---------------------------------------------------------------- line 120 as written

  /** Where no default is used, the code as written and as intended agree. */
  lemma AsWrittenAgreesWithoutDefault(values: Row, mappings: map<string, Field>, key: string, call: nat -> Value)
    requires Stored(values, key) != Null || key !in mappings || mappings[key].default == Const(Null)
    ensures match Resolve(values, mappings, key, call)
      case Ok(res) => res.values == values && ResolveAsWritten(values, mappings, key, call) == Ok(res.value)
      case Err(e) => ResolveAsWritten(values, mappings, key, call) == Err(e)
  {
  }

  /** Whenever a default is used, the code as written raises `TypeError` instead of returning it. */
  lemma AsWrittenRaisesOnDefault(values: Row, mappings: map<string, Field>, key: string, call: nat -> Value)
    requires Stored(values, key) == Null && key in mappings && mappings[key].default != Const(Null)
    ensures ResolveAsWritten(values, mappings, key, call) == Err(TypeError)
    ensures Resolve(values, mappings, key, call).Ok?
  {
  }

  /**
   * A `User` built without an `id`, whose key field defaults to the `next_id` factory: as
   * written, resolving the key raises, where the intended code stores a fresh identifier.
   */
  lemma UserWithoutIdRaisesAsWritten(call: nat -> Value)
    ensures var mappings := map["id" := StringField(primaryKey := true, default := Factory(0))];
      var values := map["name" := Str("Test"), "email" := Str("test@example.com")];
      && ResolveAsWritten(values, mappings, "id", call) == Err(TypeError)
      && Resolve(values, mappings, "id", call) == Ok(Resolution(call(0), values["id" := call(0)]))
  {
  }

  // ---------------------------------------------------------------- templates and arguments

  /** `save`, `update` and `remove` pass exactly as many arguments as their templates have placeholders. */
  lemma ArgumentsFitTemplates(m: Model)
    requires WellFormed(m.schema)
    requires Unmarked(m.schema.table, m.schema.primaryKey, m.schema.fields, m.schema.mappings)
    ensures |m.UpdateArgs()| == Count('?', m.schema.insert) == Count('?', m.schema.update)
    ensures |m.RemoveArgs()| == Count('?', m.schema.delete)
  {
    SchemaPlaceholders(m.schema);
  }

  // ---------------------------------------------------------------- find, select, execute

  /** A statement with its arguments and an optional row limit, as handed to `select`. */
  datatype Query = Query(sql: string, args: seq<Value>, size: Option<nat>)

  /** `find(pk)`: the select template filtered on the key, one argument, at most one row. */
  function FindQuery(s: Schema, pk: Value): (q: Query)
    ensures q.args == [pk] && q.size == Some(1)
  {
    Query(s.select + " where `" + s.primaryKey + "`=?", [pk], Some(1))
  }

  /** `find`'s statement has exactly one placeholder, matching its one argument. */
  lemma FindPlaceholders(s: Schema, pk: Value)
    requires WellFormed(s) && Unmarked(s.table, s.primaryKey, s.fields, s.mappings)
    ensures Count('?', FindQuery(s, pk).sql) == |FindQuery(s, pk).args| == 1
  {
    SchemaPlaceholders(s);
    WhereTextCount();
    KeyMarkCount();
    CountAbsent('?', s.primaryKey);
    CountConcat('?', s.select, " where `");
    CountConcat('?', s.select + " where `", s.primaryKey);
    CountConcat('?', s.select + " where `" + s.primaryKey, "`=?");
  }

  /** `find`'s result: no row gives `None`, otherwise the instance built from the first row. */
  function FindResult(rows: seq<Row>): (r: Option<Row>)
    ensures r.None? <==> |rows| == 0
    ensures r.Some? ==> r.value == rows[0]
  {
    if |rows| == 0 then None else Some(rows[0])
  }

  /** `select`'s fetch: `fetchmany(size)` when `size` is truthy, else `fetchall()`. */
  function Fetch(rows: seq<Row>, size: Option<nat>): (r: seq<Row>)
    ensures r <= rows
    ensures size.Some? && size.value > 0 ==> |r| == if size.value < |rows| then size.value else |rows|
    ensures !(size.Some? && size.value > 0) ==> r == rows
  {
    if size.Some? && size.value > 0 && size.value < |rows| then rows[..size.value] else rows
  }

  /** `sql.replace('?', '%s')`. */
  function DriverSql(sql: string): string
  {
    if |sql| == 0 then ""
    else (if sql[0] == '?' then "%s" else [sql[0]]) + DriverSql(sql[1..])
  }

  /** `'%s'` back to `'?'`: the inverse of the rewrite on text without `%`. */
  function SchemaSql(sql: string): string
  {
    if |sql| == 0 then ""
    else if |sql| >= 2 && sql[..2] == "%s" then "?" + SchemaSql(sql[2..])
    else [sql[0]] + SchemaSql(sql[1..])
  }

  /** The rewrite leaves no `?` and turns every `?` into a `%`. */
  lemma {:induction false} DriverSqlMarks(sql: string)
    ensures '?' !in DriverSql(sql)
    ensures Count('%', DriverSql(sql)) == Count('%', sql) + Count('?', sql)
  {
    if |sql| > 0 {
      DriverSqlMarks(sql[1..]);
      var head := if sql[0] == '?' then "%s" else [sql[0]];
      CountConcat('%', head, DriverSql(sql[1..]));
      assert "%s"[1..] == "s";
      assert "s"[1..] == "";
    }
  }

  /** On text without `%` the rewrite is undone exactly: the substitution is purely textual. */
  lemma {:induction false} DriverSqlRoundTrip(sql: string)
    requires '%' !in sql
    ensures SchemaSql(DriverSql(sql)) == sql
  {
    if |sql| > 0 {
      assert '%' !in sql[1..];
      DriverSqlRoundTrip(sql[1..]);
      var rest := DriverSql(sql[1..]);
      if sql[0] == '?' {
        assert ("%s" + rest)[..2] == "%s";
        assert ("%s" + rest)[2..] == rest;
      } else {
        assert ([sql[0]] + rest)[0] == sql[0] && ([sql[0]] + rest)[1..] == rest;
      }
    }
  }
}
