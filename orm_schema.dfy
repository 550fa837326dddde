/**
 * The mapping compiler of the ORM: `Field` descriptors, the field subclasses'
 * constructor defaults, `create_args_string`, and `ModelMetaclass.__new__`,
 * which turns an ordered class body into a table schema with four SQL templates.
 */
module OrmSchema {
  import opened Wrappers
  import opened Text
  import opened Values

  /** A field's default: a plain value (`Const(Null)` is Python's `None`, i.e. no default) or a zero-argument factory. */
  datatype Default = Const(value: Value) | Factory(id: nat)

  /** `Field(name, column_type, primary_key, default)`; `name` is `None` unless given. */
  datatype Field = Field(name: Option<string>, columnType: string, primaryKey: bool, default: Default)

  /** An entry of a class body: a `Field` descriptor or any other class attribute. */
  datatype Attr = FieldAttr(field: Field) | Plain(value: Value)

  type ClassBody = seq<(string, Attr)>

  datatype CompileError = DuplicatePrimaryKey(key: string) | PrimaryKeyNotFound

  /** The class attributes `__new__` adds: `__table__`, `__primary_key__`, `__fields__`, `__mappings__` and the templates. */
  datatype Schema = Schema(
    table: string,
    primaryKey: string,
    fields: seq<string>,
    mappings: map<string, Field>,
    select: string,
    insert: string,
    update: string,
    delete: string)

  /** What `__new__` hands to `type.__new__`: the base class body untouched, or an entity's remaining attributes plus its schema. */
  datatype Compiled = BaseModel(attrs: ClassBody) | Entity(schema: Schema, rest: ClassBody)

  function Message(e: CompileError): string
  {
    match e
    case DuplicatePrimaryKey(k) => "Duplicate primary key for field: " + k
    case PrimaryKeyNotFound => "Primary key not found."
  }

  // ---------------------------------------------------------------- field subclasses

  function StringField(name: Option<string> := None, primaryKey: bool := false,
                       default: Default := Const(Null), ddl: string := "varchar(100)"): (f: Field)
    ensures f.columnType == ddl && f.primaryKey == primaryKey && f.name == name && f.default == default
  {
    Field(name, ddl, primaryKey, default)
  }

  function BooleanField(name: Option<string> := None, default: Default := Const(Bool(false))): (f: Field)
    ensures f.columnType == "boolean" && !f.primaryKey && f.name == name && f.default == default
  {
    Field(name, "boolean", false, default)
  }

  function IntegerField(name: Option<string> := None, primaryKey: bool := false,
                        default: Default := Const(Int(0))): (f: Field)
    ensures f.columnType == "bigint" && f.primaryKey == primaryKey && f.name == name && f.default == default
  {
    Field(name, "bigint", primaryKey, default)
  }

  function FloatField(name: Option<string> := None, primaryKey: bool := false, default: Default): (f: Field)
    ensures f.columnType == "real" && f.primaryKey == primaryKey && f.name == name && f.default == default
  {
    Field(name, "real", primaryKey, default)
  }

  function TextField(name: Option<string> := None, default: Default := Const(Null)): (f: Field)
    ensures f.columnType == "text" && !f.primaryKey && f.name == name && f.default == default
  {
    Field(name, "text", false, default)
  }

  /** What each field constructor gives when called without arguments. */
  lemma FieldConstructorDefaults()
    ensures StringField() == Field(None, "varchar(100)", false, Const(Null))
    ensures BooleanField() == Field(None, "boolean", false, Const(Bool(false)))
    ensures IntegerField() == Field(None, "bigint", false, Const(Int(0)))
    ensures TextField() == Field(None, "text", false, Const(Null))
    ensures forall d :: FloatField(default := d) == Field(None, "real", false, d)
  {
  }

  // ---------------------------------------------------------------- placeholders

  function Repeat(s: string, n: nat): (r: seq<string>)
    ensures |r| == n && forall i :: 0 <= i < n ==> r[i] == s
  {
    if n == 0 then [] else Repeat(s, n - 1) + [s]
  }

  /** The value of `create_args_string(n)`: `n` question marks joined by `", "`. */
  function ArgsString(n: nat): string
  {
    Join(Repeat("?", n), ", ")
  }

  /** `create_args_string`: appends `'?'` to a list `n` times, then joins. */
  method CreateArgsString(n: nat) returns (s: string)
    ensures s == ArgsString(n)
    ensures Count('?', s) == n
    ensures s == "" <==> n == 0
  {
    var marks: seq<string> := [];
    var i := 0;
    while i < n
      invariant 0 <= i <= n
      invariant marks == Repeat("?", i)
    {
      marks := marks + ["?"];
      i := i + 1;
    }
    s := Join(marks, ", ");
    ArgsStringCount(n);
  }

  /** `create_args_string(n)` holds exactly `n` placeholders, and is empty exactly when `n` is 0. */
  lemma {:induction false} ArgsStringCount(n: nat)
    ensures Count('?', ArgsString(n)) == n
    ensures ArgsString(n) == "" <==> n == 0
  {
    var marks := Repeat("?", n);
    CountJoin('?', marks, ", ");
    CountAbsent('?', ", ");
    CountAllRepeat(n);
    if n > 0 {
      JoinLength(marks, ", ");
      SumLengthsRepeat(n);
    }
  }

  lemma {:induction false} CountAllRepeat(n: nat)
    ensures CountAll('?', Repeat("?", n)) == n
  {
    if n > 0 {
      var r := Repeat("?", n);
      assert r[0] == "?";
      assert Count('?', "?") == 1;
      assert r[1..] == Repeat("?", n - 1) by {
        if n > 1 {
          assert Repeat("?", n - 1) == Repeat("?", n - 2) + ["?"];
        }
      }
      CountAllRepeat(n - 1);
    }
  }

  lemma {:induction false} SumLengthsRepeat(n: nat)
    ensures SumLengths(Repeat("?", n)) == n
  {
    if n > 0 {
      var r := Repeat("?", n);
      assert r[1..] == Repeat("?", n - 1) by {
        if n > 1 {
          assert Repeat("?", n - 1) == Repeat("?", n - 2) + ["?"];
        }
      }
      SumLengthsRepeat(n - 1);
    }
  }

  // ---------------------------------------------------------------- scanning the class body

  /** Attribute names must be distinct, as they are in the dictionary a class body is. */
  predicate DistinctKeys(attrs: ClassBody)
  {
    forall i, j :: 0 <= i < j < |attrs| ==> attrs[i].0 != attrs[j].0
  }

  predicate IsKeyField(a: Attr)
  {
    a.FieldAttr? && a.field.primaryKey
  }

  predicate IsOtherField(a: Attr)
  {
    a.FieldAttr? && !a.field.primaryKey
  }

  /** `mappings`: every `Field` attribute, by attribute name. */
  function FieldMap(attrs: ClassBody): map<string, Field>
  {
    if |attrs| == 0 then map[]
    else
      var (k, a) := attrs[|attrs| - 1];
      var m := FieldMap(attrs[..|attrs| - 1]);
      if a.FieldAttr? then m[k := a.field] else m
  }

  /** `fields`: the names of the non-primary-key `Field` attributes, in declaration order. */
  function OtherFields(attrs: ClassBody): seq<string>
  {
    if |attrs| == 0 then []
    else
      var (k, a) := attrs[|attrs| - 1];
      var fs := OtherFields(attrs[..|attrs| - 1]);
      if IsOtherField(a) then fs + [k] else fs
  }

  /** The names of the primary-key `Field` attributes, in declaration order. */
  function PrimaryKeys(attrs: ClassBody): seq<string>
  {
    if |attrs| == 0 then []
    else
      var (k, a) := attrs[|attrs| - 1];
      var ks := PrimaryKeys(attrs[..|attrs| - 1]);
      if IsKeyField(a) then ks + [k] else ks
  }

  /**
   * The primary-key scan of `__new__`: `Ok(k)` is the key recorded so far, where the
   * empty name counts as none recorded (the source tests `if primaryKey:`); a second
   * key field while one is recorded aborts with `DuplicatePrimaryKey`.
   */
  function KeyScan(attrs: ClassBody): Result<string, CompileError>
  {
    if |attrs| == 0 then Ok("")
    else
      var (k, a) := attrs[|attrs| - 1];
      match KeyScan(attrs[..|attrs| - 1])
      case Err(e) => Err(e)
      case Ok(pk) =>
        if IsKeyField(a) then (if pk != "" then Err(DuplicatePrimaryKey(k)) else Ok(k))
        else Ok(pk)
  }

  /** The class body without the entries whose name is in `keys` (the `attrs.pop` loop). */
  function Without(attrs: ClassBody, keys: set<string>): ClassBody
  {
    if |attrs| == 0 then []
    else
      var rest := Without(attrs[..|attrs| - 1], keys);
      if attrs[|attrs| - 1].0 in keys then rest else rest + [attrs[|attrs| - 1]]
  }

  /** `attrs.get(key)`: the entry under `key`, the last one if the name repeats. */
  function Lookup(attrs: ClassBody, key: string): Option<Attr>
  {
    if |attrs| == 0 then None
    else if attrs[|attrs| - 1].0 == key then Some(attrs[|attrs| - 1].1)
    else Lookup(attrs[..|attrs| - 1], key)
  }

  /** `attrs.get('__table__', None) or name`. */
  function TableName(name: string, attrs: ClassBody): string
  {
    match Lookup(attrs, "__table__")
    case Some(Plain(v)) => if Truthy(v) then Render(v) else name
    case Some(FieldAttr(_)) => Render(Object(0))
    case None => name
  }

  // ---------------------------------------------------------------- SQL templates

  function Escape(f: string): string
  {
    "`" + f + "`"
  }

  function EscapeAll(fs: seq<string>): (r: seq<string>)
    ensures |r| == |fs| && forall i :: 0 <= i < |fs| ==> r[i] == Escape(fs[i])
  {
    if |fs| == 0 then [] else [Escape(fs[0])] + EscapeAll(fs[1..])
  }

  /** `field.name or attr`: the column an update assigns. */
  function ColumnName(f: Field, attr: string): string
  {
    if f.name.Some? && f.name.value != "" then f.name.value else attr
  }

  function Assignments(fields: seq<string>, mappings: map<string, Field>): (r: seq<string>)
    requires forall f :: f in fields ==> f in mappings
    ensures |r| == |fields|
    ensures forall i :: 0 <= i < |fields| ==> r[i] == "`" + ColumnName(mappings[fields[i]], fields[i]) + "` =?"
  {
    if |fields| == 0 then []
    else ["`" + ColumnName(mappings[fields[0]], fields[0]) + "` =?"] + Assignments(fields[1..], mappings)
  }

  function SelectSql(table: string, pk: string, fields: seq<string>): string
  {
    "select `" + pk + "`," + Join(EscapeAll(fields), ", ") + " from `" + table + "`"
  }

  function InsertSql(table: string, pk: string, fields: seq<string>): string
  {
    "insert into `" + table + "` (" + Join(EscapeAll(fields), ", ") + ", `" + pk + "`) values ("
      + ArgsString(|fields| + 1) + ")"
  }

  function UpdateSql(table: string, pk: string, fields: seq<string>, mappings: map<string, Field>): string
    requires forall f :: f in fields ==> f in mappings
  {
    "update `" + table + "` set " + Join(Assignments(fields, mappings), ", ") + " where `" + pk + "`=?"
  }

  function DeleteSql(table: string, pk: string): string
  {
    "delete from `" + table + "` where `" + pk + "`=?"
  }

  function MakeSchema(table: string, pk: string, fields: seq<string>, mappings: map<string, Field>): Schema
    requires forall f :: f in fields ==> f in mappings
  {
    Schema(table, pk, fields, mappings,
           SelectSql(table, pk, fields), InsertSql(table, pk, fields),
           UpdateSql(table, pk, fields, mappings), DeleteSql(table, pk))
  }

  /** What `ModelMetaclass.__new__` produces for a class `name` with body `attrs`. */
  function CompileSpec(name: string, attrs: ClassBody): Result<Compiled, CompileError>
  {
    if name == "Model" then Ok(BaseModel(attrs))
    else
      match KeyScan(attrs)
      case Err(e) => Err(e)
      case Ok(pk) =>
        if pk == "" then Err(PrimaryKeyNotFound)
        else
          var mappings := FieldMap(attrs);
          OtherFieldsMapped(attrs);
          Ok(Entity(MakeSchema(TableName(name, attrs), pk, OtherFields(attrs), mappings),
                    Without(attrs, mappings.Keys)))
  }

  // ---------------------------------------------------------------- the metaclass

  /** `ModelMetaclass.__new__`: one pass over the class body, then the pops, then the templates. */
  method Compile(name: string, attrs: ClassBody) returns (r: Result<Compiled, CompileError>)
    ensures r == CompileSpec(name, attrs)
  {
    if name == "Model" {
      return Ok(BaseModel(attrs));
    }
    var tableName := TableName(name, attrs);
    var mappings: map<string, Field> := map[];
    var fields: seq<string> := [];
    var primaryKey := "";
    var i := 0;
    while i < |attrs|
      invariant 0 <= i <= |attrs|
      invariant mappings == FieldMap(attrs[..i])
      invariant fields == OtherFields(attrs[..i])
      invariant KeyScan(attrs[..i]) == Ok(primaryKey)
    {
      var (k, v) := attrs[i];
      assert attrs[..i + 1][..i] == attrs[..i];
      if v.FieldAttr? {
        mappings := mappings[k := v.field];
        if v.field.primaryKey {
          if primaryKey != "" {
            KeyScanErrSticks(attrs, i + 1);
            return Err(DuplicatePrimaryKey(k));
          }
          primaryKey := k;
        } else {
          fields := fields + [k];
        }
      }
      i := i + 1;
    }
    assert attrs[..i] == attrs;
    if primaryKey == "" {
      return Err(PrimaryKeyNotFound);
    }
    var rest: ClassBody := [];
    var j := 0;
    while j < |attrs|
      invariant 0 <= j <= |attrs|
      invariant rest == Without(attrs[..j], mappings.Keys)
    {
      assert attrs[..j + 1][..j] == attrs[..j];
      if attrs[j].0 !in mappings {
        rest := rest + [attrs[j]];
      }
      j := j + 1;
    }
    assert attrs[..j] == attrs;
    var marks := CreateArgsString(|fields| + 1);
    OtherFieldsMapped(attrs);
    var schema := Schema(
      tableName, primaryKey, fields, mappings,
      "select `" + primaryKey + "`," + Join(EscapeAll(fields), ", ") + " from `" + tableName + "`",
      "insert into `" + tableName + "` (" + Join(EscapeAll(fields), ", ") + ", `" + primaryKey + "`) values (" + marks + ")",
      "update `" + tableName + "` set " + Join(Assignments(fields, mappings), ", ") + " where `" + primaryKey + "`=?",
      "delete from `" + tableName + "` where `" + primaryKey + "`=?");
    r := Ok(Entity(schema, rest));
  }

  // ---------------------------------------------------------------- lemmas about the scan

  /** Every name in `fields` has an entry in `mappings`. */
  lemma {:induction false} OtherFieldsMapped(attrs: ClassBody)
    ensures forall f :: f in OtherFields(attrs) ==> f in FieldMap(attrs)
  {
    if |attrs| > 0 {
      OtherFieldsMapped(attrs[..|attrs| - 1]);
    }
  }

  /** Once the scan has aborted on a prefix, it aborts with the same error on the whole body. */
  lemma {:induction false} KeyScanErrSticks(attrs: ClassBody, n: nat)
    requires n <= |attrs| && KeyScan(attrs[..n]).Err?
    ensures KeyScan(attrs) == KeyScan(attrs[..n])
    decreases |attrs| - n
  {
    if n < |attrs| {
      var init := attrs[..|attrs| - 1];
      assert init[..n] == attrs[..n];
      KeyScanErrSticks(init, n);
    } else {
      assert attrs[..n] == attrs;
    }
  }

  /** Class attribute names are never empty in a class statement. */
  predicate NamedAttrs(attrs: ClassBody)
  {
    forall i :: 0 <= i < |attrs| ==> attrs[i].0 != ""
  }

  /** With non-empty names, the scan aborts exactly at the second key field and otherwise yields the only one. */
  lemma {:induction false} KeyScanCounts(attrs: ClassBody)
    requires NamedAttrs(attrs)
    ensures var pks := PrimaryKeys(attrs);
      KeyScan(attrs) == if |pks| == 0 then Ok("") else if |pks| == 1 then Ok(pks[0]) else Err(DuplicatePrimaryKey(pks[1]))
  {
    if |attrs| > 0 {
      var init := attrs[..|attrs| - 1];
      assert NamedAttrs(init) by {
        forall i | 0 <= i < |init| ensures init[i].0 != "" { assert init[i] == attrs[i]; }
      }
      KeyScanCounts(init);
      PrimaryKeysExactly(init);
      var pks := PrimaryKeys(init);
      if |pks| == 1 {
        assert pks[0] in pks;
        var i :| 0 <= i < |init| && init[i].0 == pks[0] && IsKeyField(init[i].1);
        assert pks[0] != "";
      }
    }
  }

  /** `mappings` holds exactly the `Field` attributes, each under its own name. */
  lemma {:induction false} FieldMapExactly(attrs: ClassBody)
    requires DistinctKeys(attrs)
    ensures forall k :: k in FieldMap(attrs) <==> exists i :: 0 <= i < |attrs| && attrs[i].0 == k && attrs[i].1.FieldAttr?
    ensures forall i :: 0 <= i < |attrs| && attrs[i].1.FieldAttr? ==> FieldMap(attrs)[attrs[i].0] == attrs[i].1.field
  {
    if |attrs| > 0 {
      var n := |attrs| - 1;
      var init := attrs[..n];
      assert DistinctKeys(init);
      FieldMapExactly(init);
      forall k | k in FieldMap(attrs)
        ensures exists i :: 0 <= i < |attrs| && attrs[i].0 == k && attrs[i].1.FieldAttr?
      {
        if !(k == attrs[n].0 && attrs[n].1.FieldAttr?) {
          assert k in FieldMap(init);
          var i :| 0 <= i < |init| && init[i].0 == k && init[i].1.FieldAttr?;
          assert attrs[i] == init[i];
        }
      }
      forall i | 0 <= i < |attrs| && attrs[i].1.FieldAttr?
        ensures attrs[i].0 in FieldMap(attrs) && FieldMap(attrs)[attrs[i].0] == attrs[i].1.field
      {
        if i < n {
          assert init[i] == attrs[i];
        }
      }
    }
  }

  /** `fields` holds exactly the names of the non-key `Field` attributes, each once. */
  lemma {:induction false} OtherFieldsExactly(attrs: ClassBody)
    requires DistinctKeys(attrs)
    ensures forall k :: k in OtherFields(attrs) <==> exists i :: 0 <= i < |attrs| && attrs[i].0 == k && IsOtherField(attrs[i].1)
    ensures forall i, j :: 0 <= i < j < |OtherFields(attrs)| ==> OtherFields(attrs)[i] != OtherFields(attrs)[j]
  {
    if |attrs| > 0 {
      var n := |attrs| - 1;
      var init := attrs[..n];
      assert DistinctKeys(init);
      OtherFieldsExactly(init);
      forall k | k in OtherFields(attrs)
        ensures exists i :: 0 <= i < |attrs| && attrs[i].0 == k && IsOtherField(attrs[i].1)
      {
        if !(k == attrs[n].0 && IsOtherField(attrs[n].1)) {
          var i :| 0 <= i < |init| && init[i].0 == k && IsOtherField(init[i].1);
          assert attrs[i] == init[i];
        }
      }
      forall k | exists i :: 0 <= i < |attrs| && attrs[i].0 == k && IsOtherField(attrs[i].1)
        ensures k in OtherFields(attrs)
      {
        var i :| 0 <= i < |attrs| && attrs[i].0 == k && IsOtherField(attrs[i].1);
        if i < n {
          assert init[i] == attrs[i];
        }
      }
      if IsOtherField(attrs[n].1) {
        assert attrs[n].0 !in OtherFields(init);
      }
    }
  }

  /** The primary keys are exactly the names of the key `Field` attributes. */
  lemma {:induction false} PrimaryKeysExactly(attrs: ClassBody)
    ensures forall k :: k in PrimaryKeys(attrs) <==> exists i :: 0 <= i < |attrs| && attrs[i].0 == k && IsKeyField(attrs[i].1)
  {
    if |attrs| > 0 {
      var n := |attrs| - 1;
      var init := attrs[..n];
      PrimaryKeysExactly(init);
      forall k | k in PrimaryKeys(attrs)
        ensures exists i :: 0 <= i < |attrs| && attrs[i].0 == k && IsKeyField(attrs[i].1)
      {
        if !(k == attrs[n].0 && IsKeyField(attrs[n].1)) {
          assert k in PrimaryKeys(init);
          var i :| 0 <= i < |init| && init[i].0 == k && IsKeyField(init[i].1);
          assert attrs[i] == init[i];
        }
      }
      forall k | exists i :: 0 <= i < |attrs| && attrs[i].0 == k && IsKeyField(attrs[i].1)
        ensures k in PrimaryKeys(attrs)
      {
        var i :| 0 <= i < |attrs| && attrs[i].0 == k && IsKeyField(attrs[i].1);
        if i < n {
          assert init[i] == attrs[i];
        }
      }
    }
  }

  /** The pops leave exactly the entries whose name is not a `Field` attribute. */
  lemma {:induction false} WithoutExactly(attrs: ClassBody, keys: set<string>)
    ensures forall e :: e in Without(attrs, keys) <==> e in attrs && e.0 !in keys
  {
    if |attrs| > 0 {
      var n := |attrs| - 1;
      var init := attrs[..n];
      WithoutExactly(init, keys);
      assert attrs == init + [attrs[n]];
    }
  }

  // ---------------------------------------------------------------- what a compiled schema guarantees

  /**
   * The invariant of every compiled schema: one key field, the other fields each once and
   * all mapped, nothing else mapped, and the templates built from these.
   */
  predicate WellFormed(s: Schema)
  {
    && s.primaryKey in s.mappings && s.mappings[s.primaryKey].primaryKey
    && s.primaryKey !in s.fields
    && (forall f :: f in s.fields ==> f in s.mappings && !s.mappings[f].primaryKey)
    && (forall i, j :: 0 <= i < j < |s.fields| ==> s.fields[i] != s.fields[j])
    && (forall k :: k in s.mappings ==> k == s.primaryKey || k in s.fields)
    && s == MakeSchema(s.table, s.primaryKey, s.fields, s.mappings)
  }

  /** The class named `Model` itself passes through with its body untouched. */
  lemma CompileBaseModel(attrs: ClassBody)
    ensures CompileSpec("Model", attrs) == Ok(BaseModel(attrs))
  {
  }

  /** Without a key field, compiling fails with `Primary key not found.`; with one it does not. */
  lemma CompileWithoutKey(name: string, attrs: ClassBody)
    requires name != "Model" && NamedAttrs(attrs)
    ensures CompileSpec(name, attrs) == Err(PrimaryKeyNotFound) <==> |PrimaryKeys(attrs)| == 0
  {
    KeyScanCounts(attrs);
    PrimaryKeysExactly(attrs);
    var pks := PrimaryKeys(attrs);
    if |pks| > 0 {
      assert pks[0] in pks;
      var i :| 0 <= i < |attrs| && attrs[i].0 == pks[0] && IsKeyField(attrs[i].1);
    }
  }

  /** A second key field makes compiling fail with `Duplicate primary key for field: <second>`. */
  lemma CompileDuplicateKey(name: string, attrs: ClassBody)
    requires name != "Model" && NamedAttrs(attrs) && |PrimaryKeys(attrs)| >= 2
    ensures CompileSpec(name, attrs) == Err(DuplicatePrimaryKey(PrimaryKeys(attrs)[1]))
    ensures Message(CompileSpec(name, attrs).error) == "Duplicate primary key for field: " + PrimaryKeys(attrs)[1]
  {
    KeyScanCounts(attrs);
  }

  /**
   * With exactly one key field the class compiles: the schema is well formed, its table is
   * `__table__` or the class name, `__fields__` are the other fields in declaration order,
   * `__mappings__` holds every field, and the `Field` attributes leave the class body.
   */
  lemma CompileEntity(name: string, attrs: ClassBody)
    requires name != "Model" && NamedAttrs(attrs) && DistinctKeys(attrs) && |PrimaryKeys(attrs)| == 1
    ensures CompileSpec(name, attrs).Ok? && CompileSpec(name, attrs).value.Entity?
    ensures var c := CompileSpec(name, attrs).value;
      && c.schema.table == TableName(name, attrs)
      && c.schema.primaryKey == PrimaryKeys(attrs)[0]
      && c.schema.fields == OtherFields(attrs)
      && c.schema.mappings == FieldMap(attrs)
      && WellFormed(c.schema)
      && (forall e :: e in c.rest <==> e in attrs && !e.1.FieldAttr?)
  {
    CompileWithoutKey(name, attrs);
    KeyScanCounts(attrs);
    OtherFieldsMapped(attrs);
    KeyedShape(attrs);
    RestIsNonFields(attrs);
  }

  /** With exactly one key field, the key, the other fields and the mappings fit together as `WellFormed` asks. */
  lemma KeyedShape(attrs: ClassBody)
    requires NamedAttrs(attrs) && DistinctKeys(attrs) && |PrimaryKeys(attrs)| == 1
    ensures var pk, m, fs := PrimaryKeys(attrs)[0], FieldMap(attrs), OtherFields(attrs);
      && pk in m && m[pk].primaryKey && pk !in fs
      && (forall f :: f in fs ==> f in m && !m[f].primaryKey)
      && (forall k :: k in m ==> k == pk || k in fs)
      && (forall i, j :: 0 <= i < j < |fs| ==> fs[i] != fs[j])
  {
    FieldMapExactly(attrs);
    OtherFieldsExactly(attrs);
    PrimaryKeysExactly(attrs);
    var pks := PrimaryKeys(attrs);
    var pk := pks[0];
    var m := FieldMap(attrs);
    var fs := OtherFields(attrs);
    assert pk in pks;
    var ipk :| 0 <= ipk < |attrs| && attrs[ipk].0 == pk && IsKeyField(attrs[ipk].1);
    assert pk in m && m[pk].primaryKey;
    forall f | f in fs ensures f in m && !m[f].primaryKey && f != pk {
      var i :| 0 <= i < |attrs| && attrs[i].0 == f && IsOtherField(attrs[i].1);
    }
    forall k | k in m ensures k == pk || k in fs {
      var i :| 0 <= i < |attrs| && attrs[i].0 == k && attrs[i].1.FieldAttr?;
      if attrs[i].1.field.primaryKey {
        assert k in pks;
      }
    }
  }

  /** Popping the mapped names leaves exactly the attributes that are not fields. */
  lemma RestIsNonFields(attrs: ClassBody)
    requires DistinctKeys(attrs)
    ensures forall e :: e in Without(attrs, FieldMap(attrs).Keys) <==> e in attrs && !e.1.FieldAttr?
  {
    FieldMapExactly(attrs);
    var m := FieldMap(attrs);
    WithoutExactly(attrs, m.Keys);
    forall e | e in attrs ensures e.0 in m <==> e.1.FieldAttr? {
      var i :| 0 <= i < |attrs| && attrs[i] == e;
      if e.0 in m {
        var j :| 0 <= j < |attrs| && attrs[j].0 == e.0 && attrs[j].1.FieldAttr?;
        assert i == j;
      }
    }
  }

  /** The names that reach a template carry no `?` of their own. */
  predicate Unmarked(table: string, pk: string, fields: seq<string>, mappings: map<string, Field>)
  {
    && '?' !in table && '?' !in pk && NoneContains('?', fields)
    && forall f :: f in fields && f in mappings ==> '?' !in ColumnName(mappings[f], f)
  }

  // The fixed text of the templates carries no placeholder, except the key's `=?`.
  // (One literal per lemma keeps each proof small.)

  lemma ShortTextCounts()
    ensures Count('?', "`") == 0 && Count('?', "`,") == 0 && Count('?', ", ") == 0
    ensures Count('?', "` (") == 0 && Count('?', ", `") == 0 && Count('?', ")") == 0
  {
    CountAbsent('?', "`");
    CountAbsent('?', "`,");
    CountAbsent('?', ", ");
    CountAbsent('?', "` (");
    CountAbsent('?', ", `");
    CountAbsent('?', ")");
  }

  lemma SelectHeadCount()
    ensures Count('?', "select `") == 0
  {
    CountAbsent('?', "select `");
  }

  lemma FromTextCount()
    ensures Count('?', " from `") == 0
  {
    CountAbsent('?', " from `");
  }

  lemma InsertHeadCount()
    ensures Count('?', "insert into `") == 0
  {
    CountAbsent('?', "insert into `");
  }

  lemma ValuesTextCount()
    ensures Count('?', "`) values (") == 0
  {
    CountAbsent('?', "`) values (");
  }

  lemma UpdateHeadCount()
    ensures Count('?', "update `") == 0
  {
    CountAbsent('?', "update `");
  }

  lemma SetTextCount()
    ensures Count('?', "` set ") == 0
  {
    CountAbsent('?', "` set ");
  }

  lemma WhereTextCount()
    ensures Count('?', " where `") == 0
  {
    CountAbsent('?', " where `");
  }

  lemma DeleteHeadCount()
    ensures Count('?', "delete from `") == 0
  {
    CountAbsent('?', "delete from `");
  }

  lemma KeyWhereTextCount()
    ensures Count('?', "` where `") == 0
  {
    CountAbsent('?', "` where `");
  }

  lemma KeyMarkCount()
    ensures Count('?', "`=?") == 1
  {
    assert "`=?"[1..] == "=?";
    assert "=?"[1..] == "?";
    assert "?"[1..] == "";
  }

  /** Select lists the key and the other fields and carries no placeholder. */
  lemma {:induction false} SelectPlaceholders(table: string, pk: string, fields: seq<string>)
    requires '?' !in table && '?' !in pk && NoneContains('?', fields)
    ensures Count('?', SelectSql(table, pk, fields)) == 0
  {
    EscapedUnmarked(fields);
    CountAbsent('?', pk);
    CountAbsent('?', table);
    ShortTextCounts();
    SelectHeadCount();
    FromTextCount();
    CountConcat7('?', "select `", pk, "`,", Join(EscapeAll(fields), ", "), " from `", table, "`");
  }

  /** Insert carries one placeholder per other field plus one for the key. */
  lemma {:induction false} InsertPlaceholders(table: string, pk: string, fields: seq<string>)
    requires '?' !in table && '?' !in pk && NoneContains('?', fields)
    ensures Count('?', InsertSql(table, pk, fields)) == |fields| + 1
  {
    EscapedUnmarked(fields);
    ArgsStringCount(|fields| + 1);
    CountAbsent('?', table);
    CountAbsent('?', pk);
    ShortTextCounts();
    InsertHeadCount();
    ValuesTextCount();
    CountConcat7('?', "insert into `", table, "` (", Join(EscapeAll(fields), ", "), ", `", pk, "`) values (");
    CountConcat3('?', "insert into `" + table + "` (" + Join(EscapeAll(fields), ", ") + ", `" + pk + "`) values (",
                 ArgsString(|fields| + 1), ")");
  }

  /** Update carries one `=?` per other field and one for the key. */
  lemma {:induction false} UpdatePlaceholders(table: string, pk: string, fields: seq<string>, mappings: map<string, Field>)
    requires forall f :: f in fields ==> f in mappings
    requires Unmarked(table, pk, fields, mappings)
    ensures Count('?', UpdateSql(table, pk, fields, mappings)) == |fields| + 1
  {
    var assigns := Assignments(fields, mappings);
    AssignmentListMarks(fields, mappings);
    CountAbsent('?', table);
    CountAbsent('?', pk);
    ShortTextCounts();
    UpdateHeadCount();
    SetTextCount();
    WhereTextCount();
    KeyMarkCount();
    CountConcat7('?', "update `", table, "` set ", Join(assigns, ", "), " where `", pk, "`=?");
  }

  /** Delete carries exactly one placeholder, for the key. */
  lemma {:induction false} DeletePlaceholders(table: string, pk: string)
    requires '?' !in table && '?' !in pk
    ensures Count('?', DeleteSql(table, pk)) == 1
  {
    CountAbsent('?', table);
    CountAbsent('?', pk);
    DeleteHeadCount();
    KeyWhereTextCount();
    KeyMarkCount();
    CountConcat5('?', "delete from `", table, "` where `", pk, "`=?");
  }

  lemma {:induction false} EscapedUnmarked(fields: seq<string>)
    requires NoneContains('?', fields)
    ensures Count('?', Join(EscapeAll(fields), ", ")) == 0
  {
    var escaped := EscapeAll(fields);
    assert NoneContains('?', escaped) by {
      forall i | 0 <= i < |escaped| ensures '?' !in escaped[i] {
        assert '?' !in fields[i];
      }
    }
    CountAllAbsent('?', escaped);
    CountJoin('?', escaped, ", ");
    CountAbsent('?', ", ");
  }

  lemma AssignmentTextCounts()
    ensures Count('?', "`") == 0 && Count('?', "` =?") == 1
  {
    CountAbsent('?', "`");
    assert "` =?"[1..] == " =?";
    assert " =?"[1..] == "=?";
    assert "=?"[1..] == "?";
    assert "?"[1..] == "";
  }

  /** The joined assignments carry one placeholder per field. */
  lemma AssignmentListMarks(fields: seq<string>, mappings: map<string, Field>)
    requires forall f :: f in fields ==> f in mappings
    requires Unmarked("", "", fields, mappings)
    ensures Count('?', Join(Assignments(fields, mappings), ", ")) == |fields|
  {
    AssignmentMarks(fields, mappings);
    CountJoin('?', Assignments(fields, mappings), ", ");
  }

  lemma {:induction false} AssignmentMarks(fields: seq<string>, mappings: map<string, Field>)
    requires forall f :: f in fields ==> f in mappings
    requires Unmarked("", "", fields, mappings)
    ensures CountAll('?', Assignments(fields, mappings)) == |fields|
  {
    if |fields| > 0 {
      var col := ColumnName(mappings[fields[0]], fields[0]);
      assert fields[0] in fields;
      CountAbsent('?', col);
      AssignmentTextCounts();
      CountConcat3('?', "`", col, "` =?");
      assert Assignments(fields, mappings)[1..] == Assignments(fields[1..], mappings);
      assert Unmarked("", "", fields[1..], mappings) by {
        forall f | f in fields[1..] ensures f in fields { }
      }
      AssignmentMarks(fields[1..], mappings);
    }
  }

  /** A compiled schema's templates carry one placeholder per argument the instance passes. */
  lemma SchemaPlaceholders(s: Schema)
    requires WellFormed(s) && Unmarked(s.table, s.primaryKey, s.fields, s.mappings)
    ensures Count('?', s.select) == 0
    ensures Count('?', s.insert) == |s.fields| + 1
    ensures Count('?', s.update) == |s.fields| + 1
    ensures Count('?', s.delete) == 1
  {
    SelectPlaceholders(s.table, s.primaryKey, s.fields);
    InsertPlaceholders(s.table, s.primaryKey, s.fields);
    UpdatePlaceholders(s.table, s.primaryKey, s.fields, s.mappings);
    DeletePlaceholders(s.table, s.primaryKey);
  }

  /** With no other field, the insert column list begins with a bare `, `. */
  lemma InsertWithoutOtherFields(table: string, pk: string)
    ensures InsertSql(table, pk, []) == "insert into `" + table + "` (, `" + pk + "`) values (?)"
  {
    assert Repeat("?", 1) == ["?"];
    assert EscapeAll([]) == [];
  }

  /** When no field declares its own column name, update assigns exactly the columns insert lists. */
  lemma UpdateColumnsByDefault(fields: seq<string>, mappings: map<string, Field>)
    requires forall f :: f in fields ==> f in mappings && (mappings[f].name.None? || mappings[f].name == Some(""))
    ensures Assignments(fields, mappings) == seq(|fields|, i requires 0 <= i < |fields| => Escape(fields[i]) + " =?")
  {
    forall i | 0 <= i < |fields|
      ensures Assignments(fields, mappings)[i] == Escape(fields[i]) + " =?"
    {
      assert fields[i] in fields;
      EscapedAssignment(fields[i]);
    }
  }

  lemma EscapedAssignment(f: string)
    ensures "`" + f + "` =?" == Escape(f) + " =?"
  {
  }
}
