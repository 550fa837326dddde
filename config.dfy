/**
 * Configuration handling: the attribute-style dictionary `Dict`, `toDict`, which turns nested
 * dictionaries into such dictionaries, and `merge`, which lays override settings over defaults.
 */
module Config {
  import opened Wrappers
  import opened Values

  /**
   * What `merge` may raise: `TypeError` from `k in override` on a value that is not iterable,
   * or from indexing a list or a string with a key.
   */
  datatype ConfigError = AttributeError(message: string) | TypeError

  /** The text of the `AttributeError` a missing attribute raises. */
  function AttributeMessage(key: string): (r: string)
    ensures "Dict object has no attribute '" + key <= r
  {
    "Dict object has no attribute '" + key + "' "
  }

  /** The message names the missing key: different keys give different messages. */
  lemma AttributeMessageNamesKey(a: string, b: string)
    ensures AttributeMessage(a) == AttributeMessage(b) ==> a == b
  {
    var p := "Dict object has no attribute '";
    if AttributeMessage(a) == AttributeMessage(b) {
      assert |a| == |b|;
      assert AttributeMessage(a)[|p|..|p| + |a|] == a;
      assert AttributeMessage(b)[|p|..|p| + |b|] == b;
    }
  }

  /** `zip(names, values)`: pairs up to the shorter of the two. */
  function Zip(names: seq<string>, values: seq<Value>): (r: seq<(string, Value)>)
    ensures |r| == if |names| < |values| then |names| else |values|
    ensures forall i :: 0 <= i < |r| ==> r[i] == (names[i], values[i])
  {
    if |names| == 0 || |values| == 0 then [] else [(names[0], values[0])] + Zip(names[1..], values[1..])
  }

  /** `self[k] = v` for each pair in turn, starting from `base`. */
  function Assign(base: map<string, Value>, pairs: seq<(string, Value)>): map<string, Value>
  {
    if |pairs| == 0 then base
    else
      var last := pairs[|pairs| - 1];
      Assign(base, pairs[..|pairs| - 1])[last.0 := last.1]
  }

  /** The pair `i` is the last one for its key. */
  predicate LastFor(pairs: seq<(string, Value)>, i: int)
    requires 0 <= i < |pairs|
  {
    forall j :: i < j < |pairs| ==> pairs[j].0 != pairs[i].0
  }

  /** The keys after assignment are those of `base` and of the pairs. */
  lemma {:induction false} AssignKeys(base: map<string, Value>, pairs: seq<(string, Value)>)
    ensures forall k :: k in Assign(base, pairs) <==> k in base || exists i :: 0 <= i < |pairs| && pairs[i].0 == k
  {
    if |pairs| > 0 {
      var n := |pairs| - 1;
      var init := pairs[..n];
      AssignKeys(base, init);
      forall k | k in Assign(base, pairs) && k !in base
        ensures exists i :: 0 <= i < |pairs| && pairs[i].0 == k
      {
        if k != pairs[n].0 {
          var i :| 0 <= i < n && init[i].0 == k;
          assert pairs[i].0 == k;
        }
      }
      forall k | (exists i :: 0 <= i < |pairs| && pairs[i].0 == k)
        ensures k in Assign(base, pairs)
      {
        var i :| 0 <= i < |pairs| && pairs[i].0 == k;
        if i < n {
          assert init[i].0 == k;
        }
      }
    }
  }

  /** A paired key takes the value of its last pair, overriding `base`. */
  lemma {:induction false} AssignLast(base: map<string, Value>, pairs: seq<(string, Value)>, i: nat)
    requires i < |pairs| && LastFor(pairs, i)
    ensures pairs[i].0 in Assign(base, pairs) && Assign(base, pairs)[pairs[i].0] == pairs[i].1
  {
    var n := |pairs| - 1;
    if i < n {
      var init := pairs[..n];
      assert init[i] == pairs[i];
      assert LastFor(init, i);
      AssignLast(base, init, i);
    }
  }

  /** A key no pair names keeps its `base` value. */
  lemma {:induction false} AssignBase(base: map<string, Value>, pairs: seq<(string, Value)>, k: string)
    requires k in base && forall i :: 0 <= i < |pairs| ==> pairs[i].0 != k
    ensures k in Assign(base, pairs) && Assign(base, pairs)[k] == base[k]
  {
    if |pairs| > 0 {
      var n := |pairs| - 1;
      assert forall i :: 0 <= i < n ==> pairs[..n][i] == pairs[i];
      AssignBase(base, pairs[..n], k);
    }
  }

  /** A dictionary whose keys can also be read and written as attributes. */
  class Dict {
    var entries: map<string, Value>

    /** `Dict(names, values, **kw)`: `kw` first, then the zipped pairs in order. */
    constructor (names: seq<string> := [], values: seq<Value> := [], kw: map<string, Value> := map[])
      ensures entries == Assign(kw, Zip(names, values))
    {
      entries := kw;
      new;
      var pairs := Zip(names, values);
      for i := 0 to |pairs|
        invariant entries == Assign(kw, pairs[..i])
      {
        assert pairs[..i + 1][..i] == pairs[..i];
        entries := entries[pairs[i].0 := pairs[i].1];
      }
      assert pairs[..|pairs|] == pairs;
    }

    /** `__getattr__`: the stored value, or `AttributeError`. */
    function GetAttr(key: string): (r: Result<Value, ConfigError>)
      reads this
      ensures r.Ok? <==> key in entries
      ensures r.Ok? ==> r.value == entries[key]
      ensures r.Err? ==> r.error == AttributeError(AttributeMessage(key))
    {
      if key in entries then Ok(entries[key]) else Err(AttributeError(AttributeMessage(key)))
    }

    /** `__setattr__`: writes the key. */
    method SetAttr(key: string, value: Value)
      modifies this
      ensures entries == old(entries)[key := value]
    {
      entries := entries[key := value];
    }
  }

  /** A configuration after `toDict`: nested dictionaries become attribute dictionaries. */
  datatype Setting = Leaf(value: Value) | Section(entries: map<string, Setting>)

  /** `toDict(d)`. */
  function ToDict(d: map<string, Value>): (r: map<string, Setting>)
    ensures r.Keys == d.Keys
    decreases Value.Dict(d)
  {
    map k | k in d :: if d[k].Dict? then Section(ToDict(d[k].entries)) else Leaf(d[k])
  }

  /** Back to plain dictionaries: the inverse of `toDict`. */
  function Plain(s: map<string, Setting>): map<string, Value>
    decreases Section(s)
  {
    map k | k in s :: match s[k] case Leaf(v) => v case Section(m) => Value.Dict(Plain(m))
  }

  /** `toDict` keeps every key and leaf value and only changes how nested dictionaries are held. */
  lemma {:induction false} ToDictRoundTrip(d: map<string, Value>)
    ensures Plain(ToDict(d)) == d
    decreases Value.Dict(d)
  {
    forall k | k in d && d[k].Dict? ensures Plain(ToDict(d[k].entries)) == d[k].entries {
      ToDictRoundTrip(d[k].entries);
    }
  }

  /** Only dictionaries become sections; every other value is kept as it is. */
  lemma ToDictLeaves(d: map<string, Value>, k: string)
    requires k in d
    ensures ToDict(d)[k].Section? <==> d[k].Dict?
    ensures !d[k].Dict? ==> ToDict(d)[k] == Leaf(d[k])
  {
  }

  /** Some `i` at which `k` occurs in `s`. */
  predicate IsSubstring(k: string, s: string)
  {
    k <= s || (|s| > 0 && IsSubstring(k, s[1..]))
  }

  /** `k in override`. */
  function Contains(override: Value, k: string): Result<bool, ConfigError>
  {
    match override
    case Dict(m) => Ok(k in m)
    case List(items) => Ok(Str(k) in items)
    case Str(s) => Ok(IsSubstring(k, s))
    case _ => Err(TypeError)
  }

  /** `override[k]`, once `k in override` holds. */
  function Item(override: Value, k: string): Result<Value, ConfigError>
  {
    if override.Dict? && k in override.entries then Ok(override.entries[k]) else Err(TypeError)
  }

  /** `r[k]` as `merge` computes it. */
  function MergeEntry(defaults: map<string, Value>, override: Value, k: string): Result<Value, ConfigError>
    requires k in defaults
    decreases Value.Dict(defaults), 0
  {
    match Contains(override, k)
    case Err(e) => Err(e)
    case Ok(false) => Ok(defaults[k])
    case Ok(true) =>
      match Item(override, k)
      case Err(e) => Err(e)
      case Ok(o) =>
        if defaults[k].Dict? then
          match Merge(defaults[k].entries, o)
          case Err(e) => Err(e)
          case Ok(m) => Ok(Value.Dict(m))
        else Ok(o)
  }

  /** `merge(defaults, override)`: it raises when any key's entry does. */
  function Merge(defaults: map<string, Value>, override: Value): Result<map<string, Value>, ConfigError>
    decreases Value.Dict(defaults), 1
  {
    if exists k :: k in defaults && MergeEntry(defaults, override, k).Err? then Err(TypeError)
    else Ok(map k | k in defaults :: MergeEntry(defaults, override, k).value)
  }

  /** `merge` succeeds with `r` when every entry does. */
  lemma MergeAllOk(defaults: map<string, Value>, override: Value, r: map<string, Value>)
    requires r.Keys == defaults.Keys
    requires forall k :: k in defaults ==> MergeEntry(defaults, override, k) == Ok(r[k])
    ensures Merge(defaults, override) == Ok(r)
  {
    assert !exists k :: k in defaults && MergeEntry(defaults, override, k).Err?;
    assert (map k | k in defaults :: MergeEntry(defaults, override, k).value) == r;
  }

  /**
   * The merged keys are exactly the default keys; a key absent from the override keeps its
   * default; a key present in a dictionary override takes the override's value, or, when the
   * default is itself a dictionary, the merge of the two.
   */
  lemma MergeEntries(defaults: map<string, Value>, override: map<string, Value>)
    requires Merge(defaults, Value.Dict(override)).Ok?
    ensures var r := Merge(defaults, Value.Dict(override)).value;
      && r.Keys == defaults.Keys
      && (forall k :: k in defaults && k !in override ==> r[k] == defaults[k])
      && (forall k :: k in defaults && k in override && !defaults[k].Dict? ==> r[k] == override[k])
      && (forall k :: k in defaults && k in override && defaults[k].Dict? ==>
            Merge(defaults[k].entries, override[k]).Ok? && r[k] == Value.Dict(Merge(defaults[k].entries, override[k]).value))
  {
    forall k | k in defaults ensures MergeEntry(defaults, Value.Dict(override), k).Ok? {
    }
  }

  /** Merging with an empty override gives the defaults back. */
  lemma MergeEmpty(defaults: map<string, Value>)
    ensures Merge(defaults, Value.Dict(map[])) == Ok(defaults)
  {
    MergeAllOk(defaults, Value.Dict(map[]), defaults);
  }

  /** Merging a configuration with itself changes nothing. */
  lemma {:induction false} MergeSelf(defaults: map<string, Value>)
    ensures Merge(defaults, Value.Dict(defaults)) == Ok(defaults)
    decreases Value.Dict(defaults)
  {
    forall k | k in defaults
      ensures MergeEntry(defaults, Value.Dict(defaults), k) == Ok(defaults[k])
    {
      if defaults[k].Dict? {
        MergeSelf(defaults[k].entries);
      }
    }
    MergeAllOk(defaults, Value.Dict(defaults), defaults);
  }

  /** The override matches the shape of the defaults: a dictionary wherever a default dictionary is overridden. */
  predicate Fits(defaults: map<string, Value>, override: map<string, Value>)
    decreases Value.Dict(defaults)
  {
    forall k :: k in defaults && k in override && defaults[k].Dict? ==>
      override[k].Dict? && Fits(defaults[k].entries, override[k].entries)
  }

  /** A fitting override always merges without error. */
  lemma {:induction false} MergeFits(defaults: map<string, Value>, override: map<string, Value>)
    requires Fits(defaults, override)
    ensures Merge(defaults, Value.Dict(override)).Ok?
    decreases Value.Dict(defaults)
  {
    forall k | k in defaults ensures MergeEntry(defaults, Value.Dict(override), k).Ok? {
      if k in override && defaults[k].Dict? {
        MergeFits(defaults[k].entries, override[k].entries);
      }
    }
  }

  /** Overriding a non-empty section by `None` raises `TypeError` (`k in None`) ... */
  lemma NoneOverSectionRaises()
    ensures Merge(map["db" := Value.Dict(map["host" := Str("localhost")])], Value.Dict(map["db" := Null])) == Err(TypeError)
  {
    var inner := map["host" := Str("localhost")];
    assert MergeEntry(inner, Null, "host").Err?;
    var defaults := map["db" := Value.Dict(inner)];
    assert MergeEntry(defaults, Value.Dict(map["db" := Null]), "db").Err?;
  }

  /** ... but an empty section is never probed, so the same override then succeeds. */
  lemma NoneOverEmptySectionKeeps()
    ensures Merge(map["db" := Value.Dict(map[])], Value.Dict(map["db" := Null])) == Ok(map["db" := Value.Dict(map[])])
  {
    var defaults := map["db" := Value.Dict(map[])];
    assert Merge(map[], Null) == Ok(map[]);
    assert MergeEntry(defaults, Value.Dict(map["db" := Null]), "db") == Ok(Value.Dict(map[]));
    MergeAllOk(defaults, Value.Dict(map["db" := Null]), defaults);
  }

  /** A key that occurs in a string override makes `merge` index the string, which raises. */
  lemma StringOverrideRaises(defaults: map<string, Value>, k: string, s: string)
    requires k in defaults && IsSubstring(k, s)
    ensures Merge(defaults, Str(s)) == Err(TypeError)
  {
    assert MergeEntry(defaults, Str(s), k).Err?;
  }
}
