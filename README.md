# A verified model of the WebAppStart ORM, request binder and configuration

This project models, in Dafny, the sequential core of a small asynchronous Python web
application (`www/`):

- **The ORM mapping compiler** (`www/orm.py`). `ModelMetaclass.__new__` takes a class body
  (an ordered list of attributes), picks out the `Field` descriptors, finds the single primary key,
  and builds the `select` / `insert` / `update` / `delete` templates with `?` placeholders
  (`create_args_string`).
- **ORM instances** (`www/orm.py`). A dictionary-backed `Model` object with:
  - `getValue`, and `getValueOrDefault`, which falls back to a field's default (a value or a
    factory) and stores it;
  - the argument vectors that `save`, `update` and `remove` hand to the templates;
  - `find`'s "no row gives `None`" rule;
  - the `?` to `%s` rewrite and the `size` / fetch split of `select` / `execute`.
- **The request binder** (`www/coroweb.py`):
  - the signature classifiers (required and named keyword-only parameters, `**kw`, the position of
    `request`) and the `get` / `post` tags;
  - `RequestHandler`, which turns a request (method, content type, decoded body, query, path
    variables) into the handler's keyword arguments or a `400 Bad Request` message;
  - the filters of `add_route` / `add_routes`.
- **Configuration** (`www/config.py`). The attribute dictionary `Dict`, `toDict`, and `merge`,
  which lays an override configuration over the defaults.

Modules:

- `Wrappers`: `Option`, `Result`.
- `Text`: joining, counting characters, ASCII lower-casing.
- `Values`: Python values and their truthiness.
- `OrmSchema`: fields, the compiler, templates, placeholder counts.
- `OrmModel`: the instance class, defaults, argument vectors, `find`, the driver rewrite.
- `CorowebSignature`: the classifiers, `get` / `post`.
- `CorowebHandler`: the binder, `RequestHandler`, the router.
- `Config`: `Dict`, `toDict`, `merge`.

Shapes of the model:

- The source's loops are methods proved against specification functions:
  - `create_args_string`, and the attribute scan and pop loop of `__new__`;
  - `getValueOrDefault` with its `setattr`, and the `save` argument loop;
  - the `copy`, `match_info` and required-argument loops of `__call__`;
  - the zip loop of `Dict.__init__`, and the registration loop of `add_routes`.
- Objects whose fields the source updates are classes: `Model`, `Dict`, `RequestHandler`, and the
  application router.
- The recursive, expression-built parts are functions with lemmas: the templates, the classifiers,
  `toDict` and `merge`.

Behaviours kept exactly as the code has them:

- The key test in `__new__` is Python truthiness: an attribute named `""` does not count as a
  recorded key.
- `__table__` is used only when it is truthy.
- `k in override` in `merge` works on dictionaries, lists and strings (substring test) and raises
  `TypeError` otherwise. Indexing a list or string override then raises `TypeError`. An empty default
  section never looks at its override at all.
- With only a primary key, the templates come out as ``select `id`, from `t` `` and
  ``insert into `t` (, `id`) values (?)``, which is what the code produces.

## Model

| member | source | states |
|---|---|---|
| OrmSchema.StringField | www/orm.py:170-173 | column type is the `ddl` argument; key flag, name and default are the arguments |
| OrmSchema.BooleanField | www/orm.py:176-179 | column type `boolean`, never a primary key |
| OrmSchema.IntegerField | www/orm.py:182-185 | column type `bigint`; key flag, name and default are the arguments |
| OrmSchema.FloatField | www/orm.py:188-191 | column type `real`; key flag (default `False`), name (default `None`) and default are the arguments |
| OrmSchema.TextField | www/orm.py:194-197 | column type `text`, never a primary key |
| OrmSchema.FieldConstructorDefaults | www/orm.py:170-197 | called without arguments: `StringField` is `varchar(100)` with no default; `BooleanField` defaults to `False`; `IntegerField` to `0`; `TextField` has no default; `FloatField` given only its default keeps it; none is a key |
| OrmSchema.CreateArgsString | www/orm.py:152-156 | the loop builds `n` copies of `?` joined by `", "`; the result holds exactly `n` placeholders and is empty exactly when `n` is 0 |
| OrmSchema.ArgsStringCount | www/orm.py:152-156 | `create_args_string(n)` has exactly `n` `?`, and is `""` iff `n == 0` |
| OrmSchema.Compile | www/orm.py:60-92 | the scan and pop loops compute exactly the compiler's specification: the base class passes through, key errors, the schema and the remaining attributes |
| OrmSchema.CompileBaseModel | www/orm.py:61-62 | the class named `Model` is returned with its body untouched |
| OrmSchema.CompileWithoutKey | www/orm.py:79-80 | compiling fails with "Primary key not found." exactly when no attribute is a key field |
| OrmSchema.CompileDuplicateKey | www/orm.py:72-74 | with two or more key fields, compiling fails naming the second one, with message "Duplicate primary key for field: <name>" |
| OrmSchema.CompileEntity | www/orm.py:63-92 | with exactly one key field: the table is the truthy `__table__` or the class name; `__primary_key__` is that key; `__fields__` are the other fields in declaration order; `__mappings__` holds every field; the schema is well formed; the remaining attributes are exactly the non-field ones |
| OrmSchema.KeyScanCounts | www/orm.py:67-80 | the key scan yields no key, the only key, or the duplicate error at the second key, according to how many key fields there are |
| OrmSchema.FieldMapExactly | www/orm.py:68-71 | `mappings` has exactly the field attributes' names, each mapped to its own field |
| OrmSchema.OtherFieldsExactly | www/orm.py:68-77 | `fields` holds exactly the non-key field names, without repetition |
| OrmSchema.PrimaryKeysExactly | www/orm.py:69-75 | the key candidates are exactly the attributes whose field has `primary_key` set |
| OrmSchema.WithoutExactly | www/orm.py:81-82 | popping the mapped names keeps exactly the attributes whose names are not mapped |
| OrmSchema.Assignments | www/orm.py:90 | one `` `col` =? `` per other field, with `col` the field's `name` when set, else the attribute name |
| OrmSchema.UpdateColumnsByDefault | www/orm.py:90 | with no `name` given on any field, the update assignments use the attribute names |
| OrmSchema.SelectPlaceholders | www/orm.py:88 | the select template carries no placeholder |
| OrmSchema.InsertPlaceholders | www/orm.py:89 | the insert template carries `len(fields) + 1` placeholders |
| OrmSchema.InsertWithoutOtherFields | www/orm.py:89 | with no other field the insert template's column list starts with `, ` |
| OrmSchema.UpdatePlaceholders | www/orm.py:90 | the update template carries one placeholder per other field plus the key's |
| OrmSchema.DeletePlaceholders | www/orm.py:91 | the delete template carries exactly one placeholder |
| OrmSchema.SchemaPlaceholders | www/orm.py:88-91 | for every well-formed schema whose names contain no `?`: 0, `len(fields)+1`, `len(fields)+1` and 1 placeholders |
| OrmModel.Model.constructor | www/orm.py:99-100 | the keyword arguments become the instance's dictionary |
| OrmModel.Model.GetAttr | www/orm.py:102-106 | reading an attribute succeeds exactly for stored keys, and raises `AttributeError` otherwise |
| OrmModel.Model.SetAttr | www/orm.py:108-109 | setting an attribute writes that key and nothing else |
| OrmModel.Model.GetValue | www/orm.py:111-112 | the stored value, or `None` when the attribute is missing; never a default |
| OrmModel.Model.GetValueOrDefault | www/orm.py:114-122 | returns and stores what the intended resolution gives: a stored value other than `None` as is; else the field's default (the factory's result when callable), stored on the instance; `KeyError` for a key without a field |
| OrmModel.ResolveKeepsValue | www/orm.py:115-116 | a stored value other than `None` is returned and nothing is written |
| OrmModel.ResolveStores | www/orm.py:119-121 | after resolution the instance holds the returned value under the key, and no other key changes |
| OrmModel.ResolveIdempotent | www/orm.py:114-122 | resolving the same key again returns the same value and writes nothing |
| OrmModel.Model.SaveArgs | www/orm.py:124-126 | `save` resolves the other fields in order, then the key; the new dictionary is the defaults filled in; the arguments equal what `update` reads afterwards |
| OrmModel.FillDefaultsEffect | www/orm.py:124-126 | `save` fills every unset column that declares a default (constant or factory), keeps every set value, and touches no other key |
| OrmModel.Model.UpdateArgs | www/orm.py:131-133 | `update` passes `getValue` of each other field in order, then of the key |
| OrmModel.Model.RemoveArgs | www/orm.py:138-139 | `remove` passes the key's stored value alone |
| OrmModel.ArgumentsFitTemplates | www/orm.py:124-140 | the argument vectors of `save`, `update` and `remove` are exactly as long as their templates' placeholder counts |
| OrmModel.AsWrittenAgreesWithoutDefault | www/orm.py:114-122 | where no default is used, the code as written and as intended agree |
| OrmModel.AsWrittenRaisesOnDefault | www/orm.py:118-120 | whenever a default would be used, the code as written raises `TypeError` |
| OrmModel.UserWithoutIdRaisesAsWritten | www/orm.py:203-205 | a `User` without `id` makes the code as written raise where the intended code stores the factory's identifier |
| OrmModel.FindQuery | www/orm.py:147 | `find` passes the primary key as its only argument with a row limit of 1 |
| OrmModel.FindPlaceholders | www/orm.py:147 | `find`'s statement holds exactly one placeholder, matching its one argument |
| OrmModel.FindResult | www/orm.py:148-150 | `None` exactly when no row comes back, otherwise the first row |
| OrmModel.Fetch | www/orm.py:36-39 | a truthy `size` returns the first `size` rows (or all when fewer); otherwise all rows; always a prefix |
| OrmModel.DriverSqlMarks | www/orm.py:35 | after the rewrite no `?` remains and each `?` has become a `%` |
| OrmModel.DriverSqlRoundTrip | www/orm.py:50 | on statements without `%` the rewrite is undone exactly by turning `%s` back into `?` |
| CorowebSignature.Get | www/coroweb.py:7-18 | the wrapper keeps the function's name and signature and is tagged `GET` and the path |
| CorowebSignature.Post | www/coroweb.py:20-31 | the wrapper keeps the function's name and signature and is tagged `POST` and the path |
| CorowebSignature.RequiredKwArgs | www/coroweb.py:33-39 | a name is listed iff it is a keyword-only parameter without a default |
| CorowebSignature.NamedKwArgs | www/coroweb.py:41-47 | a name is listed iff it is a keyword-only parameter; the list keeps signature order |
| CorowebSignature.RequiredAreNamed | www/coroweb.py:33-47 | the required keyword arguments are a subsequence of the named ones |
| CorowebSignature.HasNamedKwArgs | www/coroweb.py:49-53 | true iff some parameter is keyword-only |
| CorowebSignature.NamedKwArgsPresent | www/coroweb.py:41-53 | `has_named_kw_args` holds iff `get_named_kw_args` is non-empty |
| CorowebSignature.HasVarKwArg | www/coroweb.py:55-59 | true iff some parameter is `**kw` |
| CorowebSignature.HasRequestArgMeaning | www/coroweb.py:61-71 | `ValueError` exactly when a parameter named `request` is followed by one that is not `*args`, keyword-only or `**kw`; otherwise the answer is whether `request` is declared |
| CorowebHandler.RequestHandler.constructor | www/coroweb.py:74-81 | the handler records the function and the five classifier results |
| CorowebHandler.RequestHandler.ReadRequest | www/coroweb.py:84-105 | reading the body or query computes exactly the extraction specification |
| CorowebHandler.RequestHandler.Call | www/coroweb.py:83-131 | the response is exactly the binder's specification applied to the request and the handler's behaviour |
| CorowebHandler.FirstValues | www/coroweb.py:103-105 | each query key is bound to its first value |
| CorowebHandler.CopyNamed | www/coroweb.py:109-114 | `copy` keeps exactly the entries of `kw` named as keyword parameters |
| CorowebHandler.Overlay | www/coroweb.py:116-119 | every path variable overwrites `kw` |
| CorowebHandler.CheckRequired | www/coroweb.py:122-125 | finds the first required name that `kw` lacks |
| CorowebHandler.FirstMissingMeaning | www/coroweb.py:122-125 | a name is reported iff one is missing, and it is the first missing one |
| CorowebHandler.PostRejections | www/coroweb.py:86-99 | a POST is refused exactly for a missing content type, a non-object JSON body, or a content type that is neither JSON, urlencoded nor multipart, with the three messages |
| CorowebHandler.ContentTypeCaseInsensitive | www/coroweb.py:89-95 | content types that differ only in ASCII letter case are read alike |
| CorowebHandler.JsonBodyBinds | www/coroweb.py:90-94 | a JSON object `{"a": 5}` binds `a` to 5; a JSON list is refused with "JSON body must be object." |
| CorowebHandler.UnreadIsMatchInfo | www/coroweb.py:106-107 | when nothing was read, the arguments are the path variables unfiltered (apart from `request`) |
| CorowebHandler.GetTakesFirstValue | www/coroweb.py:100-105 | for a GET with a query string, an accepted unshadowed key is bound to its first value |
| CorowebHandler.PayloadRestrictedToNamed | www/coroweb.py:108-114 | without `**kw`, only named keyword parameters, path variables and `request` survive |
| CorowebHandler.MatchInfoWins | www/coroweb.py:116-121 | path variables override read values, and `request` is bound to the request when declared |
| CorowebHandler.MissingArgument | www/coroweb.py:122-125 | binding fails iff a required keyword argument is absent, naming the first absent one in "Missing argument: <name>" |
| CorowebHandler.RequiredWithoutQuery | www/coroweb.py:122-125 | a GET without query string to a handler requiring `id` answers "Missing argument: id" |
| CorowebHandler.ApiErrorOnRaise | www/coroweb.py:126-131 | the response is a Bad Request iff binding fails; a raising handler yields `{"error": "ApiError"}`, otherwise its return value |
| CorowebHandler.Router.AddRoute | www/coroweb.py:134-142 | `ValueError` when `__method__` or `__route__` is missing, or the signature is rejected, and nothing registered; otherwise one route with the function's method, path and handler is appended |
| CorowebHandler.RegisteredRoutable | www/coroweb.py:154-162 | every function handed on is a public callable with truthy method and route tags |
| CorowebHandler.RegisteredAreDecorated | www/coroweb.py:154-162 | functions `add_routes` hands on always carry both tags, so the missing-tag error never arises there |
| CorowebHandler.DecoratedIsRoutable | www/coroweb.py:154-162 | a public function tagged by `get` or `post` with a non-empty path is registered |
| CorowebHandler.Router.AddRoutes | www/coroweb.py:147-162 | the error is the first one `add_route` raises over the filtered functions; earlier routes are kept; the new routes are, one for one and in order, the routes `add_route` builds (method, path, function and classification) for the filtered functions before the first rejected one, which is all of them when there is no error |
| CorowebHandler.CleanPrefixMeaning | www/coroweb.py:134-162 | the functions registered before `add_routes` stops are a prefix of the filtered ones, each accepted by `add_route`; they fall short exactly when some function is rejected, and the next one raises the first error |
| Config.Zip | www/config.py:6 | pairs up to the shorter of `names` and `values` |
| Config.Dict.constructor | www/config.py:4-7 | the entries are `kw` with the zipped pairs written over it in order |
| Config.AssignKeys | www/config.py:4-7 | the keys are those of `kw` and of the pairs |
| Config.AssignLast | www/config.py:4-7 | a paired key takes the value of its last pair, overriding `kw` |
| Config.AssignBase | www/config.py:4-7 | a key no pair names keeps its `kw` value |
| Config.Dict.GetAttr | www/config.py:9-13 | reading an attribute succeeds exactly for stored keys, and raises `AttributeError` with the message `Dict object has no attribute '<key>' ` otherwise |
| Config.AttributeMessageNamesKey | www/config.py:13 | the `AttributeError` message names the key: different keys give different messages |
| Config.Dict.SetAttr | www/config.py:15-16 | setting an attribute writes that key and nothing else |
| Config.ToDict | www/config.py:18-22 | keeps exactly the keys of the input |
| Config.ToDictLeaves | www/config.py:18-22 | only dictionaries become nested sections; other values are kept as they are |
| Config.ToDictRoundTrip | www/config.py:18-22 | turning the sections back into plain dictionaries gives the input back |
| Config.MergeEntries | www/config.py:24-34 | the result's keys are the defaults' keys; an absent key keeps its default; a present key takes the override's value, or the recursive merge when the default is a dictionary |
| Config.MergeEmpty | www/config.py:32-33 | merging with an empty override gives the defaults |
| Config.MergeSelf | www/config.py:24-34 | merging a configuration with itself gives it back |
| Config.MergeFits | www/config.py:24-34 | an override that is a dictionary wherever it overrides a default dictionary always merges without error |
| Config.NoneOverSectionRaises | www/config.py:27-29 | overriding a non-empty section by `None` raises `TypeError` |
| Config.NoneOverEmptySectionKeeps | www/config.py:26-29 | an empty section is never probed, so overriding it by `None` succeeds |
| Config.StringOverrideRaises | www/config.py:27-31 | a key found in a string override makes `merge` index the string, which raises `TypeError` |

## Left out

- Database I/O: `create_pool`, the cursors and the pool in `select` / `execute`, and the affected-row
  warnings of `save` / `update` / `remove`. Only the `?` to `%s` rewrite, the fetch split and the
  argument vectors are modelled.
- All logging, including the duplicate-argument warning of `__call__`.
- `next_id` and `time.time` (clock and randomness). A factory default is an opaque identifier `id`,
  and the caller supplies what it returns as `call(id)`.
- Floating point. `FloatField`'s default `0.0` is not modelled: `FloatField` keeps the `name=None`
  and `primary_key=False` defaults but takes `default` explicitly, as `User.created_at` passes it.
- The second `IntegerField` class near the end of `www/orm.py`. It shadows the first and calls
  `Field.__init__` with too few arguments.
- `Field.__str__`, and what `str()` makes of a truthy non-string `__table__`. This is rendered only
  for `None`, booleans, integers and strings.
- OrmModel.Model.GetValue: assumes column names do not clash with class attributes. Attribute lookup
  in the source finds methods such as `keys` or `update` before the instance's dictionary; the model
  always reads the dictionary.
- OrmModel.Model.GetAttr: the error carries the key, not the message text
  `'Model' object has no attribute ...`.
- CorowebSignature.HasRequestArgMeaning: the `ValueError` carries the function name, not the
  rendering of its signature (`str(sig)`), which depends on default values.
- CorowebHandler.Router.AddRoute: the `ValueError` for a missing tag carries the function name, not
  `str(fn)`, which holds a memory address.
- Body and query decoding: `request.json()`, `request.post()` and `parse_qs`. The request carries
  their results; a body that fails to decode is not modelled.
- Duplicate form keys, which `dict(**params)` would reject, are not modelled: the form is a map.
- The framework wrapping in `add_route`: `asyncio.coroutine` and `app.router.add_route`.
  Registration is the append to `Router.routes`.
- The dynamic `__import__` of `add_routes`, and `dir`'s alphabetical order: the module's attributes
  are given as a listing in the order `dir` returns them.
- Callable objects other than functions: a class in a handler module is treated as data.
- `add_static`: it only joins file system paths.
- The module-level loading of `config_default` / `config_override` in `www/config.py`.
- Config.ToDict: the result is a value tree (`Setting`) rather than nested `Dict` objects. Attribute
  access on it is `Dict.GetAttr`'s rule.
- Config.Merge: which `TypeError` message is raised first depends on dictionary iteration order, so
  the model records only that a `TypeError` occurs. Opaque objects are treated as not iterable.
- Python's `str.lower()` beyond ASCII: `Text.Lower` folds `A`-`Z` only.

## Findings

| source | as written | input that shows it | evidently intended | confidence | as-written member | corrected member |
|---|---|---|---|---|---|---|
| www/orm.py:120 | `logging.debug(...)` returns `None` and `%` is then applied to that `None`, so `TypeError` is raised before line 121 stores the default | `User(name='Test', email='test@example.com').getValueOrDefault('id')`: `id` is unset and its field's default is the factory `next_id` | the default is stored on the instance and returned | high (not executed) | OrmModel.UserWithoutIdRaisesAsWritten | OrmModel.Model.GetValueOrDefault |
