# sofa_template parameter tree, in Dafny

This project models the parameter tree of the `sofa_template` simulation template
(`template/utils.py`). The tree has two forms:

- **Nested form.** A mapping loaded from YAML. Its values are plain values (numbers, strings,
  `None`, lists) or further mappings, and its keys keep insertion order as Python dicts do.
  Modelled as `Nested.Dict`.
- **Flat form.** A list of `Param` records, each with a `name`, a `value` and the key path of its
  `parents`. Modelled as `seq<ParamRecord.Param>`.

The operations are `flatten` (nested to flat), `Params.to_yaml` (flat to nested),
`Params.__getitem__` (select a sub-tree by its first key), the naming helpers `parentname` and
`pts` (the "Parents" column of `build_table`), `Param.__eq__`, `Param.__call__` and
`DefaultParam.__call__` (update a param in place or on a copy), and `BaseFactory.__getattr__`
(component builders).

Modules, one per concern:

- `Values`: leaf values, the `float(v)` coercion of `flatten`, and Python `==` on values.
- `Nested`: the nested form with Python dict semantics (`get`, `update`, `setdefault`, key paths).
- `ParamRecord`: the `Param` record, `parentname`, `pts` and `__eq__`.
- `Flattening`: `flatten`, as a method with a loop and recursion, proved against the function
  `FlattenFrom`.
- `Unflattening`: `to_yaml`, as methods that walk a cursor down the nested map, proved against the
  structural function `Insert`.
- `RoundTrip`: `to_yaml` after `flatten` gives the mapping back.
- `Loading`: `Params.from_file`, where the flat form goes into the `Params` store, which is keyed
  by param name; `to_yaml` after `from_file` gives the mapping back only when leaf names are
  distinct across the tree.
- `Selection`: `__getitem__`, as a method with two loops, proved against `Selected`.
- `Table`: the two naming columns of `build_table`.
- `ParamObjects`: the `Param` object as a class; calling it updates its fields.
- `Factory`: `BaseFactory.__getattr__`.
- `Wrappers` and `Seqs`: `Option` and general sequence facts.

Python's `float(s)` on strings depends on Python's float syntax. It is a parameter
`parse: string -> Option<real>` of every operation that coerces. Python floats are modelled as
reals.

## Model

| member | source | states |
|---|---|---|
| Values.NumberOf | template/utils.py:158-161 | a value has a numeric meaning exactly when it is a bool, an int or a float |
| Values.Coerce | template/utils.py:158-161 | `float(v)` turns bools and ints into floats and keeps floats; a string becomes a float when it parses and is kept otherwise; `None` and lists raise TypeError, which is caught, so they are kept |
| Values.CoerceIdempotent | template/utils.py:158-161 | coercing an already coerced value changes nothing |
| Values.CoercePreservesNumbers | template/utils.py:158-161 | a coerced number is still `==` to the original (`float(3) == 3`) |
| Values.PyEqReflexive | template/utils.py:67-70 | every value equals itself under Python `==` |
| Values.PyEqSymmetric | template/utils.py:67-70 | Python `==` on values is symmetric |
| Values.PyEqTransitive | template/utils.py:67-70 | Python `==` on values is transitive |
| Nested.IndexOf | template/utils.py:142 | a dict lookup finds the first entry with the key, and finds nothing exactly when no entry has the key |
| Nested.Put | template/utils.py:145 | `update({k: it})` makes `k` map to `it`; an existing key keeps its position and a new key is appended after the old entries |
| Nested.PutSame | template/utils.py:145 | updating a key with the item it already holds leaves the dict unchanged |
| Nested.PutFrame | template/utils.py:145 | `update` of one key leaves every other key's value, and the order of existing keys, unchanged |
| Nested.PutPut | template/utils.py:145 | updating the same key twice equals updating it once with the second value |
| Nested.SetDefault | template/utils.py:142 | `setdefault(k, {})` returns the existing item and leaves the dict unchanged, or inserts and returns a new empty map; afterwards `k` maps to the returned item |
| Nested.GetAt | template/utils.py:142 | with distinct keys, looking up the key of entry `i` gives entry `i` |
| ParamRecord.ParentName | template/utils.py:56-58 | `parentname` is the name alone without parents, and otherwise the dotted parents, a dot, then the name |
| ParamRecord.LastDot | template/utils.py:106-108 | gives the index of the last `.` in the string, or -1 when there is none |
| ParamRecord.Pts | template/utils.py:105-108 | `pts` never contains a line break; on a one-line string it is everything before the last dot, or "" when that dot is missing or comes first |
| ParamRecord.LastDotJoined | template/utils.py:106-108 | in `a + "." + b` with a dot-free `b`, the last dot is the joining one |
| ParamRecord.PtsOfParentName | template/utils.py:105-108 | for a dot-free name on one line, `pts(parentname)` gives back the joined parents, and "" without parents |
| ParamRecord.ParamEq | template/utils.py:67-70 | a `Param` equals another `Param` exactly when their values are `==`, and equals a plain value exactly when its value is `==` to it |
| ParamRecord.ParamEqIgnoresNaming | template/utils.py:67-70 | names and parents play no part in equality; a param equals its own value |
| ParamRecord.ParamEqEquivalence | template/utils.py:67-70 | equality between params is symmetric and transitive |
| ParamRecord.ParentNameAsWritten | template/utils.py:44-58 | as written, `parentname` raises TypeError exactly when `parents` is held as a tuple |
| ParamRecord.DefaultParentsRaise | template/utils.py:44-58 | `Param("dt", 0.1)` gets the tuple default and has no `parentname`; the same parents as a list give `"DEFAULT.dt"` |
| ParamRecord.DefaultParentName | template/utils.py:44-58 | with the default parents held as a sequence, a dot-free name gets `"DEFAULT." + name` and its table "Parents" cell is `"DEFAULT"` |
| Flattening.Flatten | template/utils.py:149-163 | the loop with its recursive calls returns exactly `Flattened(d, parents)` |
| Flattening.FlattenLength | template/utils.py:153-162 | `flatten` emits exactly one param per non-map leaf at any depth |
| Flattening.EmptySubMapYieldsNothing | template/utils.py:153-157 | an empty sub-map contributes no param |
| Flattening.FlattenNonEmpty | template/utils.py:153-162 | a non-empty tree with no empty sub-map yields at least one param |
| Flattening.Under | template/utils.py:154 | prefixing a key to each param's parents keeps length, order, names and values |
| Flattening.FlattenUnder | template/utils.py:154-156 | flattening under a longer parent path only puts the extra key in front of every param's parents |
| Flattening.FlattenSound | template/utils.py:149-163 | every emitted param's parents extend the starting parents, its remaining parents then its name are the key path of a non-map leaf, and its value is that leaf coerced |
| Flattening.FlattenComplete | template/utils.py:149-163 | every non-map leaf is emitted, with its key path split into parents and name and its value coerced |
| Unflattening.SetDefaultAt | template/utils.py:142 | `p.setdefault(k, {})` at cursor path `at` leaves an existing item under `at + [k]` unchanged and otherwise creates an empty map there |
| Unflattening.SetDefaultAtKeeps | template/utils.py:142 | `setdefault` on a key already present leaves the whole tree unchanged, and no key path that leaves `at + [k]` changes |
| Unflattening.UpdateAt | template/utils.py:145 | `p.update({k: it})` at cursor path `at` makes `at + [k]` reach `it` |
| Unflattening.UpdateAtKeeps | template/utils.py:145 | an update at the cursor leaves every key path that leaves `at + [k]` reaching what it reached before |
| Unflattening.SetDefaultKeepsInsert | template/utils.py:141-142 | a `setdefault` on the walk of a param's parents does not change where the param ends up |
| Unflattening.InsertAtMap | template/utils.py:145 | once the cursor is on the map at the end of the parents, storing is a single `update` |
| Unflattening.InsertBlocked | template/utils.py:141-145 | a non-map value on the walk makes storing fail (AttributeError) |
| Unflattening.InsertIntoEmpty | template/utils.py:139-145 | storing into a fresh map always succeeds |
| Unflattening.InsertFailsIffBlocked | template/utils.py:139-145 | storing fails exactly when the walk along the parents meets a non-map value |
| Unflattening.InsertPlaces | template/utils.py:139-145 | after storing, the param's parents followed by its name reach its value |
| Unflattening.InsertKeepsOthers | template/utils.py:139-145 | storing discards no sibling: every key path that leaves the param's own path reaches what it reached before |
| Unflattening.InsertWf | template/utils.py:139-145 | storing keeps keys distinct at every level |
| Unflattening.Place | template/utils.py:139-145 | the cursor walk (`setdefault` per parent, then `update`) gives exactly `Insert`, and None where Python raises |
| Unflattening.ToYaml | template/utils.py:137-146 | the loop over the params gives exactly `Rebuilt(ps)`, the params stored one after another into `{}` |
| RoundTrip.InsertAllAppend | template/utils.py:138-145 | storing two runs of params is storing the first, then the second into the result |
| RoundTrip.InsertAllUnder | template/utils.py:138-145 | params all under an existing sub-map key rebuild that sub-map in place |
| RoundTrip.InsertAllUnderNew | template/utils.py:138-145 | params all under a new key append one sub-map that holds what they rebuild |
| RoundTrip.RoundTripFrom | template/utils.py:137-163 | rebuilding the params of entries `i..` into a map lacking their keys appends exactly those entries |
| RoundTrip.RoundTrip | template/utils.py:137-163 | `to_yaml` after `flatten` gives the mapping back, when keys are distinct, no sub-map is empty and coercion leaves every leaf as it is |
| Loading.NameIndex | template/utils.py:88 | a lookup by name finds a stored param with that name, and finds nothing exactly when no stored param has it |
| Loading.StoreOne | template/utils.py:88 | `store[p.name] = p` puts `p` in the store and adds nothing else: a new name is appended after the kept entries, and a stored name is replaced by `p` in its position with every other entry kept in place |
| Loading.StoreOneDistinct | template/utils.py:88 | storing by name keeps every name held at most once |
| Loading.StoreAllDistinctNames | template/utils.py:101-102 | params with pairwise distinct names are stored as they come, in order |
| Loading.StoredDistinctNames | template/utils.py:101-102 | the store built from params with distinct names holds exactly those params |
| Loading.FromFileDistinct | template/utils.py:101-102 | the params loaded from a file never share a name |
| Loading.LoadRoundTrip | template/utils.py:101-102 | when no two leaves share a name, `from_file` holds exactly the flat form, and `to_yaml` after it gives the mapping back (under the conditions of `RoundTrip.RoundTrip`) |
| Loading.SameLeafNameLost | template/utils.py:101-102 | `{"a": {"x": 1}, "b": {"x": 2}}` loads as one param `x` and comes back as `{"b": {"x": 2.0}}` |
| RoundTrip.EmptySubMapLost | template/utils.py:153-157 | `{"a": {}}` comes back as `{}` |
| RoundTrip.IntegerComesBackAsFloat | template/utils.py:158-161 | `{"n": 100}` comes back as `{"n": 100.0}` |
| Selection.Matching | template/utils.py:124-129 | the selected params are at most as many as the receiver holds |
| Selection.MatchingMembers | template/utils.py:124-129 | a param is selected exactly when it is one of the receiver's and its first parent is the key |
| Selection.MatchingAppend | template/utils.py:124-129 | selection keeps order: it selects from each part of a sequence separately |
| Selection.MatchingUnder | template/utils.py:124-129 | params all under one key are all selected by that key and none by any other |
| Selection.Stripped | template/utils.py:130-132 | each copy has its first parent dropped, in the same order, with name and value unchanged |
| Selection.StrippedUnder | template/utils.py:130-132 | dropping the first parent undoes putting a key in front |
| Selection.GetItem | template/utils.py:124-135 | the two loops give exactly `Selected(ps, item)`: the stripped copies when some param is under `item`, the base class lookup otherwise |
| Selection.MatchingFlattenFrom | template/utils.py:124-129 | on a flat form, a key selects the params of its sub-map and nothing else |
| Selection.SelectFlattened | template/utils.py:124-135 | on a loaded mapping, a key holding a sub-map with at least one leaf selects exactly the flat form of that sub-map; a sub-map without leaves, a plain value or a missing key falls back to the base class |
| Table.NameColumns | template/utils.py:110-121 | one row per param, in order, with the name in the "Name" cell and a one-line "Parents" cell |
| Table.JoinPlain | template/utils.py:58 | joining non-empty keys without dots or line breaks gives a non-empty one-line string |
| Table.FlattenPlain | template/utils.py:149-163 | a tree with plain keys flattens to params with plain names and parents |
| Table.RowOfPlain | template/utils.py:105-108 | for plain keys, the "Parents" cell of a param is its parents joined by dots, or empty without parents |
| Table.TableOfFlattened | template/utils.py:104-122 | for a loaded tree with plain keys, each row shows the param's parents joined by dots, then its name |
| ParamObjects.AppliedSetsOnlyRegistered | template/utils.py:60-65 | a call sets the value and every registered keyword attribute, and leaves unregistered attributes and the registered set unchanged |
| ParamObjects.AppliedIdempotent | template/utils.py:60-65 | calling twice with the same arguments equals calling once |
| ParamObjects.ParamObject.constructor | template/utils.py:44-48 | parents default to `DEFAULT` and `parents` joins the registered attributes |
| ParamObjects.ParamObject.Copy | template/utils.py:79 | the copy is a new object of the same kind with the same state |
| ParamObjects.ParamObject.SetAttributes | template/utils.py:62-64 | the loop over the keyword arguments assigns exactly the allowed ones |
| ParamObjects.ParamObject.Call | template/utils.py:60-85 | a `Param` updates itself and returns itself; a `DefaultParam` returns a new updated copy and is left unchanged |
| Factory.Upper | template/utils.py:237 | upper-casing maps `a`-`z` to `A`-`Z` and leaves every other character as it is |
| Factory.GetAttr | template/utils.py:236-243 | the empty name raises IndexError, and a builder is returned only for the name read |
| Factory.Build | template/utils.py:239-240 | a builder returns the keyword arguments it is called with |
| Factory.BuilderIffNotLower | template/utils.py:236-243 | a name gives a builder exactly when it starts with anything but a lower-case letter, and `None` exactly when it starts with one |
| Factory.BuildReturnsNameAndKwargs | template/utils.py:236-243 | the builder read under `item` returns `(item, kw)` |

## Left out

- Engine code: `import_plugins`, `Model` (`init_scene`, `print_scene`, `run`), `NodeHelper`,
  `template/scene.py`, `template/meshing.py` and `template/main.py` drive the simulation engine,
  its GUI, plugins, meshing and environment variables. They are not part of this model.
- File I/O: `Params.__init__` with `tree_path` and `Params.from_file` read files through the
  `treefiles` library, and `to_yaml` ends with a `json` dump and load through `NumpyEncoder`. That
  last normalisation is not modelled: `Unflattening.ToYaml` returns the dict before it.
- `Tree` values: `to_yaml` replaces a `tf.Tree` value by its `.abs()` in place; `Tree` is not one
  of the modelled values.
- The base class `tf.Params`: it is not visible. Its storage is modelled as a dict keyed by
  param name (`Loading.Stored`), as `Params[str, Param]`, `self[x] = Param(x, ...)` and
  `params[x]` in `template/scene.py` indicate: a repeated name keeps its first position and
  takes the later param. Its `__getitem__` fallback is not visible, so `Selection.Delegated(key)`
  stands for it.
- RoundTrip.RoundTrip: it is about `to_yaml` on the output of `flatten`. For a `Params` loaded
  with `from_file` it holds only when no two leaves share a name; `Loading.LoadRoundTrip` states
  that case and `Loading.SameLeafNameLost` shows a tree where it fails.
- Selection.SelectFlattened: it is about `__getitem__` on the output of `flatten`, which is what a
  `Params` loaded with `from_file` holds only when leaf names are distinct
  (`Loading.LoadRoundTrip`). The `Params(cand)` built for the result is not modelled as a
  second store.
- The base class `tf.Param`: its constructor arguments and its `copy` are not visible. The
  attributes it registers are a constructor parameter, and `copy` is taken to give the same
  state and kind.
- `build_table` numeric columns and `rou` rounding: floating point, not modelled; only the
  "Parents" and "Name" columns are.
- `Param.table`/`show`, `InvalidParam` and `VisualStyle`: thin wrappers and constants with no
  behaviour of their own.
- Values.Coerce: Python's float syntax for strings, `float` overflow and float precision are
  not modelled; strings go through the `parse` parameter and floats are reals.
- Values.PyEq: dicts inside lists, tuples and other Python types are not values of this model.
- Nested.Dict: keys are strings; YAML keys of other types are not modelled.
- Unflattening.Place: the cursor `p` aliases a map inside `d`; the model names that map by the
  key path walked so far and rebuilds `d` along that path, which is what the aliasing achieves.
- Factory.Upper: Unicode case mapping is not modelled, only ASCII letters.
- ParamObjects.ParamObject.Call: `value=None` as a default argument is left to the caller, who
  passes `NoneValue`.

## Findings

| source | as written | input that shows it | evidently intended | confidence | as-written member | corrected member |
|---|---|---|---|---|---|---|
| template/utils.py:47 | without `parents`, `Param` stores the tuple `("DEFAULT",)`, and `parentname` (line 58) adds a list to it, which raises TypeError | `Param("dt", 0.1).parentname`, and `build_table` on any such param | default parents `["DEFAULT"]`, giving `"DEFAULT.dt"` | high, not executed | ParamRecord.DefaultParentsRaise | ParamRecord.DefaultParentName |
