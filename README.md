# Serialized DAGs and operators

This project models Airflow's DAG serializer, `airflow/serialization/serialized_objects.py`. The webserver and the scheduler use it to store a DAG without pickling it. It has three layers:

- **Value codec** (`BaseSerialization._serialize` / `_deserialize`). A depth-first encoder turns Python values into JSON data.
  - Primitives and lists pass through unchanged.
  - Enums become their value.
  - dicts, sets, tuples, datetimes, timedeltas, timezones and relativedeltas are wrapped in a two-key envelope `{"__var": payload, "__type": tag}`.
  - A DAG or an operator becomes its own JSON object.
  - A value the encoder cannot handle becomes the string `"serialization_failed"`.
  - The decoder opens the envelopes, passes primitives and lists through, and rejects unknown tags.
  - An enum comes back as its value, and a callable or other object as its text or the sentinel.
  - A DAG or operator value is not decodable by `_deserialize`: it has no envelope, so reading `__var` raises `KeyError`. DAGs and operators are decoded only by their own codecs.
- **Field elision** (`serialize_to_json`, `_is_excluded`, `_value_is_hardcoded_default`). An object is written as the fields of its serialized-field list.
  - A field is left out if it is `None`, of an excluded type, or the very default object of its constructor parameter.
  - Operators also leave out dates they share with their DAG, and empty `params` / `executor_config`.
  - Fields outside the "decorated" set lose their envelope.
- **Operator and DAG codecs** (`SerializedBaseOperator`, `SerializedDAG`).
  - An operator records its class and module.
  - A DAG lists its tasks.
  - Decoding rebuilds a shell object and `setattr`s every payload entry. It sets the serialized fields missing from the payload to `None`, and turns `tasks` into `task_dict`.
  - A repair pass then links every task back to its DAG, lets it inherit the DAG's dates, and links sub-DAGs to their parent. For each downstream id of a task, it adds an id to the downstream task's upstream set. As written, the id added is the downstream task's own (see Findings).
  - `to_dict` / `from_dict` add a versioned, schema-checked top-level document.

## How the model is built

- `Wire` is the JSON value.
  - A JSON object is an ordered list of fields.
  - `Put` is Python's `d[k] = v`: it replaces an existing key in place and appends a new one.
- `Value` is the Python value:
  - primitives; enums;
  - list, tuple, set (a member sequence) and dict (an entry sequence);
  - datetime and timedelta as integer seconds; timezone as a zone name;
  - relativedelta as its eight relative fields, its seven absolute fields and its weekday;
  - DAG; operator;
  - callables and other objects, which carry their text or fail.
- A DAG or an operator keeps its instance attributes as an insertion-ordered list of `Attr`. The list is read by `GetAttr` and written by `SetAttr`, which stand for `getattr`/`setattr`.
- The identity test `value is default` is a flag on each attribute slot. The flag says whether the slot still holds the constructor's default object.
- Python's `==`/`hash`, as sets and dict keys see them, is `Canon`: a bool compares as its integer and an enum as its value. `Hashable` rules out lists, dicts and sets as members.
- The serialized-field lists, the constructor-parameter tables, the attributes of a freshly built DAG or operator, and the plugin registry are inputs (`Ctx`).
- Back-references (`task.dag`, `subdag.parent_dag`) are snapshots of the owning DAG's attributes.
- The pure functions in `Encode`, `Decode` and `Document` state what the source computes.
- The loops of the source are imperative methods in `Codec`. Each is proved to compute its function: the field loop of `serialize_to_json`, the plugin-link loop, the `setattr` loops, the null-fill loop, the task loop and the repair pass.
- The laws are proved about the functions, in `ValueLaws`, `RelDeltaLaws`, `FieldLaws`, `DecodeLaws`, `RepairLaws`, `RepairRun` and `Document`. `RepairRun` follows the repair pass one turn of its loop at a time: the task lists it goes through form a run, and the laws of the whole pass are read off that run.

In two places the code evidently does not do what its authors intended. Both are listed under Findings. The encoder and the decoder of the model follow the code as written:
- `Serialize` drops a relativedelta's absolute fields that are 0.
- The repair pass of `deserialize_dag` adds each downstream task's own id to its upstream set.

A lemma exhibits each difference. Beside the code as written, the model defines the corrected behaviour, `EncodeRelDelta` and `Repair(_, true)`, and proves the intended property about it.

## Model

| member | source | states |
|---|---|---|
| Wire.Envelope | airflow/serialization/serialized_objects.py:96-98 | `_encode` builds an object with exactly the keys `__var` and `__type`, holding the payload and the tag's name |
| Wire.Unwrap | airflow/serialization/serialized_objects.py:130-131 | an envelope is replaced by its payload; a value without a `__type` key is kept as it is |
| Wire.Put | airflow/serialization/serialized_objects.py:127 | `d[k] = v`: afterwards `k` maps to `v`, every other key maps to what it did, and a new key is appended |
| Wire.PutDistinct | airflow/serialization/serialized_objects.py:116-133 | writing a key keeps the keys of a JSON object distinct |
| Values.SetAttr | airflow/serialization/serialized_objects.py:333 | `setattr(obj, name, v)`: afterwards `name` holds `v` and every other attribute is unchanged |
| Values.AddMember | airflow/serialization/serialized_objects.py:441 | `set.add(x)`: the members, as `==` sees them, gain exactly `x`; a member already present leaves the set as it is |
| Values.Dedupe | airflow/serialization/serialized_objects.py:321-322 | `set(v)` keeps the same members, as `==` sees them, with no two equal |
| Values.DedupeDistinct | airflow/serialization/serialized_objects.py:321-322 | `set(v)` of members that are already distinct is the identity |
| ValueLaws.DagValueNotDecodable | airflow/serialization/serialized_objects.py:160-161 | a DAG value serializes to its bare field object, so `_deserialize` of it raises `KeyError` on `__var` (:205) |
| ValueLaws.OperatorValueNotDecodable | airflow/serialization/serialized_objects.py:162-163 | an operator value serializes to its bare field object, so `_deserialize` of it raises `KeyError` on `__var` (:205) |
| ValueLaws.PrimitivePassThrough | airflow/serialization/serialized_objects.py:147-152 | a primitive, and an enum of it, serializes to itself with no envelope and deserializes back to the primitive |
| ValueLaws.ListPassThrough | airflow/serialization/serialized_objects.py:158-159 | a list serializes element-wise to a plain list without an envelope |
| ValueLaws.ListDecodes | airflow/serialization/serialized_objects.py:199-202 | a list decodes iff each element does, element-wise, to a list |
| ValueLaws.SerializeFallsBackToSentinel | airflow/serialization/serialized_objects.py:178-193 | a callable without source text, or an object that cannot be turned into text, serializes to `"serialization_failed"` |
| ValueLaws.EnvelopeOpens | airflow/serialization/serialized_objects.py:203-206 | decoding an envelope dispatches on its tag and decodes its payload |
| ValueLaws.UnknownTagRejected | airflow/serialization/serialized_objects.py:228-229 | an object whose `__type` names no known tag raises the `TypeError` of an invalid type |
| ValueLaws.EnvelopeRequired | airflow/serialization/serialized_objects.py:204-206 | an object decodes only if it has both envelope keys and a known tag |
| Encode.Serialize | airflow/serialization/serialized_objects.py:147-193 | only a list is written as a JSON list (a set or a tuple is wrapped), and a JSON object is written exactly for dicts, sets, tuples, datetimes, timedeltas, timezones, relativedeltas, DAGs and operators |
| Decode.Deserialize | airflow/serialization/serialized_objects.py:196-229 | a decoded list comes only from a JSON list and a decoded primitive only from a JSON primitive; a JSON object never decodes to either |
| ValueLaws.RoundTrip | airflow/serialization/serialized_objects.py:136-229 | `_deserialize(_serialize(v)) == v` for every value the encoder can restore, including nested ones; a relativedelta is restorable only when none of its absolute fields is 0 |
| ValueLaws.RoundTripDateTime | airflow/serialization/serialized_objects.py:164-165 | a datetime, as whole seconds, comes back unchanged |
| ValueLaws.RoundTripTimeDelta | airflow/serialization/serialized_objects.py:166-167 | a timedelta, as whole seconds, comes back unchanged |
| ValueLaws.RoundTripTimezone | airflow/serialization/serialized_objects.py:168-169 | a timezone comes back as the same zone name |
| ValueLaws.RoundTripRelDelta | airflow/serialization/serialized_objects.py:170-177 | a relativedelta with a valid weekday comes back with its zero absolute fields unset and everything else unchanged |
| ValueLaws.RelDeltaEnvelope | airflow/serialization/serialized_objects.py:170-177 | `_serialize` wraps the as-written relativedelta payload in a `relativedelta` envelope |
| ValueLaws.RoundTripTuple | airflow/serialization/serialized_objects.py:184-187 | a tuple of restorable values comes back as the same tuple |
| ValueLaws.RoundTripSet | airflow/serialization/serialized_objects.py:180-183 | a set of distinct, hashable, restorable members comes back with the same members in the same order |
| ValueLaws.RoundTripDict | airflow/serialization/serialized_objects.py:153-157 | a dict with distinct string keys and restorable values comes back with the same entries in the same order |
| ValueLaws.RoundTripAll | airflow/serialization/serialized_objects.py:158-159 | a list of restorable values round-trips element-wise |
| ValueLaws.RoundTripMembers | airflow/serialization/serialized_objects.py:224-225 | decoding the encoded members of a set gives back the members |
| ValueLaws.RoundTripEntries | airflow/serialization/serialized_objects.py:208-209 | the dict comprehension of `_deserialize` rebuilds the encoded entries after those already decoded |
| ValueLaws.SerializeEntriesAppend | airflow/serialization/serialized_objects.py:153-157 | encoding dict entries with fresh string keys appends one field per entry, in order |
| ValueLaws.PutEntryAppends | airflow/serialization/serialized_objects.py:208-209 | storing a key not yet in a dict appends the entry |
| Decode.DecodeWeekday | airflow/serialization/serialized_objects.py:220-221 | `weekday(*args)` rebuilds a weekday from one or two integers and never yields `n == 0` |
| Decode.DecodeRelDelta | airflow/serialization/serialized_objects.py:220-223 | `relativedelta(**var)` has a weekday iff the payload carries a `weekday` key |
| Decode.SetMembers | airflow/serialization/serialized_objects.py:224-225 | the members a set decodes to are hashable |
| Decode.FindTask | airflow/serialization/serialized_objects.py:441 | `task_dict[id]` finds the task whose id equals `id`, and none exists when it fails |
| Decode.PutTask | airflow/serialization/serialized_objects.py:405-407 | `task_dict[id] = op` makes `id` find `op`, grows the dict by at most that entry, and leaves every entry under another id as it was |
| Decode.DecodeTask | airflow/serialization/serialized_objects.py:405-406 | a decoded task is keyed by the payload's `task_id`, which must be hashable |
| Decode.NullFill | airflow/serialization/serialized_objects.py:335-336 | the attributes gained are exactly the serialized fields absent from the payload that are not constructor parameters |
| Decode.MatchOperators | airflow/serialization/serialized_objects.py:311-315 | matching one plugin link adds at most that link, and keeps every link of another name |
| Decode.PluginLinks | airflow/serialization/serialized_objects.py:309-317 | every link gathered is an earlier one or a registered plugin link, and an earlier link that no plugin renames is kept |
| Decode.OpFromPayload | airflow/serialization/serialized_objects.py:301-338 | a decoded operator comes from a dict with `task_id`, is a `SerializedBaseOperator` with no DAG yet, and carries only registered plugin links |
| Decode.DagFromPayload | airflow/serialization/serialized_objects.py:396-443 | a decoded DAG comes from a dict with `_dag_id` and has no parent DAG |
| Decode.PutLink | airflow/serialization/serialized_objects.py:315 | `links.update({name: link})` holds the new link, keeps every link of another name, and adds nothing else |
| Decode.ApplyOpKeys | airflow/serialization/serialized_objects.py:319-333 | the `setattr` loop never changes the operator's class, DAG or extra links |
| Decode.PrepareTask | airflow/serialization/serialized_objects.py:427-436 | the per-task part of the repair keeps the task's id and sets `task.dag` to the DAG |
| Decode.Repair | airflow/serialization/serialized_objects.py:426-441 | the repair pass leaves the DAG's own attributes alone and keeps the number of tasks |
| FieldLaws.SerializeFieldsLookup | airflow/serialization/serialized_objects.py:116-133 | a key is written iff it is a listed field that is not excluded, and its value is the encoding: enveloped if decorated, unwrapped otherwise |
| FieldLaws.SerializeFieldsDistinct | airflow/serialization/serialized_objects.py:116-133 | the encoded object has no duplicate keys |
| FieldLaws.DagFieldElided | airflow/serialization/serialized_objects.py:106-113 | a DAG field is written iff it is listed, set, not `None`, not of an excluded type and not the identical constructor default |
| FieldLaws.ExplicitDefaultWritten | airflow/serialization/serialized_objects.py:239-253 | the default test is identity: a listed DAG field the user set, even to a value equal to the default, is written |
| FieldLaws.OperatorExcludesBase | airflow/serialization/serialized_objects.py:341-351 | an operator leaves out every field the base rule leaves out, and a DAG uses exactly the base rule |
| FieldLaws.DagTasksListed | airflow/serialization/serialized_objects.py:387-393 | `tasks` lists every task's serialized operator, in `task_dict` order |
| FieldLaws.OperatorFields | airflow/serialization/serialized_objects.py:292-298 | a serialized operator always has `_task_type` and `_task_module` with its class and module; every other key is a kept field |
| Encode.SerializeOperator | airflow/serialization/serialized_objects.py:292-298 | the serialized operator is an object naming its class under `_task_type` and its module under `_task_module` |
| Encode.SerializeDag | airflow/serialization/serialized_objects.py:387-393 | the serialized DAG is an object whose `tasks` is a list with one entry per task |
| FieldLaws.OperatorSharedDateOmitted | airflow/serialization/serialized_objects.py:342-347 | a `*_date` equal to the owning DAG's is not written |
| FieldLaws.OperatorFalsyOmitted | airflow/serialization/serialized_objects.py:348-350 | empty `params` and `executor_config` are not written |
| DecodeLaws.NullFillSpec | airflow/serialization/serialized_objects.py:335-336 | a field becomes `None` iff it is serialized, absent from the payload and not a constructor parameter; others are untouched |
| DecodeLaws.ApplyOpKeysSpec | airflow/serialization/serialized_objects.py:319-333 | every payload entry becomes the attribute of its name, decoded by key; other attributes are untouched |
| DecodeLaws.ApplyOpKeysOk | airflow/serialization/serialized_objects.py:319-333 | the `setattr` loop succeeds iff every entry decodes |
| DecodeLaws.OperatorDecoded | airflow/serialization/serialized_objects.py:301-338 | the rebuilt operator is a `SerializedBaseOperator` with no DAG, the matching plugin links, the decoded entries, `None` for missing serialized fields, and the fresh instance's attributes otherwise |
| DecodeLaws.MatchOperatorsSpec | airflow/serialization/serialized_objects.py:311-315 | a plugin's link is recorded iff one of its operator classes has the payload's `_task_type` and `_task_module` |
| DecodeLaws.PutLinkTwice | airflow/serialization/serialized_objects.py:315 | recording the same plugin link twice changes nothing |
| DecodeLaws.MissingTaskTypeFails | airflow/serialization/serialized_objects.py:313 | with a registered operator class and no `_task_type` in the payload, matching raises `KeyError` |
| DecodeLaws.ApplyDagKeysSpec | airflow/serialization/serialized_objects.py:401-419 | every DAG payload entry other than `tasks` becomes the attribute of its name; `tasks` becomes `task_dict` |
| DecodeLaws.DagDecoded | airflow/serialization/serialized_objects.py:396-423 | the rebuilt DAG has `_dag_id`, the decoded entries, and `None` for missing serialized fields that are not constructor parameters |
| DecodeLaws.DagFilepathAndTasks | airflow/serialization/serialized_objects.py:404-425 | `full_filepath` equals `fileloc`, and `task_dict` has one task per decoded task |
| DecodeLaws.TaskListKeyed | airflow/serialization/serialized_objects.py:405-407 | `task_dict` has distinct ids, earlier entries keep their place, and each payload task's id finds a task |
| DecodeLaws.TaskListDecodes | airflow/serialization/serialized_objects.py:405-407 | building `task_dict` succeeds only if every payload task decodes |
| DecodeLaws.TaskListFrame | airflow/serialization/serialized_objects.py:405-407 | earlier entries keep their ids and places, and one that no payload task claims is unchanged |
| DecodeLaws.TaskListNoStrays | airflow/serialization/serialized_objects.py:405-407 | every task added to `task_dict` carries the id of a payload task |
| DecodeLaws.TaskListLastWins | airflow/serialization/serialized_objects.py:405-407 | under a payload id, `task_dict` holds the operator of the last payload task with that id |
| DecodeLaws.PutTaskKeeps | airflow/serialization/serialized_objects.py:405-407 | adding a task keeps ids distinct, leaves every id already present where it was, and changes no entry but the one under the new id |
| RepairLaws.LinkUpstreamLaws | airflow/serialization/serialized_objects.py:438-441 | the inner loop changes only upstream sets, only grows them, and each downstream id's task gains the added id |
| RepairLaws.PrepareTaskLaws | airflow/serialization/serialized_objects.py:427-436 | a task gets the DAG as `dag`, `None` dates take the DAG's, a sub-DAG learns its parent and `is_subdag`, and nothing else changes |
| RepairLaws.RepairTaskLaws | airflow/serialization/serialized_objects.py:426-441 | one turn of the loop: ids stay where they are, upstream sets only grow, the visited task is repaired, the other tasks change at most in their upstream sets, and each of its downstream ids names a task whose upstream set holds the added id |
| RepairRun.RepairFromTrace | airflow/serialization/serialized_objects.py:425-441 | a loop that finishes is a run: a list of task lists, one per turn, each step one such turn, from the DAG's task list to the result |
| RepairRun.RunRepairs | airflow/serialization/serialized_objects.py:426-441 | at the end of a run, each task keeps its id and is repaired |
| RepairRun.RunMirrors | airflow/serialization/serialized_objects.py:438-441 | at the end of a run, every downstream id names a task whose upstream set holds the id the loop adds |
| RepairRun.RepairedDag | airflow/serialization/serialized_objects.py:426-441 | after the pass every task is repaired, keeps its id, and every downstream id names a task |
| RepairRun.MissingDownstreamFails | airflow/serialization/serialized_objects.py:441 | a downstream id that names no task makes the pass fail |
| RepairRun.UpstreamMirrorsDownstream | airflow/serialization/serialized_objects.py:438-441 | corrected pass: if `b` is downstream of `a`, then `a` is in `b`'s upstream set |
| RepairRun.UpstreamAsWrittenSelfLoop | airflow/serialization/serialized_objects.py:438-441 | pass as written: every downstream target lists itself as upstream |
| RepairLaws.UpstreamEdgeExample | airflow/serialization/serialized_objects.py:438-441 | for `a >> b`, as written `b`'s upstream set becomes `{"b"}`; corrected, `{"a"}` |
| RepairRun.DecodedDagConsistent | airflow/serialization/serialized_objects.py:396-443 | in a decoded DAG every task points at the DAG, and a task date is `None` only where the DAG's is; every downstream id names a task that, as the loop is written, lists its own id as upstream |
| RelDeltaLaws.Normalized | airflow/serialization/serialized_objects.py:171 | the truthiness filter turns absolute fields equal to 0 into unset ones and keeps everything else |
| RelDeltaLaws.NormalizedFixes | airflow/serialization/serialized_objects.py:171 | the truthiness filter leaves a relativedelta unchanged iff none of its absolute fields is 0 |
| RelDeltaLaws.AsWrittenPayload | airflow/serialization/serialized_objects.py:170-177 | as written, the payload is an object with every nonzero offset and every nonzero absolute field under its keyword, and no field holding 0 |
| RelDeltaLaws.IntendedPayload | airflow/serialization/serialized_objects.py:170-177 | corrected, the payload has every nonzero offset and every absolute field that is set, 0 included, under its keyword |
| RelDeltaLaws.PayloadDecodes | airflow/serialization/serialized_objects.py:170-177 | a relativedelta payload, filtered or not, decodes back to the relativedelta with the filtered absolute fields |
| RelDeltaLaws.RelDeltaNormalizes | airflow/serialization/serialized_objects.py:170-177 | as written, a relativedelta comes back with its zero absolute fields unset |
| RelDeltaLaws.MidnightLost | airflow/serialization/serialized_objects.py:171 | as written, `relativedelta(hour=0)` comes back as `relativedelta()` |
| RelDeltaLaws.RelDeltaRoundTrip | airflow/serialization/serialized_objects.py:170-177 | with zero absolute fields kept, every relativedelta with a valid weekday round-trips |
| RelDeltaLaws.WeekdayDecodes | airflow/serialization/serialized_objects.py:172-176 | `[weekday, n]` and `[weekday]` decode back to the weekday |
| Document.ValidateSchema | airflow/serialization/serialized_objects.py:83-93 | with no schema it raises; a dict passes iff the schema accepts it; only dicts and strings can pass |
| Document.ToDict | airflow/serialization/serialized_objects.py:446-456 | the result is the document `{"__version": 1, "dag": serialize_dag(dag)}` exactly when the schema accepts that document; otherwise validation fails with a schema violation |
| Document.FromDict | airflow/serialization/serialized_objects.py:459-464 | a non-dict fails on `.get`; an unknown or absent version fails before any decoding; with a known version, a missing `dag` raises `KeyError` and a present one gives `deserialize_dag` of it |
| Document.DocumentRoundTrip | airflow/serialization/serialized_objects.py:446-464 | `from_dict(to_dict(dag))` is `deserialize_dag(serialize_dag(dag))` |
| Codec.SerializeToJson | airflow/serialization/serialized_objects.py:116-133 | the field loop computes `SerializeFields`, whose meaning `SerializeFieldsLookup` states |
| Codec.MatchPluginLinks | airflow/serialization/serialized_objects.py:309-317 | the plugin loop computes `PluginLinks` |
| Codec.DeserializeOperator | airflow/serialization/serialized_objects.py:301-338 | the method computes `OpFromPayload`, whose result `OperatorDecoded` describes |
| Codec.SetOperatorKeys | airflow/serialization/serialized_objects.py:319-333 | the `setattr` loop computes `ApplyOpKeys` |
| Codec.NullFillLoop | airflow/serialization/serialized_objects.py:335-336 | the null-fill loop computes `NullFill`, whose meaning `NullFillSpec` states |
| Codec.DeserializeDag | airflow/serialization/serialized_objects.py:396-443 | the method computes `DagFromPayload`, whose result `DagDecoded` and `DecodedDagConsistent` describe |
| Codec.SetDagKeys | airflow/serialization/serialized_objects.py:401-419 | the `setattr` loop over the DAG payload computes `ApplyDagKeys`, whose meaning `ApplyDagKeysSpec` states |
| Codec.DeserializeTasks | airflow/serialization/serialized_objects.py:405-407 | the task loop computes `DecodeTasks` |
| Codec.RepairTasks | airflow/serialization/serialized_objects.py:426-441 | the repair loop computes `RepairFrom`, whose result `RepairFromTrace`, `RunRepairs` and `RunMirrors` describe |
| Codec.RepairOne | airflow/serialization/serialized_objects.py:426-441 | the loop body for one task computes `RepairTask`, whose effect `RepairTaskLaws` states |
| Codec.PrepareOne | airflow/serialization/serialized_objects.py:426-435 | dates, sub-DAG and `task.dag` for one task compute `PrepareTask`, whose effect `PrepareTaskLaws` states |
| Codec.AddUpstream | airflow/serialization/serialized_objects.py:438-441 | the inner loop computes `LinkUpstream`, whose result `LinkUpstreamLaws` describes |

## Left out

- JSON text (`to_json`, `from_json`, `json.loads` inside `validate_schema`): the model works on parsed JSON values. The parser is a parameter of `ValidateSchema`.
- The JSON Schema validator and `load_dag_schema`: a schema is the predicate it decides.
- `get_python_source` and `str(var)`: a callable or other object carries its text as an optional string. When there is none, the encoder's caught exception gives the sentinel.
- Floating-point timestamps and durations, and pendulum's zone lookup: datetimes and timedeltas are integer seconds and a timezone is its name. A float `__version` such as `1.0` is therefore not modelled.
- Logging.
- The derivation of `_CONSTRUCTOR_PARAMS` and of the serialized-field lists by `signature(...)`: they are tables in `Ctx`.
- The plugin registry `operator_extra_links`: an input sequence in `Ctx`.
- Object identity and aliasing. `is` against a default is the slot's default flag. `task.dag` and `subdag.parent_dag` are snapshots of the DAG's attributes, not references. Setting `task.dag` does not run the `DAG` setter's side effects.
- Iteration order of Python sets: a set keeps its members in insertion order, and the encoder follows that order.
- dateutil's own normalisation in `relativedelta(...)` (carrying, e.g., 90 minutes into hours) and its handling of ill-typed arguments: the decoder stores the arguments as given.
- `bool`/`int` mixing inside tuples used as set members: equality of nested tuples compares members as written.
- Duplicate keys in a JSON object: the decoding laws assume distinct keys, which JSON objects produced by the encoder have.
- Decode.ApplyOpKeys: the operator's `dag` and `operator_extra_links` are kept outside its attribute list, so a payload key of either name is stored as a plain attribute. In Python, `setattr(op, "operator_extra_links", v)` would replace the plugin links gathered at `serialized_objects.py`:317, and `setattr(op, "dag", v)` would run the `BaseOperator.dag` setter, which raises `TypeError` for a value that is not a DAG. The encoder never writes either key.
- Decode.ApplyDagKeys: the DAG's `task_dict` and `parent_dag` are kept outside its attribute list, so a payload key of either name is stored as a plain attribute. In Python, `setattr(dag, k, v)` would replace the task dict or the parent DAG. The encoder never writes either key.
- Wire.Unwrap: an object with `__type` but no `__var` is kept whole, where Python would raise `KeyError`. The encoder never produces one.
- The `ValueError` of `from_dict` for an unsupported version is the model's `UnsupportedVersion` error, carrying the version found.
- Python's `assert isinstance(encoded_var, dict)` in `_deserialize`: a non-object, non-list, non-primitive JSON value does not exist in the model.
- Floats as primitives: `_primitive_types` includes `float`, but `Prim` has none, because the model has no floating point.
- Dict keys that are not primitives: `Entry` keys are primitives, so a tuple or enum key, which `_serialize` turns into `str(k)`, is not modelled. Tuple and enum text has no counterpart here.
- The `relativedelta` keyword arguments `weeks`, `yearday`, `nlyearday`, `dt1` and `dt2`: `RelDeltaArg` refuses them as unexpected. The encoder never writes them, and dateutil's folding of them into other fields is not modelled.
- ValueLaws.RoundTrip: a relativedelta with an absolute field set to 0 does not come back unchanged, so `Restorable` excludes it. `RoundTripRelDelta` states what comes back for it: the same relativedelta with those fields unset.

## Findings

| source | as written | input that shows it | evidently intended | confidence | as-written member | corrected member |
|---|---|---|---|---|---|---|
| airflow/serialization/serialized_objects.py:438-441 | for each `task_id` downstream of a task, `dag.task_dict[task_id]._upstream_task_ids.add(task_id)` adds the downstream task's own id to its upstream set | a DAG with tasks `a >> b`: after decoding, `b`'s upstream set is `{"b"}` | the downstream task's upstream set gains the current task's id, so `b`'s upstream set is `{"a"}` | not executed | RepairRun.UpstreamAsWrittenSelfLoop | RepairRun.UpstreamMirrorsDownstream |
| airflow/serialization/serialized_objects.py:171 | the relativedelta payload keeps only truthy attributes, so an absolute field set to 0 (`hour=0`, `minute=0`, …) is dropped | `relativedelta(hour=0)` encodes to an empty payload and decodes to `relativedelta()`, which no longer resets the hour | absolute fields are kept when they are set, even to 0 | not executed | RelDeltaLaws.MidnightLost | RelDeltaLaws.RelDeltaRoundTrip |
