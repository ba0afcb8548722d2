# Applied water allocation — a Dafny model

This project models the allocation core of AppliedWaterAllocation, a Django application. The core
turns a database of wells, agricultural fields, pipes, crops, per-field time-step demand and well
production records into a linear program: one decision variable per pipe, an objective of benefit
minus distance cost, and lower/upper bounds on what each field receives, what each well sends,
and what each well sends to each crop it is known to have watered. It also models the helpers of
the CSV importer that turn a field map and a CSV record into the values of a new row.

The database is an immutable `Snapshot` (`models.dfy`). The program is data: constraints are
lists of variable names with a bound, and an `Assignment` says what it means to satisfy them. The
solver is outside the model. Python and Django exceptions are values of `Errors.Error`, carried by a
`Result`.

Files, leaves first:

- `wrappers.dfy` holds `Option`, `Result` and the exception kinds the code raises.
- `seqs.dfy` holds `Filter` (a Django `filter`), `Distinct` and their multiset lemmas.
- `text.dfy` holds `str.split`, its inverse `Join`, and `str` of a natural number.
- `models.dfy` models `allocate/models.py`: entities, `efficiency_options`, `demand`, `capacity`,
  `losses`, `objects.get`, the schema's uniqueness and foreign keys (`WellFormed`), and the two
  lookups the builder performs.
- `allocation.dfy` models `allocate/allocation.py` with its four evident bugs corrected.
  It covers the variables, the two `defaultdict` indexes, the three constraint blocks, the
  objective terms, `get_parts` and `build_problem`.
- `allocation_props.dfy` relates the built constraints to the snapshot. An assignment satisfies
  them exactly when every field, well and crop-tagged record with a pipe stays within its bounds.
- `allocation_shape.dfy` holds further properties of the built program:
  - one distinct variable per pipe, each variable in exactly one group of each index;
  - the objective as a sum of net benefits;
  - when building succeeds and what it raises otherwise;
  - the number of constraints;
  - infeasibility from negative demand.
- `as_written.dfy` models the five places where the code as written raises, or drops its result,
  instead of doing what it evidently intends, with concrete counterexamples (see Findings). The
  blocks of `get_parts` run in order, so as written the first failure hides the later ones; each
  later block is modelled on its own, as it would run once the earlier ones are fixed.
- `load.dfy` models `sanitize_input`, `get_value` and the field-map handling of `generic_csv_import`
  from `allocate/load.py`.

Modelling choices that follow the code rather than the prose description of the system:

- Net demand is consumptive use minus precipitation. It is never clamped at zero.
- A field with a pipe but no time-step row makes `get_parts` raise `DoesNotExist`; it is not
  treated as zero demand.
- Variables are free (`Variable(name=...)` carries no sign constraint).
- There is no cap on pipes per field, no slack variable and no division of demand by an
  irrigation efficiency.
- Crop constraints exist only for wells with at least one pipe, because the crop loop is nested
  in the well loop.
- The strict `<`/`>` comparisons of lines 44, 50-51 and 63 are modelled as the non-strict bounds
  `<=`/`>=`.
- `Well.annual_production(year)` is called at line 49 but defined nowhere in the models. It is a
  parameter `ap: (string, int) -> real` of the builder.

## Model

| member | source | states |
|---|---|---|
| Models.EfficiencyOptions | allocate/models.py:13-16 | one option per comma-separated segment of the stored text; no option contains a comma; joining the options with commas gives back the stored text |
| Text.SplitThenJoin | allocate/models.py:16 | joining what `split` returns with its separator restores the original string |
| Text.JoinThenSplit | allocate/models.py:16 | splitting a join of separator-free segments restores the segments |
| Models.Demand | allocate/models.py:70-72 | demand plus precipitation is the consumptive use; demand is negative exactly when precipitation exceeds consumptive use |
| Models.Capacity | allocate/models.py:37-40 | a well without production records has capacity zero; non-negative quantities give non-negative capacity |
| Models.CapacityAppend | allocate/models.py:37-40 | capacity sums all of a well's production: one more record raises its own well's capacity by its quantity and leaves every other well's unchanged |
| Models.Losses | allocate/models.py:28-35 | allocated amount plus losses is the capacity; losses are non-negative exactly when the allocated amount does not exceed the capacity |
| Models.Get | allocate/allocation.py:43 | `objects.get` succeeds exactly on one match and returns it; no match raises `DoesNotExist`, several raise `MultipleObjectsReturned` |
| Models.GetUnique | allocate/allocation.py:43-48 | `objects.get` over rows of which at most one matches returns the matching row when there is one, and raises `DoesNotExist` exactly when there is none |
| Models.DemandLookupIsFunction | allocate/allocation.py:43 | on a well-formed snapshot (one timestep row per field and step, `unique_together` of models.py:61-62) the demand lookup of a known field returns the demand of the one matching row, and raises `DoesNotExist` exactly when no row matches |
| Models.DemandFor | allocate/allocation.py:43 | the demand lookup of a field for a time step either gives the demand of some time-step row of that field and step, or raises one of `DoesNotExist`/`MultipleObjectsReturned` for `AgField`/`AgFieldTimestep`; on a well-formed snapshot it is the one row's demand (Models.DemandLookupIsFunction) |
| Models.ProductionAt | allocate/models.py:43-48 | the production row of a well for a time step, as `objects.get(well=..., timestep=...)` reads it: a success is a row of that well and step; a failure is `DoesNotExist` or `MultipleObjectsReturned`; with the (well, timestep) key it is the one row (Models.ProductionLookupIsFunction) |
| Models.ProductionLookupIsFunction | allocate/models.py:44-45 | with at most one production row per (well, time step), a lookup returns that row, and raises `DoesNotExist` exactly when there is none |
| Allocation.NetCoefficient | allocate/allocation.py:34-35 | each unit sent along a pipe earns 3000 minus the pipe's length; that is positive exactly when the pipe is shorter than 3000 m |
| Allocation.VariableName | allocate/allocation.py:29 | the name `well_<well_id>_field_<liq_id>` of a pipe's variable; its parts sit where AllocationShape.NameLayout locates them, and it is injective for underscore-free well ids (AllocationShape.VariableNameInjective) |
| Allocation.OrderedPipes | allocate/allocation.py:26-27 | the pipes in the order the builder visits them: every visited pipe is a pipe of the snapshot into a known field; on a well-formed snapshot the order is a permutation of the pipes (AllocationProps.OrderedPipesPermutation) |
| Allocation.Benefits | allocate/allocation.py:34 | one benefit term per visited pipe, its variable times 3000; with the costs it sums to the net value (AllocationShape.TermsNet) |
| Allocation.Costs | allocate/allocation.py:35-36 | one cost term per visited pipe, its variable times the pipe's length; with the benefits it sums to the net value (AllocationShape.TermsNet) |
| Allocation.NetValue | allocate/allocation.py:34-36 | the objective's value pipe by pipe, 3000 minus the length times the flow; it does not depend on the order of the pipes (AllocationShape.NetValuePermutation) and is the built objective (AllocationShape.ObjectiveIsNetBenefit) |
| Allocation.Append | allocate/allocation.py:39-40 | `defaultdict(list)` append: keys stay distinct; a new key is added at the end with a one-element list; an existing key's list grows by the value; other lists are unchanged |
| Allocation.BuildIndex | allocate/allocation.py:22-40 | the index has one group per distinct key, exactly the keys of the visited pipes; each group holds the names of exactly that key's pipes in visiting order |
| Allocation.BoundPairMeaning | allocate/allocation.py:44-45 | an assignment meets the upper and the margin-scaled lower bound exactly when the sum of the variables lies between them |
| Allocation.FieldConstraints | allocate/allocation.py:42-45 | the field block is built exactly when the demand lookup of every field of the index succeeds; otherwise it raises the lookup error of the first field, in index order, whose lookup fails; it has two constraints per field |
| Allocation.Lookup | allocate/allocation.py:61 | `vars_by_name[key]` for each key succeeds exactly when every key was built and then returns the keys themselves; otherwise it raises `KeyError` for the first key, in order, that was never built |
| Allocation.CropConstraints | allocate/allocation.py:53-64 | the crop block is built exactly when every crop-tagged record's pipes have built variables; it has two constraints per crop-tagged record; untagged records are skipped; a failure is the `KeyError` of the first tagged record, in order, with an unbuilt variable, naming its first unbuilt key |
| Allocation.WellConstraints | allocate/allocation.py:47-64 | the well block fails only with `DoesNotExist` or `MultipleObjectsReturned` for `Well`, or with `KeyError` for a variable never built |
| Allocation.GetParts | allocate/allocation.py:16-66 | one benefit and one cost term per variable, in step with the variables; one distinct variable per pipe (AllocationShape.OneVariablePerPipe), the objective as the pipes' net benefit (AllocationShape.ObjectiveIsNetBenefit), the constraints as per-field, per-well and per-crop bounds (AllocationProps.ConstraintsMeanBounds), and success exactly when every field with a pipe has a demand row (AllocationShape.GetPartsSucceeds) |
| Allocation.BuildProblem | allocate/allocation.py:69-71 | the program `build_problem` evidently should hand back, `get_parts` with time step 1 and year 2018; its objective and feasibility are stated by AllocationShape.BuildProblemMeaning |
| AllocationProps.OrderedPipesPermutation | allocate/allocation.py:26-27 | visiting the pipes of each field in turn reaches every pipe of a well-formed snapshot exactly once |
| AllocationProps.GroupMatchesPipes | allocate/allocation.py:39-40 | a group of either index holds, up to order, the names of exactly the pipes with its key, and there is at least one such pipe |
| AllocationProps.KeyHasGroup | allocate/allocation.py:39-40 | every field (well) some pipe reaches has its group in the field (well) index |
| AllocationProps.FieldConstraintsMeaning | allocate/allocation.py:42-45 | an assignment satisfies the field block exactly when every field group's sum lies within its demand bounds |
| AllocationProps.CropConstraintsMeaning | allocate/allocation.py:53-64 | an assignment satisfies a well's crop block exactly when each crop-tagged record bounds what the well sends to fields of that crop |
| AllocationProps.WellConstraintsMeaning | allocate/allocation.py:47-64 | an assignment satisfies the well block exactly when every well group is within its production bounds and its crop records hold |
| AllocationProps.ConstraintsMeanBounds | allocate/allocation.py:42-64 | on a well-formed snapshot an assignment satisfies every constraint exactly when every field with a pipe gets between 0.95 of its demand and its demand, every well with a pipe sends between 0.95 of its annual production and that production, and every crop-tagged record of such a well bounds what it sends to that crop |
| AllocationShape.NameLayout | allocate/allocation.py:29 | where the well id, the separator and the field id sit inside a variable name |
| AllocationShape.VariableNameInjective | allocate/allocation.py:29 | with underscore-free well ids, two pipes get the same variable name exactly when they join the same well and field |
| AllocationShape.PipeNamesDistinct | allocate/allocation.py:29-31 | with unique pipe ends and underscore-free well ids, pipe names are pairwise distinct |
| AllocationShape.PermutedNames | allocate/allocation.py:26-31 | the names of any reordering of distinct-named pipes are distinct, as many as the pipes, once each |
| AllocationShape.OneVariablePerPipe | allocate/allocation.py:26-31 | the program's variables are pairwise distinct, as many as the pipes, and each pipe's name occurs exactly once |
| AllocationShape.GroupPartition | allocate/allocation.py:39-40 | a pipe's variable is in a group exactly when the group's key is the pipe's field (well) |
| AllocationShape.IndexPartition | allocate/allocation.py:39-40 | on a well-formed snapshot, a pipe's variable is in a group of the field (well) index exactly when the group is its field's (well's) |
| AllocationShape.OneGroup | allocate/allocation.py:39-40 | a pipe's variable lies in some group and never in two |
| AllocationShape.VariableInOneGroup | allocate/allocation.py:39-40 | on a well-formed snapshot every pipe's variable lies in exactly one group of each index |
| AllocationShape.TermsNet | allocate/allocation.py:34-36 | benefit terms minus cost terms is the per-pipe net value |
| AllocationShape.NetValuePermutation | allocate/allocation.py:34-36 | the net value does not depend on the order the pipes are visited in |
| AllocationShape.ObjectiveIsNetBenefit | allocate/allocation.py:69-71 | the objective is, over the snapshot's pipes, the water on each pipe times 3000 minus its length |
| AllocationShape.BuildProblemMeaning | allocate/allocation.py:69-71 | the program `build_problem` should hand back maximises the pipes' net benefit, and an assignment is feasible in it exactly when every field, well and crop-tagged record with a pipe is within its bounds for time step 1 and year 2018 |
| AllocationShape.CropConstraintsSucceed | allocate/allocation.py:53-64 | when every pipe's variable is built, no crop lookup raises |
| AllocationShape.LookupRaisesFirstMissing | allocate/allocation.py:61 | with nothing built, the comprehension over keys `a`, `b` raises `KeyError` for `a`, the first missing key |
| AllocationShape.WellConstraintsSucceed | allocate/allocation.py:47-64 | with distinct, known well ids and every variable built, the well block succeeds with two constraints per well plus two per crop-tagged record |
| AllocationShape.TaggedCountIsFilter | allocate/allocation.py:54-57 | counting crop-tagged records well by well over distinct wells counts the tagged records of those wells |
| AllocationShape.MissingDemandRow | allocate/allocation.py:43 | a failed demand lookup of a known field on a well-formed snapshot is `DoesNotExist` for `AgFieldTimestep` |
| AllocationShape.DemandsOfGroups | allocate/allocation.py:42-43 | every group of the field index has a demand row exactly when every field with a pipe has one |
| AllocationShape.GetPartsSucceeds | allocate/allocation.py:42-64 | on a well-formed snapshot building succeeds exactly when every field with a pipe has a time-step row for the step; otherwise it raises `DoesNotExist` for `AgFieldTimestep` |
| AllocationShape.IndexSize | allocate/allocation.py:22-40 | each index has one group per distinct field (well) among the pipes |
| AllocationShape.ConstraintCount | allocate/allocation.py:42-64 | the program has two constraints per field with a pipe, two per well with a pipe, and two per crop-tagged record of a well with a pipe |
| AllocationShape.BoundPairSatisfiable | allocate/allocation.py:44-45 | a bound pair over at least one variable with the 0.95 margin can be met exactly when its bound is not negative |
| AllocationShape.NegativeDemandInfeasible | allocate/allocation.py:43-45 | a field with a pipe whose row has more precipitation than consumptive use makes every assignment infeasible |
| AsWritten.CapacityAsWritten | allocate/models.py:37-40 | as written, `capacity` raises `AttributeError` for every well; the message names `NoneType` exactly when the well has no records |
| AsWritten.LossesAsWritten | allocate/models.py:28-35 | as written, `losses` raises the error `capacity` raises |
| AsWritten.ExampleCapacity | allocate/models.py:35-40 | on a one-record well the intended capacity is 5.0 and losses 1.0, while as written both raise |
| AsWritten.FieldConstraintsAsWritten | allocate/allocation.py:42-45 | as written, the field block is empty without fields; otherwise it raises the first field's lookup error, or `TypeError` from summing the index's keys |
| AsWritten.WellConstraintsAsWritten | allocate/allocation.py:47-51 | the well block as written, run on its own (it is reached only once line 45 is fixed and `annual_production` exists), is empty without wells; once the first well is found it raises `TypeError` from comparing a list with a number |
| AsWritten.GetPartsAsWritten | allocate/allocation.py:16-51 | as written, `get_parts` can only succeed with no constraints at all |
| AsWritten.AsWrittenAgreesWithoutPipes | allocate/allocation.py:16-66 | without pipes both builders return the same empty program |
| AsWritten.AsWrittenFailsWithPipes | allocate/allocation.py:42-45 | whenever the corrected builder succeeds on a well-formed snapshot with a pipe, the code as written raises the `TypeError` of line 45 |
| AsWritten.AgFieldLabel | allocate/allocation.py:61 | `str` of an `AgField` row begins with `A` (`AgField object (<pk>)`) |
| AsWritten.CropKeyAsWritten | allocate/allocation.py:61 | the key line 61 looks up, `well_<id>_field_AgField object (<pk>)`; it never equals a built name for underscore-free well ids and field ids not starting with `A` (AsWritten.AsWrittenKeyNeverBuilt) |
| AsWritten.CropConstraintsAsWritten | allocate/allocation.py:53-64 | the crop block as written, run on its own (it is reached only once lines 45 and 49-51 are fixed), succeeds exactly when every as-written key was built, and otherwise raises the `KeyError` of the first tagged record, in order, with an unbuilt as-written key, naming its first such key |
| AsWritten.AsWrittenKeyNeverBuilt | allocate/allocation.py:61 | the key line 61 looks up never equals a built name when well ids are underscore-free and field ids do not start with `A` |
| AsWritten.CropBlockAsWrittenFails | allocate/allocation.py:59-61 | a crop-tagged record of a well with a pipe into a field of that crop makes the crop block as written raise, while the corrected one succeeds |
| AsWritten.ExampleWellFormed | allocate/models.py:44-62 | the one-well, one-field, one-pipe example satisfies the schema's keys and foreign keys |
| AsWritten.ExampleCorrected | allocate/allocation.py:16-64 | on the example the corrected builder succeeds with six constraints |
| AsWritten.ExampleAsWrittenLine45 | allocate/allocation.py:45 | on the example the builder as written raises `TypeError` at line 45 |
| AsWritten.ExampleAsWrittenLine50 | allocate/allocation.py:50 | on the example's well index the well block as written, run on its own, raises `TypeError` at line 50 |
| AsWritten.ExampleAsWrittenLine61 | allocate/allocation.py:61 | on the example's records the crop block as written, run on its own, raises `KeyError` at line 61 for `well_1_field_AgField object (7)` |
| AsWritten.BuildProblemAsWritten | allocate/allocation.py:69-71 | as written, `build_problem` raises what `get_parts` raises and otherwise hands back `None` |
| AsWritten.ExampleBuildProblem | allocate/allocation.py:69-71 | on the example the corrected `build_problem` hands back a six-constraint program, while as written it hands back `None` |
| Load.SanitizeInput | allocate/load.py:14-17 | `""` and `" "` become `None`, every other value is kept, and the result is always sanitized, so sanitizing twice is sanitizing once |
| Load.FetchRow | allocate/load.py:30-33 | an unknown model raises `AttributeError`; no match gives `None`; one match gives that row; several raise `MultipleObjectsReturned` |
| Load.SplitModelKey | allocate/load.py:26-27 | unpacking `model_key.split(".")` succeeds exactly when the key has one dot; the model and the attribute are dot-free and rejoin to the key |
| Load.ForeignKeyValue | allocate/load.py:24-33 | an empty dict raises `IndexError`; a key without exactly one dot raises `ValueError`; a missing column raises `KeyError`; a success is the row fetch on the sanitized cell |
| Load.GetValue | allocate/load.py:20-38 | a constant is returned regardless of the record; a column gives its sanitized cell, or `None` when the record lacks it; a foreign key gives `None` or a row of a known model |
| Load.Normalize | allocate/load.py:49-51 | keys are kept in order; each given source is kept and each `None` becomes the column of the same name |
| Load.IdentityFieldMap | allocate/load.py:42-47 | without a field map, each header column maps to itself |
| Load.NormalizeResolved | allocate/load.py:49-51 | normalising a map without `None`s changes nothing, so normalisation is idempotent |
| Load.IdentityIsAllNone | allocate/load.py:42-51 | leaving the field map out is the same as giving `None` for every header column |
| Load.ResolveFieldMap | allocate/load.py:42-51 | the field map in use has the given map's keys, or the header when none is given |
| Load.RecordValues | allocate/load.py:56 | the values dictionary is built exactly when every source resolves; it has exactly the field map's keys, in order, each with its source's value; otherwise it raises the error of the first source, in map order, that fails |
| Load.IdentityCopiesRecord | allocate/load.py:46-56 | without a field map, a record's values are its sanitized cells under their column names, `None` for columns it lacks |
| Load.ImportValues | allocate/load.py:53-56 | one values dictionary per record, in order, each what the record resolves to; otherwise the error of the first record that fails |

## Left out

- Solving: the cvxpy `Problem(...)` call of `build_problem` and `solve` are outside the model. `Feasible` and `ObjectiveValue` state what a solution means instead.
- Strict comparisons: lines 44, 50-51 and 63 write `<`/`>`. cvxpy either treats them as `<=`/`>=` or rejects them, depending on its version, which is outside the model. Every bound is non-strict here.
- Decimal arithmetic: every `DecimalField` is a `real`. As written, `MARGIN * <Decimal>` at lines 45 and 64 mixes `float` with `Decimal`, which Python rejects with `TypeError`. That is not modelled.
- Models.EfficiencyOptions keeps each option as its text. `float(option)` parsing, and the `ValueError` it raises on a non-number, are not modelled.
- Models.Capacity: the corrected capacity (the sum of all the well's production quantities, as the TODO at models.py:39 intends) is what the builder and the lemmas use. The as-written query is AsWritten.CapacityAsWritten.
- `Well.annual_production(year)` is defined nowhere in models.py, so it is the parameter `ap`.
- Persistence: `pipe.save()` at line 32 stores the variable name on the pipe row. It has no effect on the program and is not modelled.
- The `Variable` objects themselves are represented by their names.
- Schema assumptions: the lemmas take `WellFormed` snapshots, with distinct well ids, field ids and pipe ends, one time-step row per field and step, one production row per well and time step, and foreign keys that resolve. The initial migration declares most of these: `well_id` unique (allocate/migrations/0001_initial.py:32), `liq_id` unique (:55), `unique_together` on (well, agfield) for pipes (:71) and on (agfield, timestep) for time steps (:84). The models.py shown omits the first three. Production's (well, timestep) pair is unique by models.py:44-45. Crop and field primary keys are distinct by being primary keys. The functions themselves still handle duplicates, raising `MultipleObjectsReturned` from `objects.get`.
- AllocationShape.VariableNameInjective and the lemmas built on it assume well ids without `_`. Otherwise two pipes can share a name, e.g. `("1_field_2", "3")` and `("1", "2_field_3")`.
- Row order: Django querysets without `order_by` have no defined order. The model fixes the snapshot's list order for fields, pipes, wells and production records.
- Load.Normalize: `generic_csv_import` rewrites each `None` entry inside the caller's own `field_map` dictionary (load.py:48-50), so the caller's map is changed by the call. The model is pure: `Normalize` returns the map as it stands after the loop, which is what the caller's dictionary then holds; the aliasing itself is not modelled.
- Load.GetValue: the database is abstract (`Db`). Django's `FieldError` for an unknown attribute is not modelled. Such an attribute simply matches no rows.
- CSV reading (`open`, `csv.DictReader`), `get_or_create`, the `IntegrityError` handling of `skip_failed_create`, and the `load*` wrappers are I/O or persistence and are not modelled. `ImportValues` stops at the values dictionaries handed to `get_or_create`.
- `generic_csv_import` without a field map and with no data rows leaves the map `None`. This is indistinguishable here, because no record is processed.

## Findings

| source | as written | input that shows it | evidently intended | confidence | as-written member | corrected member |
|---|---|---|---|---|---|---|
| allocate/models.py:40 | `.values('quantity').annotate(capacity=Sum('quantity')).first().capacity` reads an attribute off a dict (or off `None`), so it raises `AttributeError` | any well, e.g. well `1` with one record of 5.0 | the sum of the well's production quantities | high, not executed | AsWritten.CapacityAsWritten, AsWritten.ExampleCapacity | Models.Capacity, Models.CapacityAppend |
| allocate/allocation.py:45 | `sum(vars_by_field)` sums the index's keys (liq ids), raising `TypeError` | one well `1`, one field `7` with a time-step row, one pipe between them | `sum(vars_by_field[field])` | high, not executed | AsWritten.FieldConstraintsAsWritten, AsWritten.ExampleAsWrittenLine45 | Allocation.FieldConstraints, AllocationProps.FieldConstraintsMeaning |
| allocate/allocation.py:50-51 | `sum(vars_by_well[well] < annual_production)` compares a list with a number, raising `TypeError` | the one-pipe snapshot's well index, with the well block run on its own: on that snapshot line 45 raises first, and line 49's `annual_production` is not defined on `Well`, so line 50 is reached only once both are fixed | `sum(vars_by_well[well]) <= annual_production` | high, not executed | AsWritten.WellConstraintsAsWritten, AsWritten.ExampleAsWrittenLine50 | Allocation.WellConstraints, AllocationProps.WellConstraintsMeaning |
| allocate/allocation.py:61 | the key uses `str(pipe.agfield)`, i.e. `AgField object (<pk>)`, so `vars_by_name` raises `KeyError` | the one-pipe snapshot with a production record of well `1` tagged with field `7`'s crop, with the crop block run on its own (it is reached only once lines 45 and 49-51 are fixed): key `well_1_field_AgField object (7)` | `pipe.agfield.liq_id` in the key | high, not executed | AsWritten.CropConstraintsAsWritten, AsWritten.ExampleAsWrittenLine61 | Allocation.CropConstraints, AllocationProps.CropConstraintsMeaning |
| allocate/allocation.py:69-71 | `build_problem` builds `problem` and has no `return`, so the caller receives `None` | the one-pipe snapshot with `get_parts` corrected: the six-constraint program is built and dropped | `return problem` | high, not executed | AsWritten.BuildProblemAsWritten, AsWritten.ExampleBuildProblem | Allocation.BuildProblem, AllocationShape.BuildProblemMeaning |
