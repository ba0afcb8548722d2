/**
  The code exactly as written where it differs from the evident intent modelled in `Models` and
  `Allocation`:

  - `capacity` in `allocate/models.py` reads an attribute off a dictionary (or off `None`), which
    raises `AttributeError` for every well;

  - line 45 sums the field index itself (its keys, the liq ids) instead of the field's variables,
    which raises `TypeError` as soon as there is a field with a pipe;
  - lines 50-51 compare the list of a well's variables with a number before summing, which raises
    `TypeError` for the first well with a pipe;
  - line 61 looks variables up under `well_<id>_field_<str(pipe.agfield)>`, and `str` of an
    `AgField` row is `AgField object (<pk>)`, so the lookup raises `KeyError` for any crop-tagged
    record whose well has a pipe into a field of that crop;
  - `build_problem` builds the cvxpy problem and has no `return`, so its caller receives `None`.

  The three blocks of `get_parts` run in order, so on a snapshot with a pipe the code as written
  stops at line 45. Line 49 also calls `annual_production`, which `Well` does not define. Each
  block is therefore modelled on its own: the well block as it would run once line 45 is fixed and
  `annual_production` exists (the parameter `ap`), and the crop block as it would run once lines 45
  and 49-51 are fixed. `BuildProblemAsWritten` likewise runs over the corrected `get_parts`.
 */
module AsWritten {
  import opened Wrappers
  import opened Errors
  import opened Seqs
  import opened Text
  import opened Models
  import opened Allocation
  import opened AllocationProps
  import opened AllocationShape

  /** What Python raises for `0 + "<liq id>"` inside `sum`. */
  const SumOfKeysError: Error := TypeError("unsupported operand type(s) for +: 'int' and 'str'")

  /**
    What Python raises for `[<variables>] < annual_production` when the production is a `float`
    (a `Decimal` would be named `decimal.Decimal` instead).
   */
  const ListCompareError: Error := TypeError("'<' not supported between instances of 'list' and 'float'")

  // ----- models.py line 40: the capacity query -----

  /**
    `self.production.all().values('quantity').annotate(capacity=Sum('quantity')).first().capacity`:
    `.first()` of a `values` query is a dictionary (or `None` without rows), and neither has an
    attribute `capacity`.
   */
  function CapacityAsWritten(w: Well, production: seq<WellProduction>): (r: Result<real, Error>)
    ensures r.Failure? && r.error.AttributeError?
    ensures ProductionOf(production, w.wellId) == [] <==> r == Failure(AttributeError("'NoneType' object has no attribute 'capacity'"))
  {
    if ProductionOf(production, w.wellId) == [] then Failure(AttributeError("'NoneType' object has no attribute 'capacity'"))
    else Failure(AttributeError("'dict' object has no attribute 'capacity'"))
  }

  /** `losses` as written: it reads `capacity` first, so it raises the same error. */
  function LossesAsWritten(w: Well, production: seq<WellProduction>): (r: Result<real, Error>)
    ensures r.Failure? && r.error == CapacityAsWritten(w, production).error
  {
    match CapacityAsWritten(w, production)
    case Failure(e) => Failure(e)
    case Success(capacity) => Success(capacity - w.allocatedAmount)
  }

  // ----- allocation.py line 45: the field block -----

  /** The field loop as written: the first field's demand is looked up, then summing the keys raises. */
  function FieldConstraintsAsWritten(s: Snapshot, step: int, idx: seq<Group>): (r: Result<seq<Constraint>, Error>)
    ensures idx == [] <==> r == Success([])
    ensures idx != [] && DemandFor(s, idx[0].key, step).Failure? ==> r == Failure(DemandFor(s, idx[0].key, step).error)
    ensures idx != [] && DemandFor(s, idx[0].key, step).Success? ==> r == Failure(SumOfKeysError)
  {
    if idx == [] then Success([])
    else
      var demand :- DemandFor(s, idx[0].key, step);
      Failure(SumOfKeysError)
  }

  // ----- allocation.py lines 50-51: the well block -----

  /**
    The well loop as written, on its own: the first well is fetched, then comparing its variable
    list raises. It is reached only once line 45 is fixed and `annual_production` exists.
   */
  function WellConstraintsAsWritten(s: Snapshot, year: int, ap: (string, int) -> real, built: set<VarName>, idx: seq<Group>)
    : (r: Result<seq<Constraint>, Error>)
    ensures idx == [] <==> r == Success([])
    ensures idx != [] && |Filter(s.wells, (w: Well) => w.wellId == idx[0].key)| == 1 ==> r == Failure(ListCompareError)
  {
    if idx == [] then Success([])
    else
      var well :- Get(Filter(s.wells, (w: Well) => w.wellId == idx[0].key), "Well");
      Failure(ListCompareError)
  }

  /** `get_parts` as written. */
  function GetPartsAsWritten(s: Snapshot, step: int, year: int, ap: (string, int) -> real): (r: Result<Problem, Error>)
    ensures r.Success? ==> r.value.constraints == []
  {
    var ordered := OrderedPipes(s.fields, s.pipes);
    var variables := Names(ordered);
    var fieldConstraints :- FieldConstraintsAsWritten(s, step, BuildIndex(ordered, ByField));
    var wellConstraints :- WellConstraintsAsWritten(s, year, ap, (set v | v in variables), BuildIndex(ordered, ByWell));
    Success(Problem(variables, Benefits(ordered), Costs(ordered), fieldConstraints + wellConstraints))
  }

  lemma {:induction false} NoPipesNoOrder(fields: seq<AgField>)
    ensures OrderedPipes(fields, []) == []
  {
    if fields != [] {
      NoPipesNoOrder(fields[1..]);
    }
  }

  /** Without pipes both builders return the same, empty, program. */
  lemma AsWrittenAgreesWithoutPipes(s: Snapshot, step: int, year: int, ap: (string, int) -> real)
    requires s.pipes == []
    ensures GetPartsAsWritten(s, step, year, ap) == GetParts(s, step, year, ap)
    ensures GetParts(s, step, year, ap) == Success(Problem([], [], [], []))
  {
    NoPipesNoOrder(s.fields);
  }

  /**
    Whenever the corrected builder succeeds on a well-formed snapshot with at least one pipe, the
    builder as written raises the `TypeError` of line 45.
   */
  lemma AsWrittenFailsWithPipes(s: Snapshot, step: int, year: int, ap: (string, int) -> real)
    requires WellFormed(s)
    requires s.pipes != []
    requires GetParts(s, step, year, ap).Success?
    ensures GetPartsAsWritten(s, step, year, ap) == Failure(SumOfKeysError)
  {
    WellFormedCovered(s);
    var ordered := OrderedPipes(s.fields, s.pipes);
    var byField := BuildIndex(ordered, ByField);
    var p := s.pipes[0];
    assert p in WithKey(s.pipes, ByField, p.agfield);
    KeyHasGroup(ordered, s.pipes, ByField, p.agfield);
    var g :| g in byField && g.key == p.agfield;
    assert byField != [] && byField[0] in byField;
    assert FieldConstraints(s, step, byField).Success?;
  }

  // ----- allocation.py line 61: the crop variable key -----

  /** `str(field)` for a Django row without `__str__`: `AgField object (<pk>)`, or `(None)` without a row. */
  function AgFieldLabel(fields: seq<AgField>, liqId: string): (r: string)
    ensures |r| > 0 && r[0] == 'A'
  {
    var m := Filter(fields, (f: AgField) => f.liqId == liqId);
    "AgField object (" + (if |m| == 0 then "None" else NatToString(m[0].pk)) + ")"
  }

  /** The key line 61 looks up for pipe `p` of well `wellId`. */
  function CropKeyAsWritten(s: Snapshot, wellId: string, p: Pipe): VarName {
    VariableName(wellId, AgFieldLabel(s.fields, p.agfield))
  }

  function CropKeysAsWritten(s: Snapshot, wellId: string, ps: seq<Pipe>): seq<VarName> {
    seq(|ps|, i requires 0 <= i < |ps| => CropKeyAsWritten(s, wellId, ps[i]))
  }

  /** Whether the crop loop as written gets past record `pr`: it is untagged, or all its as-written keys were built. */
  function CropKeysBuilt(s: Snapshot, wellId: string, built: set<VarName>): WellProduction -> bool {
    (pr: WellProduction) => !Tagged(pr) || Lookup(built, CropKeysAsWritten(s, wellId, CropPipes(s, wellId, pr.crop.value))).Success?
  }

  /**
    The crop loop as written, on its own: the same constraints, looked up under the as-written keys.
    It is reached only once lines 45 and 49-51 are fixed.
   */
  function CropConstraintsAsWritten(s: Snapshot, wellId: string, prods: seq<WellProduction>, built: set<VarName>)
    : (r: Result<seq<Constraint>, Error>)
    ensures r.Success? <==>
      forall pr :: pr in prods && Tagged(pr) ==> forall n :: n in CropKeysAsWritten(s, wellId, CropPipes(s, wellId, pr.crop.value)) ==> n in built
    ensures r.Failure? ==> r.error.KeyError? && r.error.key !in built
    ensures r.Failure? ==> exists i :: FirstFailing(prods, CropKeysBuilt(s, wellId, built), i)
                                       && r.error == Lookup(built, CropKeysAsWritten(s, wellId, CropPipes(s, wellId, prods[i].crop.value))).error
  {
    if prods == [] then Success([])
    else
      assert forall pr :: pr in prods <==> pr == prods[0] || pr in prods[1..];
      if !Tagged(prods[0]) then
        FirstFailingShift(prods, CropKeysBuilt(s, wellId, built));
        CropConstraintsAsWritten(s, wellId, prods[1..], built)
      else
        var vars :- Lookup(built, CropKeysAsWritten(s, wellId, CropPipes(s, wellId, prods[0].crop.value)));
        FirstFailingShift(prods, CropKeysBuilt(s, wellId, built));
        var rest :- CropConstraintsAsWritten(s, wellId, prods[1..], built);
        Success(BoundPair(vars, prods[0].quantity, SingleCropWellAllocationMargin) + rest)
  }

  /** A liq id that cannot be mistaken for an `AgField object (...)` label. */
  predicate NotLabelLike(liqId: string) {
    |liqId| == 0 || liqId[0] != 'A'
  }

  /** The as-written key never equals the name of a pipe with a plain well id and a field id not starting with `A`. */
  lemma AsWrittenKeyNeverBuilt(s: Snapshot, wellId: string, p: Pipe, q: Pipe)
    requires '_' !in wellId && '_' !in q.well
    requires NotLabelLike(q.agfield)
    ensures CropKeyAsWritten(s, wellId, p) != PipeName(q)
  {
    VariableNameInjective(wellId, AgFieldLabel(s.fields, p.agfield), q.well, q.agfield);
  }

  /**
    With plain well ids and field ids not starting with `A`, a crop-tagged record of a well that
    has a pipe into a field of that crop makes the as-written crop loop raise `KeyError`, while the
    corrected loop succeeds on the same variables.
   */
  lemma CropBlockAsWrittenFails(s: Snapshot, wellId: string, prods: seq<WellProduction>, pr: WellProduction)
    requires '_' !in wellId
    requires forall q :: q in s.pipes ==> '_' !in q.well && NotLabelLike(q.agfield)
    requires pr in prods && Tagged(pr)
    requires CropPipes(s, wellId, pr.crop.value) != []
    ensures CropConstraintsAsWritten(s, wellId, prods, set q | q in s.pipes :: PipeName(q)).Failure?
    ensures CropConstraints(s, wellId, prods, set q | q in s.pipes :: PipeName(q)).Success?
  {
    var built := set q | q in s.pipes :: PipeName(q);
    var cp := CropPipes(s, wellId, pr.crop.value);
    var key := CropKeysAsWritten(s, wellId, cp)[0];
    forall q | q in s.pipes
      ensures key != PipeName(q)
    {
      AsWrittenKeyNeverBuilt(s, wellId, cp[0], q);
    }
    assert key !in built;
    CropConstraintsSucceed(s, wellId, prods, built);
  }

  // ----- One well, one field, one pipe -----

  /** Crop 1 on field `7` (pk 7), watered by well `1` over a 100 m pipe, with a crop-tagged record. */
  const Example: Snapshot := Snapshot(
    [Crop(1, "alfalfa", "A", "0.7,0.8")],
    [Well("1", "sa", 4.0)],
    [WellProduction("1", 1, Some(1), 5.0)],
    [AgField(7, "7", Some(1), None)],
    [AgFieldTimestep("7", 1, 10.0, 2.0)],
    [Pipe("1", "7", 100.0)])

  lemma ExampleWellFormed()
    ensures WellFormed(Example)
  {
    var s := Example;
    assert CropPks(s.crops) == [1];
    assert WellIds(s.wells) == ["1"];
    assert FieldIds(s.fields) == ["7"];
    assert FieldPks(s.fields) == [7];
    assert PipeEnds(s.pipes) == [("1", "7")];
    assert UniqueTimesteps(s.timesteps);
    assert UniqueProduction(s.production);
  }

  lemma ExampleDemands()
    ensures forall f :: f in Example.fields && PipesOfField(Example.pipes, f.liqId) != [] ==>
              DemandFor(Example, f.liqId, DefaultCostTimestep).Success?
  {
    ExampleWellFormed();
    DemandLookupIsFunction(Example, "7", DefaultCostTimestep);
    assert Example.timesteps[0] in Example.timesteps;
  }

  lemma ExampleKeys()
    ensures |PipeKeys(Example.pipes, ByField)| == 1
    ensures |PipeKeys(Example.pipes, ByWell)| == 1
    ensures |Filter(Example.production, (pr: WellProduction) => pr.well in PipeKeys(Example.pipes, ByWell) && Tagged(pr))| == 1
  {
    var s := Example;
    assert s.pipes[0] in s.pipes;
    assert PipeKeys(s.pipes, ByField) == {"7"};
    assert PipeKeys(s.pipes, ByWell) == {"1"};
    var h := (pr: WellProduction) => pr.well in PipeKeys(s.pipes, ByWell) && Tagged(pr);
    assert Filter(s.production, h) == s.production;
  }

  /** On the example the corrected builder succeeds with six constraints. */
  lemma ExampleCorrected(ap: (string, int) -> real)
    ensures GetParts(Example, DefaultCostTimestep, DefaultYear, ap).Success?
    ensures |GetParts(Example, DefaultCostTimestep, DefaultYear, ap).value.constraints| == 6
  {
    ExampleWellFormed();
    ExampleDemands();
    GetPartsSucceeds(Example, DefaultCostTimestep, DefaultYear, ap);
    ExampleKeys();
    ConstraintCount(Example, DefaultCostTimestep, DefaultYear, ap);
  }

  /** On the example the well's capacity is the 5.0 of its one record, and its losses 1.0; as written both raise. */
  lemma ExampleCapacity()
    ensures Capacity(Example.wells[0], Example.production) == 5.0
    ensures Losses(Example.wells[0], Example.production) == 1.0
    ensures CapacityAsWritten(Example.wells[0], Example.production) == Failure(AttributeError("'dict' object has no attribute 'capacity'"))
    ensures LossesAsWritten(Example.wells[0], Example.production).Failure?
  {
    assert ProductionOf(Example.production, "1") == Example.production;
  }

  /** On the example the builder as written raises at line 45. */
  lemma ExampleAsWrittenLine45(ap: (string, int) -> real)
    ensures GetPartsAsWritten(Example, DefaultCostTimestep, DefaultYear, ap) == Failure(SumOfKeysError)
  {
    ExampleWellFormed();
    ExampleCorrected(ap);
    AsWrittenFailsWithPipes(Example, DefaultCostTimestep, DefaultYear, ap);
  }

  /** On the example's well index the well loop as written, run on its own, raises at line 50. */
  lemma ExampleAsWrittenLine50(ap: (string, int) -> real)
    ensures WellConstraintsAsWritten(Example, DefaultYear, ap, {"well_1_field_7"}, [Group("1", ["well_1_field_7"])])
            == Failure(ListCompareError)
  {
    assert Filter(Example.wells, (w: Well) => w.wellId == "1") == Example.wells;
  }

  /**
    On the example's records the crop loop as written, run on its own, looks up
    `well_1_field_AgField object (7)`, which was never built.
   */
  lemma ExampleAsWrittenLine61()
    ensures CropConstraintsAsWritten(Example, "1", Example.production, {"well_1_field_7"})
            == Failure(KeyError("well_1_field_AgField object (7)"))
  {
    var s := Example;
    assert Filter(s.fields, (f: AgField) => f.liqId == "7") == s.fields;
    assert FieldCrop(s.fields, "7") == Some(1);
    assert CropPipes(s, "1", 1) == s.pipes;
    assert NatToString(7) == "7";
    assert CropKeyAsWritten(s, "1", s.pipes[0]) == "well_1_field_AgField object (7)";
  }

  // ----- allocation.py lines 69-71: build_problem -----

  /**
    `build_problem` as written, over the corrected `get_parts`: it raises what `get_parts` raises
    and otherwise hands back nothing (`None`), so the program it built is lost.
   */
  function BuildProblemAsWritten(s: Snapshot, ap: (string, int) -> real): (r: Result<Option<Problem>, Error>)
    ensures r.Success? ==> r.value == None
    ensures r.Failure? <==> BuildProblem(s, ap).Failure?
    ensures r.Failure? ==> r.error == BuildProblem(s, ap).error
  {
    match GetParts(s, DefaultCostTimestep, DefaultYear, ap)
    case Failure(e) => Failure(e)
    case Success(_) => Success(None)
  }

  /** On the example the corrected `build_problem` hands back a six-constraint program; as written, `None`. */
  lemma ExampleBuildProblem(ap: (string, int) -> real)
    ensures BuildProblem(Example, ap).Success?
    ensures |BuildProblem(Example, ap).value.constraints| == 6
    ensures BuildProblemAsWritten(Example, ap) == Success(None)
  {
    ExampleCorrected(ap);
  }
}
