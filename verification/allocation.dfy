/**
  The water-allocation linear program: one decision variable per pipe, a benefit-minus-cost
  objective, and lower/upper bound constraints per field, per well and per crop-tagged production
  record of a well. Bounds are all non-strict; the solver itself is outside the model, which keeps
  only the structure of the program and what it means for an assignment to satisfy it.
 */
module Allocation {
  import opened Wrappers
  import opened Errors
  import opened Seqs
  import opened Models

  /** Beyond this distance moving water costs more than it benefits. */
  const MaxBenefitDistanceMeters: real := 3000.0
  const Margin: real := 0.95
  const FieldDemandMargin: real := Margin
  const WellAllocationMargin: real := Margin
  const SingleCropWellAllocationMargin: real := Margin

  /** Defaults of `get_parts`, used by `build_problem`. */
  const DefaultCostTimestep: int := 1
  const DefaultYear: int := 2018

  type VarName = string

  /** The name of the decision variable of the pipe from well `wellId` to field `liqId`. */
  function VariableName(wellId: string, liqId: string): VarName {
    "well_" + wellId + "_field_" + liqId
  }

  function PipeName(p: Pipe): VarName {
    VariableName(p.well, p.agfield)
  }

  function Names(ps: seq<Pipe>): seq<VarName> {
    seq(|ps|, i requires 0 <= i < |ps| => PipeName(ps[i]))
  }

  lemma NamesAppend(a: seq<Pipe>, b: seq<Pipe>)
    ensures Names(a + b) == Names(a) + Names(b)
  {
  }

  // ----- The linear program -----

  datatype Cmp = Le | Ge

  /** `sum(vars) <= bound` or `sum(vars) >= bound`. */
  datatype Constraint = Constraint(vars: seq<VarName>, cmp: Cmp, bound: real)

  /** `coef * v`, one summand of the objective. */
  datatype Term = Term(v: VarName, coef: real)

  /** `Maximize(sum(benefits) - sum(costs))` subject to `constraints`, over `variables`. */
  datatype Problem = Problem(variables: seq<VarName>, benefits: seq<Term>, costs: seq<Term>, constraints: seq<Constraint>)

  /** Values the solver may give to the variables. */
  type Assignment = map<VarName, real>

  function Val(a: Assignment, v: VarName): real {
    if v in a then a[v] else 0.0
  }

  function SumVars(a: Assignment, vs: seq<VarName>): real {
    if vs == [] then 0.0 else Val(a, vs[0]) + SumVars(a, vs[1..])
  }

  predicate Assigned(a: Assignment, vs: seq<VarName>) {
    forall v :: v in vs ==> v in a
  }

  /** The assignment gives every variable of `c` a value and meets its bound. */
  predicate Satisfies(a: Assignment, c: Constraint) {
    && Assigned(a, c.vars)
    && match c.cmp
       case Le => SumVars(a, c.vars) <= c.bound
       case Ge => SumVars(a, c.vars) >= c.bound
  }

  predicate Feasible(a: Assignment, cs: seq<Constraint>) {
    forall c :: c in cs ==> Satisfies(a, c)
  }

  /** The variables are assigned and their sum lies between `margin * bound` and `bound`. */
  predicate Within(a: Assignment, vars: seq<VarName>, bound: real, margin: real) {
    Assigned(a, vars) && margin * bound <= SumVars(a, vars) <= bound
  }

  function TermsValue(a: Assignment, ts: seq<Term>): real {
    if ts == [] then 0.0 else ts[0].coef * Val(a, ts[0].v) + TermsValue(a, ts[1..])
  }

  function ObjectiveValue(a: Assignment, p: Problem): real {
    TermsValue(a, p.benefits) - TermsValue(a, p.costs)
  }

  /** The upper bound and the margin-scaled lower bound on one sum of variables. */
  function BoundPair(vars: seq<VarName>, bound: real, margin: real): seq<Constraint> {
    [Constraint(vars, Le, bound), Constraint(vars, Ge, margin * bound)]
  }

  lemma FeasibleAppend(a: Assignment, x: seq<Constraint>, y: seq<Constraint>)
    ensures Feasible(a, x + y) <==> Feasible(a, x) && Feasible(a, y)
  {
  }

  /** An assignment meets a bound pair exactly when the sum lies between the two bounds. */
  lemma BoundPairMeaning(a: Assignment, vars: seq<VarName>, bound: real, margin: real)
    ensures Feasible(a, BoundPair(vars, bound, margin)) <==> Within(a, vars, bound, margin)
  {
    var r := BoundPair(vars, bound, margin);
    assert r[0] in r && r[1] in r;
  }

  // ----- Variables and their indexes -----

  /** The pipes of one field (`field.pipes.all()`). */
  function PipesOfField(pipes: seq<Pipe>, liqId: string): seq<Pipe> {
    WithKey(pipes, ByField, liqId)
  }

  /** The pipes of one well. */
  function PipesOfWell(pipes: seq<Pipe>, wellId: string): seq<Pipe> {
    WithKey(pipes, ByWell, wellId)
  }

  /** The pipes in the order the builder visits them: field by field, each field's pipes in order. */
  function OrderedPipes(fields: seq<AgField>, pipes: seq<Pipe>): (r: seq<Pipe>)
    ensures forall p :: p in r ==> p in pipes && exists f :: f in fields && f.liqId == p.agfield
  {
    if fields == [] then [] else PipesOfField(pipes, fields[0].liqId) + OrderedPipes(fields[1..], pipes)
  }

  datatype GroupBy = ByField | ByWell

  function KeyOf(p: Pipe, grouping: GroupBy): string {
    match grouping
    case ByField => p.agfield
    case ByWell => p.well
  }

  function WithKey(ps: seq<Pipe>, grouping: GroupBy, k: string): seq<Pipe> {
    Filter(ps, (p: Pipe) => KeyOf(p, grouping) == k)
  }

  function KeysOfPipes(ps: seq<Pipe>, grouping: GroupBy): seq<string> {
    seq(|ps|, i requires 0 <= i < |ps| => KeyOf(ps[i], grouping))
  }

  /** One entry of a `defaultdict(list)`: a key and the variables appended under it. */
  datatype Group = Group(key: string, vars: seq<VarName>)

  function Keys(idx: seq<Group>): seq<string> {
    seq(|idx|, i requires 0 <= i < |idx| => idx[i].key)
  }

  lemma KeysCons(g: Group, idx: seq<Group>)
    ensures Keys([g] + idx) == [g.key] + Keys(idx)
  {
  }

  /** In an index with distinct keys, the key of the first group occurs nowhere else. */
  lemma FirstKeyUnique(idx: seq<Group>)
    requires idx != [] && Distinct(Keys(idx))
    ensures forall i :: 0 < i < |idx| ==> idx[i].key != idx[0].key
    ensures Distinct(Keys(idx[1..])) && idx[0].key !in Keys(idx[1..])
  {
    KeysCons(idx[0], idx[1..]);
    assert [idx[0]] + idx[1..] == idx;
    DistinctCons(idx[0].key, Keys(idx[1..]));
    forall i | 0 < i < |idx|
      ensures idx[i].key != idx[0].key
    {
      assert Keys(idx)[0] != Keys(idx)[i];
    }
  }

  /** `index[key].append(v)` on a `defaultdict(list)` kept in insertion order. */
  function Append(idx: seq<Group>, key: string, v: VarName): (r: seq<Group>)
    requires Distinct(Keys(idx))
    ensures Distinct(Keys(r))
    ensures key in Keys(idx) ==> Keys(r) == Keys(idx)
    ensures key !in Keys(idx) ==> Keys(r) == Keys(idx) + [key] && r[|idx|].vars == [v]
    ensures forall i :: 0 <= i < |idx| ==> r[i].vars == idx[i].vars + (if idx[i].key == key then [v] else [])
  {
    if idx == [] then [Group(key, [v])]
    else
      FirstKeyUnique(idx);
      KeysCons(idx[0], idx[1..]);
      assert [idx[0]] + idx[1..] == idx;
      if idx[0].key == key then
        var r := [Group(key, idx[0].vars + [v])] + idx[1..];
        KeysCons(r[0], idx[1..]);
        r
      else
        var rest := Append(idx[1..], key, v);
        KeysCons(idx[0], rest);
        DistinctCons(idx[0].key, Keys(rest));
        [idx[0]] + rest
  }

  /** Keeping one more pipe adds it to the pipes of its own key and of no other key. */
  lemma WithKeySnoc(ps: seq<Pipe>, x: Pipe, grouping: GroupBy, k: string)
    ensures WithKey(ps + [x], grouping, k) == WithKey(ps, grouping, k) + (if KeyOf(x, grouping) == k then [x] else [])
  {
    FilterAppend(ps, [x], (p: Pipe) => KeyOf(p, grouping) == k);
  }

  lemma WithKeyAbsent(ps: seq<Pipe>, grouping: GroupBy, k: string)
    requires k !in KeysOfPipes(ps, grouping)
    ensures WithKey(ps, grouping, k) == []
  {
    forall p | p in ps
      ensures KeyOf(p, grouping) != k
    {
      var i :| 0 <= i < |ps| && ps[i] == p;
      assert KeysOfPipes(ps, grouping)[i] == KeyOf(p, grouping);
    }
    FilterNone(ps, (p: Pipe) => KeyOf(p, grouping) == k);
  }

  /** One more visited pipe adds its name to the names of its own key and of no other key. */
  lemma NamesSnoc(init: seq<Pipe>, last: Pipe, grouping: GroupBy, k: string)
    ensures Names(WithKey(init + [last], grouping, k))
         == Names(WithKey(init, grouping, k)) + (if KeyOf(last, grouping) == k then [PipeName(last)] else [])
  {
    WithKeySnoc(init, last, grouping, k);
    NamesAppend(WithKey(init, grouping, k), if KeyOf(last, grouping) == k then [last] else []);
  }

  /** Appending the last visited pipe to the index of the pipes before it gives the index of all of them. */
  lemma AppendStep(ps: seq<Pipe>, grouping: GroupBy, prev: seq<Group>)
    requires |ps| > 0
    requires Distinct(Keys(prev))
    requires forall k :: k in Keys(prev) <==> k in KeysOfPipes(ps[..|ps| - 1], grouping)
    requires forall i :: 0 <= i < |prev| ==> prev[i].vars == Names(WithKey(ps[..|ps| - 1], grouping, prev[i].key))
    ensures var r := Append(prev, KeyOf(ps[|ps| - 1], grouping), PipeName(ps[|ps| - 1]));
            && (forall k :: k in Keys(r) <==> k in KeysOfPipes(ps, grouping))
            && (forall i :: 0 <= i < |r| ==> r[i].vars == Names(WithKey(ps, grouping, r[i].key)))
  {
    var init := ps[..|ps| - 1];
    var last := ps[|ps| - 1];
    assert ps == init + [last];
    var key := KeyOf(last, grouping);
    var r := Append(prev, key, PipeName(last));
    assert KeysOfPipes(ps, grouping) == KeysOfPipes(init, grouping) + [key];
    forall i | 0 <= i < |r|
      ensures r[i].vars == Names(WithKey(ps, grouping, r[i].key))
    {
      if i < |prev| {
        assert Keys(r)[i] == Keys(prev)[i];
        NamesSnoc(init, last, grouping, prev[i].key);
      } else {
        assert Keys(r)[i] == key;
        NamesSnoc(init, last, grouping, key);
        WithKeyAbsent(init, grouping, key);
      }
    }
  }

  /**
    The index the builder fills while visiting the pipes `ps` in order: one group per distinct key,
    in order of first appearance, holding the names of exactly that key's pipes in visiting order.
   */
  function BuildIndex(ps: seq<Pipe>, grouping: GroupBy): (r: seq<Group>)
    ensures Distinct(Keys(r))
    ensures forall k :: k in Keys(r) <==> k in KeysOfPipes(ps, grouping)
    ensures forall i :: 0 <= i < |r| ==> r[i].vars == Names(WithKey(ps, grouping, r[i].key))
    decreases |ps|
  {
    if ps == [] then []
    else
      var prev := BuildIndex(ps[..|ps| - 1], grouping);
      AppendStep(ps, grouping, prev);
      Append(prev, KeyOf(ps[|ps| - 1], grouping), PipeName(ps[|ps| - 1]))
  }

  // ----- Constraints -----

  predicate FieldWithin(a: Assignment, s: Snapshot, step: int, g: Group) {
    DemandFor(s, g.key, step).Success? && Within(a, g.vars, DemandFor(s, g.key, step).value, FieldDemandMargin)
  }

  /** Per field with pipes: its inbound sum lies between the demand margin times its demand and its demand. */
  function FieldConstraints(s: Snapshot, step: int, idx: seq<Group>): (r: Result<seq<Constraint>, Error>)
    ensures r.Success? <==> forall g :: g in idx ==> DemandFor(s, g.key, step).Success?
    ensures r.Failure? ==> exists g :: g in idx && DemandFor(s, g.key, step) == Failure(r.error)
    ensures r.Failure? ==> exists i :: FirstFailing(idx, (g: Group) => DemandFor(s, g.key, step).Success?, i)
                                       && r.error == DemandFor(s, idx[i].key, step).error
    ensures r.Success? ==> |r.value| == 2 * |idx|
  {
    if idx == [] then Success([])
    else
      var demand :- DemandFor(s, idx[0].key, step);
      FirstFailingShift(idx, (g: Group) => DemandFor(s, g.key, step).Success?);
      var rest :- FieldConstraints(s, step, idx[1..]);
      Success(BoundPair(idx[0].vars, demand, FieldDemandMargin) + rest)
  }

  /** `dict[name]` for every name, raising `KeyError` on the first that was never built. */
  function Lookup(built: set<VarName>, names: seq<VarName>): (r: Result<seq<VarName>, Error>)
    ensures r.Success? <==> forall n :: n in names ==> n in built
    ensures r.Success? ==> r.value == names
    ensures r.Failure? ==> r.error.KeyError? && r.error.key in names && r.error.key !in built
    ensures r.Failure? ==> exists i :: FirstFailing(names, (n: VarName) => n in built, i) && r.error == KeyError(names[i])
  {
    if names == [] then Success([])
    else if names[0] !in built then Failure(KeyError(names[0]))
    else
      FirstFailingShift(names, (n: VarName) => n in built);
      var rest :- Lookup(built, names[1..]);
      Success([names[0]] + rest)
  }

  /** The pipes of well `wellId` into fields planted with crop `crop`. */
  function CropPipes(s: Snapshot, wellId: string, crop: nat): seq<Pipe> {
    Filter(s.pipes, (p: Pipe) => p.well == wellId && FieldCrop(s.fields, p.agfield) == Some(crop))
  }

  predicate Tagged(pr: WellProduction) {
    pr.crop.Some?
  }

  /** Whether the crop loop gets past record `pr`: it is untagged, or all its pipes' variables were built. */
  function CropBuilt(s: Snapshot, wellId: string, built: set<VarName>): WellProduction -> bool {
    (pr: WellProduction) => !Tagged(pr) || Lookup(built, Names(CropPipes(s, wellId, pr.crop.value))).Success?
  }

  predicate CropWithin(a: Assignment, s: Snapshot, wellId: string, pr: WellProduction)
    requires Tagged(pr)
  {
    Within(a, Names(CropPipes(s, wellId, pr.crop.value)), pr.quantity, SingleCropWellAllocationMargin)
  }

  /**
    Per crop-tagged production record of well `wellId`: the sum over the well's pipes into fields of
    that crop lies between the crop margin times the record's quantity and the quantity.
   */
  function CropConstraints(s: Snapshot, wellId: string, prods: seq<WellProduction>, built: set<VarName>)
    : (r: Result<seq<Constraint>, Error>)
    ensures r.Success? <==>
      forall pr :: pr in prods && Tagged(pr) ==> forall n :: n in Names(CropPipes(s, wellId, pr.crop.value)) ==> n in built
    ensures r.Failure? ==> r.error.KeyError? && r.error.key !in built
    ensures r.Failure? ==> exists i :: FirstFailing(prods, CropBuilt(s, wellId, built), i)
                                       && r.error == Lookup(built, Names(CropPipes(s, wellId, prods[i].crop.value))).error
    ensures r.Success? ==> |r.value| == 2 * |Filter(prods, Tagged)|
  {
    if prods == [] then Success([])
    else
      assert forall pr :: pr in prods <==> pr == prods[0] || pr in prods[1..];
      if !Tagged(prods[0]) then
        FirstFailingShift(prods, CropBuilt(s, wellId, built));
        CropConstraints(s, wellId, prods[1..], built)
      else
        var vars :- Lookup(built, Names(CropPipes(s, wellId, prods[0].crop.value)));
        FirstFailingShift(prods, CropBuilt(s, wellId, built));
        var rest :- CropConstraints(s, wellId, prods[1..], built);
        Success(BoundPair(vars, prods[0].quantity, SingleCropWellAllocationMargin) + rest)
  }

  predicate CropsWithin(a: Assignment, s: Snapshot, wellId: string) {
    forall pr :: pr in ProductionOf(s.production, wellId) && Tagged(pr) ==> CropWithin(a, s, wellId, pr)
  }

  predicate WellWithin(a: Assignment, year: int, ap: (string, int) -> real, g: Group) {
    Within(a, g.vars, ap(g.key, year), WellAllocationMargin)
  }

  /**
    Per well with pipes: its outbound sum lies between the well margin times its annual production
    and its annual production, followed by the crop constraints of its production records.
   */
  function WellConstraints(s: Snapshot, year: int, ap: (string, int) -> real, built: set<VarName>, idx: seq<Group>)
    : (r: Result<seq<Constraint>, Error>)
    ensures r.Failure? ==> r.error == DoesNotExist("Well") || r.error == MultipleObjectsReturned("Well")
                           || (r.error.KeyError? && r.error.key !in built)
  {
    if idx == [] then Success([])
    else
      var well :- Get(Filter(s.wells, (w: Well) => w.wellId == idx[0].key), "Well");
      assert well.wellId == idx[0].key by {
        assert well in Filter(s.wells, (w: Well) => w.wellId == idx[0].key);
      }
      var crops :- CropConstraints(s, well.wellId, ProductionOf(s.production, well.wellId), built);
      var rest :- WellConstraints(s, year, ap, built, idx[1..]);
      Success(BoundPair(idx[0].vars, ap(well.wellId, year), WellAllocationMargin) + crops + rest)
  }

  // ----- Objective -----

  /** Benefit minus cost per unit of water sent along pipe `p`. */
  function NetCoefficient(p: Pipe): (r: real)
    ensures r + p.distance == MaxBenefitDistanceMeters
    ensures r > 0.0 <==> p.distance < MaxBenefitDistanceMeters
  {
    MaxBenefitDistanceMeters - p.distance
  }

  function Benefits(ps: seq<Pipe>): seq<Term> {
    seq(|ps|, i requires 0 <= i < |ps| => Term(PipeName(ps[i]), MaxBenefitDistanceMeters))
  }

  function Costs(ps: seq<Pipe>): seq<Term> {
    seq(|ps|, i requires 0 <= i < |ps| => Term(PipeName(ps[i]), ps[i].distance))
  }

  /** The net benefit of the water an assignment sends along pipe `p`. */
  function PipeNet(a: Assignment, p: Pipe): real {
    NetCoefficient(p) * Val(a, PipeName(p))
  }

  /** The net benefit of an assignment, pipe by pipe. */
  function NetValue(a: Assignment, ps: seq<Pipe>): real {
    if ps == [] then 0.0 else PipeNet(a, ps[0]) + NetValue(a, ps[1..])
  }

  // ----- The builder -----

  /**
    `get_parts`: the variables, benefit and cost terms, and constraints of the program for time
    step `step` and year `year`; `ap` is the well's annual production for a year. What the parts
    mean is proved about it elsewhere: one distinct variable per pipe
    (`AllocationShape.OneVariablePerPipe`), the objective as net benefit
    (`AllocationShape.ObjectiveIsNetBenefit`), the constraints as per-field, per-well and per-crop
    bounds (`AllocationProps.ConstraintsMeanBounds`) and when building succeeds
    (`AllocationShape.GetPartsSucceeds`).
   */
  function GetParts(s: Snapshot, step: int, year: int, ap: (string, int) -> real): (r: Result<Problem, Error>)
    ensures r.Success? ==> r.value.variables == Names(OrderedPipes(s.fields, s.pipes))
    ensures r.Success? ==> |r.value.benefits| == |r.value.costs| == |r.value.variables|
    ensures r.Success? ==> forall i :: 0 <= i < |r.value.variables| ==>
              r.value.benefits[i].v == r.value.costs[i].v == r.value.variables[i]
  {
    var ordered := OrderedPipes(s.fields, s.pipes);
    var variables := Names(ordered);
    var fieldConstraints :- FieldConstraints(s, step, BuildIndex(ordered, ByField));
    var wellConstraints :- WellConstraints(s, year, ap, (set v | v in variables), BuildIndex(ordered, ByWell));
    Success(Problem(variables, Benefits(ordered), Costs(ordered), fieldConstraints + wellConstraints))
  }

  /**
    `build_problem` as evidently intended: the program of `get_parts` with its default time step
    and year, handed back to the caller. As written the function builds the cvxpy `Problem` and
    returns nothing; that version is `AsWritten.BuildProblemAsWritten`.
   */
  function BuildProblem(s: Snapshot, ap: (string, int) -> real): Result<Problem, Error> {
    GetParts(s, DefaultCostTimestep, DefaultYear, ap)
  }
}
