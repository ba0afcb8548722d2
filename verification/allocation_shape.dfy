/**
  The shape of the program `GetParts` builds: one distinct variable per pipe, each variable in
  exactly one group of each index, an objective that is the distance-discounted net benefit, when
  building succeeds and what it raises otherwise, how many constraints come out, and which demands
  make the program infeasible.
 */
module AllocationShape {
  import opened Wrappers
  import opened Errors
  import opened Seqs
  import opened Models
  import opened Allocation
  import opened AllocationProps

  // ----- Variable names -----

  /** Where the well id and the field id sit inside a variable name. */
  lemma NameLayout(w: string, f: string)
    ensures |VariableName(w, f)| == 12 + |w| + |f|
    ensures VariableName(w, f)[5..5 + |w|] == w
    ensures VariableName(w, f)[5 + |w|] == '_'
    ensures VariableName(w, f)[12 + |w|..] == f
  {
    var n := VariableName(w, f);
    assert n == ("well_" + w) + ("_field_" + f);
    assert n[5 + |w|] == ("_field_" + f)[0];
  }

  /**
    Two pipes get the same variable name exactly when they join the same well to the same field,
    provided the well ids contain no underscore (otherwise `("1_field_2", "3")` and `("1", "2_field_3")`
    share the name `well_1_field_2_field_3`).
   */
  lemma VariableNameInjective(w1: string, f1: string, w2: string, f2: string)
    requires '_' !in w1 && '_' !in w2
    ensures VariableName(w1, f1) == VariableName(w2, f2) <==> w1 == w2 && f1 == f2
  {
    var n1, n2 := VariableName(w1, f1), VariableName(w2, f2);
    NameLayout(w1, f1);
    NameLayout(w2, f2);
    forall i | 5 <= i < 5 + |w1|
      ensures n1[i] != '_'
    {
      assert n1[i] == n1[5..5 + |w1|][i - 5];
      assert w1[i - 5] in w1;
    }
    forall i | 5 <= i < 5 + |w2|
      ensures n2[i] != '_'
    {
      assert n2[i] == n2[5..5 + |w2|][i - 5];
      assert w2[i - 5] in w2;
    }
  }

  /** Every well id of the snapshot is free of underscores. */
  predicate PlainWellIds(s: Snapshot) {
    forall w :: w in s.wells ==> '_' !in w.wellId
  }

  lemma PipeWellPlain(s: Snapshot, p: Pipe)
    requires PlainWellIds(s)
    requires p.well in WellIds(s.wells)
    ensures '_' !in p.well
  {
    var i :| 0 <= i < |s.wells| && WellIds(s.wells)[i] == p.well;
    assert s.wells[i] in s.wells;
  }

  lemma PipeNamesDistinct(s: Snapshot)
    requires WellFormed(s)
    requires PlainWellIds(s)
    ensures Distinct(Names(s.pipes))
  {
    forall i, j | 0 <= i < j < |s.pipes|
      ensures Names(s.pipes)[i] != Names(s.pipes)[j]
    {
      var p, q := s.pipes[i], s.pipes[j];
      assert p in s.pipes && q in s.pipes;
      PipeWellPlain(s, p);
      PipeWellPlain(s, q);
      VariableNameInjective(p.well, p.agfield, q.well, q.agfield);
      assert PipeEnds(s.pipes)[i] != PipeEnds(s.pipes)[j];
    }
  }

  /** Every pipe of the snapshot starts at a well id free of underscores. */
  lemma PlainPipes(s: Snapshot)
    requires WellFormed(s)
    requires PlainWellIds(s)
    ensures forall p :: p in s.pipes ==> '_' !in p.well
  {
    forall p | p in s.pipes
      ensures '_' !in p.well
    {
      PipeWellPlain(s, p);
    }
  }

  lemma PermutedNames(ordered: seq<Pipe>, pipes: seq<Pipe>)
    requires multiset(ordered) == multiset(pipes)
    requires Distinct(Names(pipes))
    ensures Distinct(Names(ordered))
    ensures |Names(ordered)| == |pipes|
    ensures forall p :: p in pipes ==> multiset(Names(ordered))[PipeName(p)] == 1
    ensures forall v :: v in Names(ordered) ==> exists p :: p in pipes && PipeName(p) == v
  {
    var names := Names(ordered);
    NamesPermutation(ordered, pipes);
    DistinctPermutation(names, Names(pipes));
    DistinctMultiset(names);
    assert |ordered| == |multiset(ordered)| == |multiset(pipes)| == |pipes|;
    forall p | p in pipes
      ensures multiset(names)[PipeName(p)] == 1
    {
      assert p in multiset(ordered);
      var j :| 0 <= j < |ordered| && ordered[j] == p;
      assert names[j] == PipeName(p);
    }
    forall v | v in names
      ensures exists p :: p in pipes && PipeName(p) == v
    {
      var j :| 0 <= j < |names| && names[j] == v;
      assert ordered[j] in multiset(pipes);
    }
  }

  /**
    The builder's variables are pairwise distinct, as many as there are pipes, each pipe's name
    occurs exactly once, and every variable is the name of some pipe.
   */
  lemma OneVariablePerPipe(s: Snapshot)
    requires WellFormed(s)
    requires PlainWellIds(s)
    ensures Distinct(Names(OrderedPipes(s.fields, s.pipes)))
    ensures |Names(OrderedPipes(s.fields, s.pipes))| == |s.pipes|
    ensures forall p :: p in s.pipes ==> multiset(Names(OrderedPipes(s.fields, s.pipes)))[PipeName(p)] == 1
    ensures forall v :: v in Names(OrderedPipes(s.fields, s.pipes)) ==> exists p :: p in s.pipes && PipeName(p) == v
  {
    OrderedPipesPermutation(s);
    PipeNamesDistinct(s);
    PermutedNames(OrderedPipes(s.fields, s.pipes), s.pipes);
  }

  // ----- Each variable in exactly one group of each index -----

  /** With underscore-free well ids, a pipe's name is among the names of the pipes with key `k` exactly when its key is `k`. */
  lemma NameInKeyed(pipes: seq<Pipe>, grouping: GroupBy, k: string, p: Pipe)
    requires forall q :: q in pipes ==> '_' !in q.well
    requires p in pipes
    ensures PipeName(p) in Names(WithKey(pipes, grouping, k)) <==> KeyOf(p, grouping) == k
  {
    var ws := WithKey(pipes, grouping, k);
    if PipeName(p) in Names(ws) {
      var j :| 0 <= j < |ws| && Names(ws)[j] == PipeName(p);
      var q := ws[j];
      assert q in ws;
      VariableNameInjective(p.well, p.agfield, q.well, q.agfield);
    }
    if KeyOf(p, grouping) == k {
      assert p in ws;
      var j :| 0 <= j < |ws| && ws[j] == p;
      assert Names(ws)[j] == PipeName(p);
    }
  }

  lemma GroupPartition(ordered: seq<Pipe>, pipes: seq<Pipe>, grouping: GroupBy, p: Pipe, g: Group)
    requires multiset(ordered) == multiset(pipes)
    requires forall q :: q in pipes ==> '_' !in q.well
    requires p in pipes
    requires g in BuildIndex(ordered, grouping)
    ensures PipeName(p) in g.vars <==> g.key == KeyOf(p, grouping)
  {
    GroupMatchesPipes(ordered, pipes, grouping, g);
    var names := Names(WithKey(pipes, grouping, g.key));
    assert PipeName(p) in g.vars <==> PipeName(p) in multiset(g.vars);
    assert PipeName(p) in names <==> PipeName(p) in multiset(names);
    NameInKeyed(pipes, grouping, g.key, p);
  }

  /** A pipe's variable is in a group of the field (well) index exactly when the group is its field's (well's). */
  lemma IndexPartition(s: Snapshot, grouping: GroupBy, p: Pipe, g: Group)
    requires WellFormed(s)
    requires PlainWellIds(s)
    requires p in s.pipes
    requires g in BuildIndex(OrderedPipes(s.fields, s.pipes), grouping)
    ensures PipeName(p) in g.vars <==> g.key == KeyOf(p, grouping)
  {
    OrderedPipesPermutation(s);
    PlainPipes(s);
    GroupPartition(OrderedPipes(s.fields, s.pipes), s.pipes, grouping, p, g);
  }

  /** In an index with distinct keys, a key names one group. */
  lemma SameKeySameGroup(idx: seq<Group>, g: Group, h: Group)
    requires Distinct(Keys(idx))
    requires g in idx && h in idx && g.key == h.key
    ensures g == h
  {
    var i :| 0 <= i < |idx| && idx[i] == g;
    var j :| 0 <= j < |idx| && idx[j] == h;
    assert Keys(idx)[i] == Keys(idx)[j];
  }

  lemma OneGroup(ordered: seq<Pipe>, pipes: seq<Pipe>, grouping: GroupBy, p: Pipe)
    requires multiset(ordered) == multiset(pipes)
    requires forall q :: q in pipes ==> '_' !in q.well
    requires p in pipes
    ensures exists g :: g in BuildIndex(ordered, grouping) && PipeName(p) in g.vars
    ensures forall g, h ::
              (g in BuildIndex(ordered, grouping) && h in BuildIndex(ordered, grouping)
               && PipeName(p) in g.vars && PipeName(p) in h.vars) ==> g == h
  {
    var idx := BuildIndex(ordered, grouping);
    assert p in WithKey(pipes, grouping, KeyOf(p, grouping));
    KeyHasGroup(ordered, pipes, grouping, KeyOf(p, grouping));
    var g0 :| g0 in idx && g0.key == KeyOf(p, grouping);
    GroupPartition(ordered, pipes, grouping, p, g0);
    forall g, h | g in idx && h in idx && PipeName(p) in g.vars && PipeName(p) in h.vars
      ensures g == h
    {
      GroupPartition(ordered, pipes, grouping, p, g);
      GroupPartition(ordered, pipes, grouping, p, h);
      SameKeySameGroup(idx, g, h);
    }
  }

  /** Every pipe's variable lies in one and only one group of each index. */
  lemma VariableInOneGroup(s: Snapshot, grouping: GroupBy, p: Pipe)
    requires WellFormed(s)
    requires PlainWellIds(s)
    requires p in s.pipes
    ensures exists g :: g in BuildIndex(OrderedPipes(s.fields, s.pipes), grouping) && PipeName(p) in g.vars
    ensures forall g, h ::
              (g in BuildIndex(OrderedPipes(s.fields, s.pipes), grouping)
               && h in BuildIndex(OrderedPipes(s.fields, s.pipes), grouping)
               && PipeName(p) in g.vars && PipeName(p) in h.vars) ==> g == h
  {
    OrderedPipesPermutation(s);
    PlainPipes(s);
    OneGroup(OrderedPipes(s.fields, s.pipes), s.pipes, grouping, p);
  }

  // ----- The objective -----

  lemma {:induction false} TermsNet(a: Assignment, ps: seq<Pipe>)
    ensures TermsValue(a, Benefits(ps)) - TermsValue(a, Costs(ps)) == NetValue(a, ps)
  {
    if ps != [] {
      assert Benefits(ps)[1..] == Benefits(ps[1..]);
      assert Costs(ps)[1..] == Costs(ps[1..]);
      TermsNet(a, ps[1..]);
    }
  }

  lemma {:induction false} NetValueAppend(a: Assignment, u: seq<Pipe>, v: seq<Pipe>)
    ensures NetValue(a, u + v) == NetValue(a, u) + NetValue(a, v)
  {
    if u == [] {
      assert u + v == v;
    } else {
      assert (u + v)[1..] == u[1..] + v;
      NetValueAppend(a, u[1..], v);
    }
  }

  lemma {:induction false} NetValuePermutation(a: Assignment, u: seq<Pipe>, v: seq<Pipe>)
    requires multiset(u) == multiset(v)
    ensures NetValue(a, u) == NetValue(a, v)
  {
    if u == [] {
      assert |v| == |multiset(v)| == 0;
    } else {
      var j := PickOut(u, v);
      NetValuePermutation(a, u[1..], v[..j] + v[j + 1..]);
      NetValueAppend(a, v[..j] + [u[0]], v[j + 1..]);
      NetValueAppend(a, v[..j], [u[0]]);
      NetValueAppend(a, v[..j], v[j + 1..]);
    }
  }

  /**
    The objective of the built program is, summed over the snapshot's pipes, the water sent along
    each pipe times 3000 metres less its length.
   */
  lemma ObjectiveIsNetBenefit(a: Assignment, s: Snapshot, step: int, year: int, ap: (string, int) -> real)
    requires WellFormed(s)
    requires GetParts(s, step, year, ap).Success?
    ensures ObjectiveValue(a, GetParts(s, step, year, ap).value) == NetValue(a, s.pipes)
  {
    var ordered := OrderedPipes(s.fields, s.pipes);
    assert GetParts(s, step, year, ap).value.benefits == Benefits(ordered);
    assert GetParts(s, step, year, ap).value.costs == Costs(ordered);
    TermsNet(a, ordered);
    OrderedPipesPermutation(s);
    NetValuePermutation(a, ordered, s.pipes);
  }

  /**
    What `build_problem` hands back, as evidently intended: on a well-formed snapshot its
    objective is the net benefit of the pipes, and an assignment is feasible exactly when every
    field, well and crop-tagged record with a pipe stays within its bounds for time step 1 and
    year 2018.
   */
  lemma BuildProblemMeaning(a: Assignment, s: Snapshot, ap: (string, int) -> real)
    requires WellFormed(s)
    requires BuildProblem(s, ap).Success?
    ensures ObjectiveValue(a, BuildProblem(s, ap).value) == NetValue(a, s.pipes)
    ensures Feasible(a, BuildProblem(s, ap).value.constraints) <==>
            FieldBoundsHold(a, s, 1) && WellBoundsHold(a, s, 2018, ap) && CropBoundsHold(a, s)
  {
    ObjectiveIsNetBenefit(a, s, DefaultCostTimestep, DefaultYear, ap);
    ConstraintsMeanBounds(a, s, DefaultCostTimestep, DefaultYear, ap);
  }

  // ----- When building succeeds -----

  lemma CropNamesBuilt(s: Snapshot, wellId: string, crop: nat, built: set<VarName>)
    requires forall p :: p in s.pipes ==> PipeName(p) in built
    ensures forall n :: n in Names(CropPipes(s, wellId, crop)) ==> n in built
  {
    var cp := CropPipes(s, wellId, crop);
    forall n | n in Names(cp)
      ensures n in built
    {
      var j :| 0 <= j < |cp| && Names(cp)[j] == n;
      assert cp[j] in cp;
    }
  }

  lemma CropConstraintsSucceed(s: Snapshot, wellId: string, prods: seq<WellProduction>, built: set<VarName>)
    requires forall p :: p in s.pipes ==> PipeName(p) in built
    ensures CropConstraints(s, wellId, prods, built).Success?
  {
    forall pr | pr in prods && Tagged(pr)
      ensures forall n :: n in Names(CropPipes(s, wellId, pr.crop.value)) ==> n in built
    {
      CropNamesBuilt(s, wellId, pr.crop.value, built);
    }
  }

  /** The crop-tagged production records of the wells `keys`, well by well. */
  function TaggedCount(prods: seq<WellProduction>, keys: seq<string>): nat {
    if keys == [] then 0 else |Filter(ProductionOf(prods, keys[0]), Tagged)| + TaggedCount(prods, keys[1..])
  }

  lemma {:induction false} TaggedCountIsFilter(prods: seq<WellProduction>, keys: seq<string>)
    requires Distinct(keys)
    ensures TaggedCount(prods, keys) == |Filter(prods, (pr: WellProduction) => pr.well in keys && Tagged(pr))|
  {
    if keys == [] {
      FilterNone(prods, (pr: WellProduction) => pr.well in keys && Tagged(pr));
    } else {
      var k := keys[0];
      var rest := keys[1..];
      assert keys == [k] + rest;
      DistinctCons(k, rest);
      TaggedCountIsFilter(prods, rest);
      FilterFilter(prods, (pr: WellProduction) => pr.well == k, Tagged, (pr: WellProduction) => pr.well == k && Tagged(pr));
      FilterDisjointLength(prods, (pr: WellProduction) => pr.well == k && Tagged(pr),
                           (pr: WellProduction) => pr.well in rest && Tagged(pr),
                           (pr: WellProduction) => pr.well in keys && Tagged(pr));
    }
  }

  lemma TaggedCountCons(prods: seq<WellProduction>, idx: seq<Group>)
    requires idx != []
    ensures TaggedCount(prods, Keys(idx)) == |Filter(ProductionOf(prods, idx[0].key), Tagged)| + TaggedCount(prods, Keys(idx[1..]))
  {
    assert Keys(idx[1..]) == Keys(idx)[1..];
    assert Keys(idx)[0] == idx[0].key;
  }

  /** One known well in front of a well block that succeeds adds its bound pair and its crop block. */
  lemma WellStep(s: Snapshot, year: int, ap: (string, int) -> real, built: set<VarName>, idx: seq<Group>)
    requires idx != []
    requires Distinct(WellIds(s.wells)) && idx[0].key in WellIds(s.wells)
    requires forall p :: p in s.pipes ==> PipeName(p) in built
    requires WellConstraints(s, year, ap, built, idx[1..]).Success?
    ensures WellConstraints(s, year, ap, built, idx).Success?
    ensures |WellConstraints(s, year, ap, built, idx).value|
         == 2 + 2 * |Filter(ProductionOf(s.production, idx[0].key), Tagged)| + |WellConstraints(s, year, ap, built, idx[1..]).value|
  {
    WellById(s.wells, idx[0].key);
    var matches := Filter(s.wells, (w: Well) => w.wellId == idx[0].key);
    var well := matches[0];
    assert well in matches;
    assert Get(matches, "Well") == Success(well);
    CropConstraintsSucceed(s, well.wellId, ProductionOf(s.production, well.wellId), built);
  }

  /**
    With known, distinct well ids and every pipe's variable built, the well block succeeds with two
    constraints per group and two per crop-tagged record of each group's well.
   */
  lemma {:induction false} WellConstraintsSucceed(s: Snapshot, year: int, ap: (string, int) -> real,
                                                  built: set<VarName>, idx: seq<Group>)
    requires Distinct(WellIds(s.wells))
    requires forall g :: g in idx ==> g.key in WellIds(s.wells)
    requires forall p :: p in s.pipes ==> PipeName(p) in built
    ensures WellConstraints(s, year, ap, built, idx).Success?
    ensures |WellConstraints(s, year, ap, built, idx).value| == 2 * |idx| + 2 * TaggedCount(s.production, Keys(idx))
  {
    if idx != [] {
      assert idx[0] in idx;
      assert forall g :: g in idx[1..] ==> g in idx;
      WellConstraintsSucceed(s, year, ap, built, idx[1..]);
      WellStep(s, year, ap, built, idx);
      TaggedCountCons(s.production, idx);
    }
  }

  /** Every key of the well index is a known well. */
  lemma WellKeysKnown(s: Snapshot)
    requires Covered(s)
    ensures forall g :: g in BuildIndex(OrderedPipes(s.fields, s.pipes), ByWell) ==> g.key in WellIds(s.wells)
  {
    forall g | g in BuildIndex(OrderedPipes(s.fields, s.pipes), ByWell)
      ensures g.key in WellIds(s.wells)
    {
      GroupMatchesPipes(OrderedPipes(s.fields, s.pipes), s.pipes, ByWell, g);
      var p := WithKey(s.pipes, ByWell, g.key)[0];
      assert p in WithKey(s.pipes, ByWell, g.key);
    }
  }

  /** Every pipe's variable is among those built. */
  lemma PipesBuilt(s: Snapshot)
    requires Covered(s)
    ensures forall p :: p in s.pipes ==> PipeName(p) in (set v | v in Names(OrderedPipes(s.fields, s.pipes)))
  {
    var ordered := OrderedPipes(s.fields, s.pipes);
    forall p | p in s.pipes
      ensures PipeName(p) in Names(ordered)
    {
      assert p in multiset(ordered);
      var j :| 0 <= j < |ordered| && ordered[j] == p;
      assert Names(ordered)[j] == PipeName(p);
    }
  }

  /** A field with pipes has a demand row for each group of the field index, and conversely. */
  lemma DemandsOfGroups(s: Snapshot, step: int)
    requires Covered(s)
    ensures (forall g :: g in BuildIndex(OrderedPipes(s.fields, s.pipes), ByField) ==> DemandFor(s, g.key, step).Success?)
            <==> (forall f :: f in s.fields && PipesOfField(s.pipes, f.liqId) != [] ==> DemandFor(s, f.liqId, step).Success?)
  {
    var idx := BuildIndex(OrderedPipes(s.fields, s.pipes), ByField);
    if forall g :: g in idx ==> DemandFor(s, g.key, step).Success? {
      forall f | f in s.fields && PipesOfField(s.pipes, f.liqId) != []
        ensures DemandFor(s, f.liqId, step).Success?
      {
        KeyHasGroup(OrderedPipes(s.fields, s.pipes), s.pipes, ByField, f.liqId);
      }
    }
    if forall f :: f in s.fields && PipesOfField(s.pipes, f.liqId) != [] ==> DemandFor(s, f.liqId, step).Success? {
      forall g | g in idx
        ensures DemandFor(s, g.key, step).Success?
      {
        GroupMatchesPipes(OrderedPipes(s.fields, s.pipes), s.pipes, ByField, g);
        var p := WithKey(s.pipes, ByField, g.key)[0];
        assert p in WithKey(s.pipes, ByField, g.key);
        var i :| 0 <= i < |s.fields| && FieldIds(s.fields)[i] == g.key;
        assert s.fields[i] in s.fields;
      }
    }
  }

  /** A failed demand lookup of a known field means its time-step row is missing. */
  lemma MissingDemandRow(s: Snapshot, liqId: string, step: int)
    requires WellFormed(s)
    requires liqId in FieldIds(s.fields)
    requires DemandFor(s, liqId, step).Failure?
    ensures DemandFor(s, liqId, step).error == DoesNotExist("AgFieldTimestep")
  {
    DemandLookupIsFunction(s, liqId, step);
    forall t | t in s.timesteps
      ensures t.agfield != liqId || t.timestep != step
    {
    }
  }

  lemma FieldFailureIsMissingRow(s: Snapshot, step: int)
    requires WellFormed(s)
    ensures var fc := FieldConstraints(s, step, BuildIndex(OrderedPipes(s.fields, s.pipes), ByField));
            fc.Failure? ==> fc.error == DoesNotExist("AgFieldTimestep")
  {
    WellFormedCovered(s);
    var ordered := OrderedPipes(s.fields, s.pipes);
    var byField := BuildIndex(ordered, ByField);
    var fc := FieldConstraints(s, step, byField);
    if fc.Failure? {
      var g :| g in byField && DemandFor(s, g.key, step) == Failure(fc.error);
      GroupMatchesPipes(ordered, s.pipes, ByField, g);
      var p := WithKey(s.pipes, ByField, g.key)[0];
      assert p in WithKey(s.pipes, ByField, g.key);
      MissingDemandRow(s, g.key, step);
    }
  }

  /**
    On a well-formed snapshot, building succeeds exactly when every field with a pipe has a
    time-step row for `step`; otherwise it raises `DoesNotExist` for `AgFieldTimestep`.
   */
  lemma GetPartsSucceeds(s: Snapshot, step: int, year: int, ap: (string, int) -> real)
    requires WellFormed(s)
    ensures GetParts(s, step, year, ap).Success? <==>
            forall f :: f in s.fields && PipesOfField(s.pipes, f.liqId) != [] ==> DemandFor(s, f.liqId, step).Success?
    ensures GetParts(s, step, year, ap).Failure? ==> GetParts(s, step, year, ap).error == DoesNotExist("AgFieldTimestep")
  {
    WellFormedCovered(s);
    var ordered := OrderedPipes(s.fields, s.pipes);
    var built := set v | v in Names(ordered);
    var byField := BuildIndex(ordered, ByField);
    var byWell := BuildIndex(ordered, ByWell);
    WellKeysKnown(s);
    PipesBuilt(s);
    WellConstraintsSucceed(s, year, ap, built, byWell);
    DemandsOfGroups(s, step);
    FieldFailureIsMissingRow(s, step);
  }

  // ----- How many constraints -----

  /** The ids some pipe carries as its field (well) end. */
  function PipeKeys(pipes: seq<Pipe>, grouping: GroupBy): set<string> {
    set p | p in pipes :: KeyOf(p, grouping)
  }

  /** An index has one group per distinct key among the pipes. */
  lemma IndexSize(ordered: seq<Pipe>, pipes: seq<Pipe>, grouping: GroupBy)
    requires multiset(ordered) == multiset(pipes)
    ensures |BuildIndex(ordered, grouping)| == |PipeKeys(pipes, grouping)|
  {
    var idx := BuildIndex(ordered, grouping);
    var keys := set k | k in Keys(idx);
    forall k | k in keys
      ensures k in PipeKeys(pipes, grouping)
    {
      var j :| 0 <= j < |ordered| && KeysOfPipes(ordered, grouping)[j] == k;
      assert ordered[j] in multiset(pipes);
    }
    forall k | k in PipeKeys(pipes, grouping)
      ensures k in keys
    {
      var p :| p in pipes && KeyOf(p, grouping) == k;
      assert p in multiset(ordered);
      var j :| 0 <= j < |ordered| && ordered[j] == p;
      assert KeysOfPipes(ordered, grouping)[j] == k;
    }
    assert keys == PipeKeys(pipes, grouping);
    DistinctCardinality(Keys(idx));
  }

  lemma IndexKeys(ordered: seq<Pipe>, pipes: seq<Pipe>, grouping: GroupBy, k: string)
    requires multiset(ordered) == multiset(pipes)
    ensures k in Keys(BuildIndex(ordered, grouping)) <==> k in PipeKeys(pipes, grouping)
  {
    if k in Keys(BuildIndex(ordered, grouping)) {
      var j :| 0 <= j < |ordered| && KeysOfPipes(ordered, grouping)[j] == k;
      assert ordered[j] in multiset(pipes);
    }
    if k in PipeKeys(pipes, grouping) {
      var p :| p in pipes && KeyOf(p, grouping) == k;
      assert p in multiset(ordered);
      var j :| 0 <= j < |ordered| && ordered[j] == p;
      assert KeysOfPipes(ordered, grouping)[j] == k;
    }
  }

  /**
    The program has two constraints per field with a pipe, two per well with a pipe, and two per
    crop-tagged production record of a well with a pipe.
   */
  lemma ConstraintCount(s: Snapshot, step: int, year: int, ap: (string, int) -> real)
    requires WellFormed(s)
    requires GetParts(s, step, year, ap).Success?
    ensures |GetParts(s, step, year, ap).value.constraints| ==
            2 * |PipeKeys(s.pipes, ByField)| + 2 * |PipeKeys(s.pipes, ByWell)|
            + 2 * |Filter(s.production, (pr: WellProduction) => pr.well in PipeKeys(s.pipes, ByWell) && Tagged(pr))|
  {
    WellFormedCovered(s);
    var ordered := OrderedPipes(s.fields, s.pipes);
    var built := set v | v in Names(ordered);
    var byField := BuildIndex(ordered, ByField);
    var byWell := BuildIndex(ordered, ByWell);
    WellKeysKnown(s);
    PipesBuilt(s);
    WellConstraintsSucceed(s, year, ap, built, byWell);
    IndexSize(ordered, s.pipes, ByField);
    IndexSize(ordered, s.pipes, ByWell);
    TaggedCountIsFilter(s.production, Keys(byWell));
    forall k
      ensures k in Keys(byWell) <==> k in PipeKeys(s.pipes, ByWell)
    {
      IndexKeys(ordered, s.pipes, ByWell, k);
    }
    FilterCongruent(s.production, (pr: WellProduction) => pr.well in Keys(byWell) && Tagged(pr),
                    (pr: WellProduction) => pr.well in PipeKeys(s.pipes, ByWell) && Tagged(pr));
    assert GetParts(s, step, year, ap).value.constraints ==
           FieldConstraints(s, step, byField).value + WellConstraints(s, year, ap, built, byWell).value;
  }

  // ----- Feasibility -----

  lemma {:induction false} SumVarsConst(a: Assignment, vs: seq<VarName>, c: real)
    requires forall v :: v in vs ==> Val(a, v) == c
    ensures SumVars(a, vs) == |vs| as real * c
  {
    if vs != [] {
      assert vs[0] in vs;
      SumVarsConst(a, vs[1..], c);
    }
  }

  lemma SpreadEvenly(n: real, bound: real)
    requires n > 0.0
    ensures n * (bound / n) == bound
  {
  }

  /** Sharing a non-negative bound evenly among the variables meets the bound pair. */
  lemma EvenShareFeasible(vars: seq<VarName>, bound: real)
    requires |vars| > 0
    requires bound >= 0.0
    ensures Feasible(map v | v in vars :: bound / |vars| as real, BoundPair(vars, bound, Margin))
  {
    var c := bound / |vars| as real;
    var a: Assignment := map v | v in vars :: c;
    SumVarsConst(a, vars, c);
    SpreadEvenly(|vars| as real, bound);
    assert SumVars(a, vars) == bound;
    BoundPairMeaning(a, vars, bound, Margin);
  }

  /**
    A bound pair over at least one variable, with the program's margin, can be met by some
    assignment exactly when its bound is not negative.
   */
  lemma BoundPairSatisfiable(vars: seq<VarName>, bound: real)
    requires |vars| > 0
    ensures (exists a :: Feasible(a, BoundPair(vars, bound, Margin))) <==> bound >= 0.0
  {
    forall a | Feasible(a, BoundPair(vars, bound, Margin))
      ensures bound >= 0.0
    {
      BoundPairMeaning(a, vars, bound, Margin);
    }
    if bound >= 0.0 {
      EvenShareFeasible(vars, bound);
    }
  }

  /**
    A field with a pipe whose time-step row has more precipitation than consumptive use has negative
    demand, and then no assignment satisfies the program.
   */
  lemma NegativeDemandInfeasible(a: Assignment, s: Snapshot, step: int, year: int, ap: (string, int) -> real,
                                 t: AgFieldTimestep)
    requires WellFormed(s)
    requires GetParts(s, step, year, ap).Success?
    requires t in s.timesteps && t.timestep == step && t.precip > t.consumptiveUse
    requires PipesOfField(s.pipes, t.agfield) != []
    ensures !Feasible(a, GetParts(s, step, year, ap).value.constraints)
  {
    ConstraintsMeanBounds(a, s, step, year, ap);
    DemandLookupIsFunction(s, t.agfield, step);
    var i :| 0 <= i < |s.fields| && FieldIds(s.fields)[i] == t.agfield;
    var f := s.fields[i];
    assert f in s.fields && f.liqId == t.agfield;
    assert !Within(a, Names(PipesOfField(s.pipes, f.liqId)), Demand(t), FieldDemandMargin);
  }

  /** With nothing built, looking up `a` then `b` raises for `a`, the first, and not for `b`. */
  lemma LookupRaisesFirstMissing()
    ensures Lookup({}, ["a", "b"]) == Failure(KeyError("a"))
  {
    var r := Lookup({}, ["a", "b"]);
    var i :| FirstFailing(["a", "b"], (n: VarName) => n in {}, i) && r.error == KeyError(["a", "b"][i]);
    FirstFailingUnique(["a", "b"], (n: VarName) => n in {}, i, 0);
  }
}
