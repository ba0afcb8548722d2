/**
  What the allocation program built by `GetParts` means: which pipes become variables, how the
  variables are grouped, what the objective computes, how many constraints there are, and which
  assignments satisfy the constraints, stated against the snapshot directly.
 */
module AllocationProps {
  import opened Wrappers
  import opened Errors
  import opened Seqs
  import opened Models
  import opened Allocation

  // ----- Sums over permuted variable lists -----

  lemma {:induction false} SumVarsAppend(a: Assignment, u: seq<VarName>, v: seq<VarName>)
    ensures SumVars(a, u + v) == SumVars(a, u) + SumVars(a, v)
  {
    if u == [] {
      assert u + v == v;
    } else {
      assert (u + v)[1..] == u[1..] + v;
      SumVarsAppend(a, u[1..], v);
    }
  }

  lemma {:induction false} SumVarsPermutation(a: Assignment, u: seq<VarName>, v: seq<VarName>)
    requires multiset(u) == multiset(v)
    ensures SumVars(a, u) == SumVars(a, v)
  {
    if u == [] {
      assert |v| == |multiset(v)| == 0;
    } else {
      var j := PickOut(u, v);
      SumVarsPermutation(a, u[1..], v[..j] + v[j + 1..]);
      SumVarsAppend(a, v[..j] + [u[0]], v[j + 1..]);
      SumVarsAppend(a, v[..j], [u[0]]);
      SumVarsAppend(a, v[..j], v[j + 1..]);
    }
  }

  lemma WithinPermutation(a: Assignment, u: seq<VarName>, v: seq<VarName>, bound: real, margin: real)
    requires multiset(u) == multiset(v)
    ensures Within(a, u, bound, margin) <==> Within(a, v, bound, margin)
  {
    SumVarsPermutation(a, u, v);
    assert forall x :: x in u <==> x in v by {
      forall x
        ensures x in u <==> x in v
      {
        assert x in u <==> x in multiset(u);
        assert x in v <==> x in multiset(v);
      }
    }
  }

  lemma {:induction false} NamesPermutation(s: seq<Pipe>, t: seq<Pipe>)
    requires multiset(s) == multiset(t)
    ensures multiset(Names(s)) == multiset(Names(t))
  {
    if s == [] {
      assert |t| == |multiset(t)| == 0;
    } else {
      var j := PickOut(s, t);
      NamesPermutation(s[1..], t[..j] + t[j + 1..]);
      assert s == [s[0]] + s[1..];
      NamesAppend([s[0]], s[1..]);
      NamesAppend(t[..j] + [s[0]], t[j + 1..]);
      NamesAppend(t[..j], [s[0]]);
      NamesAppend(t[..j], t[j + 1..]);
    }
  }

  // ----- The visiting order covers every pipe once -----

  lemma WithKeyMultiplicity(ps: seq<Pipe>, grouping: GroupBy, k: string, x: Pipe)
    ensures multiset(WithKey(ps, grouping, k))[x] == if KeyOf(x, grouping) == k then multiset(ps)[x] else 0
  {
    FilterMultiplicity(ps, (p: Pipe) => KeyOf(p, grouping) == k, x);
  }

  lemma {:induction false} OrderedPipesMultiplicity(fields: seq<AgField>, pipes: seq<Pipe>, x: Pipe)
    requires Distinct(FieldIds(fields))
    ensures multiset(OrderedPipes(fields, pipes))[x] == if x.agfield in FieldIds(fields) then multiset(pipes)[x] else 0
  {
    if fields != [] {
      var rest := fields[1..];
      assert FieldIds(fields) == [fields[0].liqId] + FieldIds(rest);
      DistinctCons(fields[0].liqId, FieldIds(rest));
      OrderedPipesMultiplicity(rest, pipes, x);
      WithKeyMultiplicity(pipes, ByField, fields[0].liqId, x);
    }
  }

  /** Visiting field by field reaches every pipe of the snapshot exactly once. */
  lemma OrderedPipesPermutation(s: Snapshot)
    requires WellFormed(s)
    ensures multiset(OrderedPipes(s.fields, s.pipes)) == multiset(s.pipes)
  {
    forall x
      ensures multiset(OrderedPipes(s.fields, s.pipes))[x] == multiset(s.pipes)[x]
    {
      OrderedPipesMultiplicity(s.fields, s.pipes, x);
    }
  }

  // ----- Groups of the indexes against the snapshot's pipes -----

  lemma WithKeyPermutation(ordered: seq<Pipe>, pipes: seq<Pipe>, grouping: GroupBy, k: string)
    requires multiset(ordered) == multiset(pipes)
    ensures multiset(Names(WithKey(ordered, grouping, k))) == multiset(Names(WithKey(pipes, grouping, k)))
  {
    FilterPermutation(ordered, pipes, (p: Pipe) => KeyOf(p, grouping) == k);
    NamesPermutation(WithKey(ordered, grouping, k), WithKey(pipes, grouping, k));
  }

  lemma WithKeyNonEmpty(ps: seq<Pipe>, grouping: GroupBy, k: string)
    requires k in KeysOfPipes(ps, grouping)
    ensures WithKey(ps, grouping, k) != []
  {
    var j :| 0 <= j < |ps| && KeysOfPipes(ps, grouping)[j] == k;
    assert ps[j] in WithKey(ps, grouping, k);
  }

  /** A group of either index holds, up to order, the names of exactly the pipes with its key. */
  lemma GroupMatchesPipes(ordered: seq<Pipe>, pipes: seq<Pipe>, grouping: GroupBy, g: Group)
    requires multiset(ordered) == multiset(pipes)
    requires g in BuildIndex(ordered, grouping)
    ensures multiset(g.vars) == multiset(Names(WithKey(pipes, grouping, g.key)))
    ensures WithKey(pipes, grouping, g.key) != []
  {
    var idx := BuildIndex(ordered, grouping);
    var i :| 0 <= i < |idx| && idx[i] == g;
    assert g.vars == Names(WithKey(ordered, grouping, g.key));
    WithKeyPermutation(ordered, pipes, grouping, g.key);
    assert Keys(idx)[i] == g.key;
    assert g.key in KeysOfPipes(ordered, grouping);
    WithKeyNonEmpty(ordered, grouping, g.key);
    var p := WithKey(ordered, grouping, g.key)[0];
    assert p in WithKey(ordered, grouping, g.key);
    assert p in multiset(pipes);
    assert p in WithKey(pipes, grouping, g.key);
  }

  /** Every key some pipe carries has its group. */
  lemma KeyHasGroup(ordered: seq<Pipe>, pipes: seq<Pipe>, grouping: GroupBy, k: string)
    requires multiset(ordered) == multiset(pipes)
    requires WithKey(pipes, grouping, k) != []
    ensures exists g :: g in BuildIndex(ordered, grouping) && g.key == k
  {
    var idx := BuildIndex(ordered, grouping);
    var p := WithKey(pipes, grouping, k)[0];
    assert p in WithKey(pipes, grouping, k);
    assert p in multiset(ordered);
    var j :| 0 <= j < |ordered| && ordered[j] == p;
    assert KeysOfPipes(ordered, grouping)[j] == k;
    assert k in KeysOfPipes(ordered, grouping);
    assert k in Keys(idx);
    var i :| 0 <= i < |idx| && Keys(idx)[i] == k;
    assert idx[i] in idx;
  }

  // ----- What each block of constraints means -----

  lemma {:induction false} FieldConstraintsMeaning(a: Assignment, s: Snapshot, step: int, idx: seq<Group>)
    requires FieldConstraints(s, step, idx).Success?
    ensures Feasible(a, FieldConstraints(s, step, idx).value) <==> forall g :: g in idx ==> FieldWithin(a, s, step, g)
  {
    if idx != [] {
      var d := DemandFor(s, idx[0].key, step).value;
      var pair := BoundPair(idx[0].vars, d, FieldDemandMargin);
      assert forall g :: g in idx <==> g == idx[0] || g in idx[1..];
      var rest := FieldConstraints(s, step, idx[1..]);
      FieldConstraintsMeaning(a, s, step, idx[1..]);
      assert FieldConstraints(s, step, idx).value == pair + rest.value;
      FeasibleAppend(a, pair, rest.value);
      BoundPairMeaning(a, idx[0].vars, d, FieldDemandMargin);
      assert FieldWithin(a, s, step, idx[0]) <==> Within(a, idx[0].vars, d, FieldDemandMargin);
    }
  }

  lemma {:induction false} CropConstraintsMeaning(a: Assignment, s: Snapshot, wellId: string,
                                                  prods: seq<WellProduction>, built: set<VarName>)
    requires CropConstraints(s, wellId, prods, built).Success?
    ensures Feasible(a, CropConstraints(s, wellId, prods, built).value) <==>
            forall pr :: pr in prods && Tagged(pr) ==> CropWithin(a, s, wellId, pr)
  {
    if prods != [] {
      assert forall pr :: pr in prods <==> pr == prods[0] || pr in prods[1..];
      var rest := CropConstraints(s, wellId, prods[1..], built);
      CropConstraintsMeaning(a, s, wellId, prods[1..], built);
      if Tagged(prods[0]) {
        var vars := Names(CropPipes(s, wellId, prods[0].crop.value));
        var pair := BoundPair(vars, prods[0].quantity, SingleCropWellAllocationMargin);
        assert CropConstraints(s, wellId, prods, built).value == pair + rest.value;
        FeasibleAppend(a, pair, rest.value);
        BoundPairMeaning(a, vars, prods[0].quantity, SingleCropWellAllocationMargin);
      }
    }
  }

  lemma {:induction false} WellConstraintsMeaning(a: Assignment, s: Snapshot, year: int, ap: (string, int) -> real,
                                                  built: set<VarName>, idx: seq<Group>)
    requires WellConstraints(s, year, ap, built, idx).Success?
    ensures Feasible(a, WellConstraints(s, year, ap, built, idx).value) <==>
            forall g :: g in idx ==> WellWithin(a, year, ap, g) && CropsWithin(a, s, g.key)
  {
    if idx != [] {
      var matches := Filter(s.wells, (w: Well) => w.wellId == idx[0].key);
      var well := Get(matches, "Well").value;
      assert well in matches;
      var prods := ProductionOf(s.production, well.wellId);
      var crops := CropConstraints(s, well.wellId, prods, built);
      var rest := WellConstraints(s, year, ap, built, idx[1..]);
      var pair := BoundPair(idx[0].vars, ap(well.wellId, year), WellAllocationMargin);
      assert WellConstraints(s, year, ap, built, idx).value == pair + crops.value + rest.value;
      WellConstraintsMeaning(a, s, year, ap, built, idx[1..]);
      CropConstraintsMeaning(a, s, well.wellId, prods, built);
      FeasibleAppend(a, pair + crops.value, rest.value);
      FeasibleAppend(a, pair, crops.value);
      BoundPairMeaning(a, idx[0].vars, ap(well.wellId, year), WellAllocationMargin);
      assert forall g :: g in idx <==> g == idx[0] || g in idx[1..];
    }
  }

  // ----- The bounds, stated on the snapshot -----

  /** Every field with a pipe has a demand row, and its inbound sum lies within its demand bounds. */
  predicate FieldBoundsHold(a: Assignment, s: Snapshot, step: int) {
    forall f :: f in s.fields && PipesOfField(s.pipes, f.liqId) != [] ==>
      && DemandFor(s, f.liqId, step).Success?
      && Within(a, Names(PipesOfField(s.pipes, f.liqId)), DemandFor(s, f.liqId, step).value, FieldDemandMargin)
  }

  /** Every well with a pipe sends out between the well margin times its annual production and that production. */
  predicate WellBoundsHold(a: Assignment, s: Snapshot, year: int, ap: (string, int) -> real) {
    forall w :: w in s.wells && PipesOfWell(s.pipes, w.wellId) != [] ==>
      Within(a, Names(PipesOfWell(s.pipes, w.wellId)), ap(w.wellId, year), WellAllocationMargin)
  }

  /** Every crop-tagged record of a well with a pipe bounds what that well sends to fields of that crop. */
  predicate CropBoundsHold(a: Assignment, s: Snapshot) {
    forall pr :: pr in s.production && Tagged(pr) && PipesOfWell(s.pipes, pr.well) != [] ==>
      CropWithin(a, s, pr.well, pr)
  }

  /** The visiting order is a permutation of the pipes, and every pipe starts at a known well and ends at a known field. */
  predicate Covered(s: Snapshot) {
    && multiset(OrderedPipes(s.fields, s.pipes)) == multiset(s.pipes)
    && (forall p :: p in s.pipes ==> p.well in WellIds(s.wells) && p.agfield in FieldIds(s.fields))
  }

  lemma WellFormedCovered(s: Snapshot)
    requires WellFormed(s)
    ensures Covered(s)
  {
    OrderedPipesPermutation(s);
  }

  lemma FieldGroupsToFields(a: Assignment, s: Snapshot, step: int)
    requires Covered(s)
    requires forall g :: g in BuildIndex(OrderedPipes(s.fields, s.pipes), ByField) ==> FieldWithin(a, s, step, g)
    ensures FieldBoundsHold(a, s, step)
  {
    var idx := BuildIndex(OrderedPipes(s.fields, s.pipes), ByField);
    forall f | f in s.fields && PipesOfField(s.pipes, f.liqId) != []
      ensures DemandFor(s, f.liqId, step).Success?
      ensures Within(a, Names(PipesOfField(s.pipes, f.liqId)), DemandFor(s, f.liqId, step).value, FieldDemandMargin)
    {
      KeyHasGroup(OrderedPipes(s.fields, s.pipes), s.pipes, ByField, f.liqId);
      var g :| g in idx && g.key == f.liqId;
      assert FieldWithin(a, s, step, g);
      GroupMatchesPipes(OrderedPipes(s.fields, s.pipes), s.pipes, ByField, g);
      WithinPermutation(a, g.vars, Names(PipesOfField(s.pipes, f.liqId)), DemandFor(s, f.liqId, step).value, FieldDemandMargin);
    }
  }

  lemma FieldBoundsAt(a: Assignment, s: Snapshot, step: int, f: AgField)
    requires FieldBoundsHold(a, s, step)
    requires f in s.fields && PipesOfField(s.pipes, f.liqId) != []
    ensures DemandFor(s, f.liqId, step).Success?
    ensures Within(a, Names(PipesOfField(s.pipes, f.liqId)), DemandFor(s, f.liqId, step).value, FieldDemandMargin)
  {
  }

  lemma FieldsToFieldGroups(a: Assignment, s: Snapshot, step: int, g: Group)
    requires Covered(s)
    requires FieldBoundsHold(a, s, step)
    requires g in BuildIndex(OrderedPipes(s.fields, s.pipes), ByField)
    ensures FieldWithin(a, s, step, g)
  {
    GroupMatchesPipes(OrderedPipes(s.fields, s.pipes), s.pipes, ByField, g);
    var ws := WithKey(s.pipes, ByField, g.key);
    var p := ws[0];
    assert p in ws;
    assert p in s.pipes && p.agfield == g.key;
    var ids := FieldIds(s.fields);
    assert g.key in ids;
    var i :| 0 <= i < |ids| && ids[i] == g.key;
    var f := s.fields[i];
    assert f in s.fields && f.liqId == g.key;
    assert PipesOfField(s.pipes, f.liqId) == ws;
    FieldBoundsAt(a, s, step, f);
    WithinPermutation(a, g.vars, Names(ws), DemandFor(s, g.key, step).value, FieldDemandMargin);
  }

  lemma WellGroupsToWells(a: Assignment, s: Snapshot, year: int, ap: (string, int) -> real)
    requires Covered(s)
    requires forall g :: g in BuildIndex(OrderedPipes(s.fields, s.pipes), ByWell) ==> WellWithin(a, year, ap, g)
    ensures WellBoundsHold(a, s, year, ap)
  {
    var idx := BuildIndex(OrderedPipes(s.fields, s.pipes), ByWell);
    forall w | w in s.wells && PipesOfWell(s.pipes, w.wellId) != []
      ensures Within(a, Names(PipesOfWell(s.pipes, w.wellId)), ap(w.wellId, year), WellAllocationMargin)
    {
      KeyHasGroup(OrderedPipes(s.fields, s.pipes), s.pipes, ByWell, w.wellId);
      var g :| g in idx && g.key == w.wellId;
      assert WellWithin(a, year, ap, g);
      GroupMatchesPipes(OrderedPipes(s.fields, s.pipes), s.pipes, ByWell, g);
      WithinPermutation(a, g.vars, Names(PipesOfWell(s.pipes, w.wellId)), ap(w.wellId, year), WellAllocationMargin);
    }
  }

  lemma WellBoundsAt(a: Assignment, s: Snapshot, year: int, ap: (string, int) -> real, w: Well)
    requires WellBoundsHold(a, s, year, ap)
    requires w in s.wells && PipesOfWell(s.pipes, w.wellId) != []
    ensures Within(a, Names(PipesOfWell(s.pipes, w.wellId)), ap(w.wellId, year), WellAllocationMargin)
  {
  }

  lemma WellsToWellGroups(a: Assignment, s: Snapshot, year: int, ap: (string, int) -> real, g: Group)
    requires Covered(s)
    requires WellBoundsHold(a, s, year, ap)
    requires g in BuildIndex(OrderedPipes(s.fields, s.pipes), ByWell)
    ensures WellWithin(a, year, ap, g)
  {
    GroupMatchesPipes(OrderedPipes(s.fields, s.pipes), s.pipes, ByWell, g);
    var ws := WithKey(s.pipes, ByWell, g.key);
    var p := ws[0];
    assert p in ws;
    assert p in s.pipes && p.well == g.key;
    var ids := WellIds(s.wells);
    assert g.key in ids;
    var i :| 0 <= i < |ids| && ids[i] == g.key;
    var w := s.wells[i];
    assert w in s.wells && w.wellId == g.key;
    assert PipesOfWell(s.pipes, w.wellId) == ws;
    WellBoundsAt(a, s, year, ap, w);
    WithinPermutation(a, g.vars, Names(ws), ap(g.key, year), WellAllocationMargin);
  }

  lemma CropGroupsToRecords(a: Assignment, s: Snapshot)
    requires Covered(s)
    requires forall g :: g in BuildIndex(OrderedPipes(s.fields, s.pipes), ByWell) ==> CropsWithin(a, s, g.key)
    ensures CropBoundsHold(a, s)
  {
    var idx := BuildIndex(OrderedPipes(s.fields, s.pipes), ByWell);
    forall pr | pr in s.production && Tagged(pr) && PipesOfWell(s.pipes, pr.well) != []
      ensures CropWithin(a, s, pr.well, pr)
    {
      KeyHasGroup(OrderedPipes(s.fields, s.pipes), s.pipes, ByWell, pr.well);
      var g :| g in idx && g.key == pr.well;
      assert CropsWithin(a, s, g.key);
      assert pr in ProductionOf(s.production, pr.well);
    }
  }

  lemma RecordsToCropGroups(a: Assignment, s: Snapshot, g: Group)
    requires Covered(s)
    requires CropBoundsHold(a, s)
    requires g in BuildIndex(OrderedPipes(s.fields, s.pipes), ByWell)
    ensures CropsWithin(a, s, g.key)
  {
    GroupMatchesPipes(OrderedPipes(s.fields, s.pipes), s.pipes, ByWell, g);
    forall pr | pr in ProductionOf(s.production, g.key) && Tagged(pr)
      ensures CropWithin(a, s, g.key, pr)
    {
      assert pr in s.production && pr.well == g.key;
    }
  }

  /**
    An assignment satisfies every constraint of the built program exactly when each field with a
    pipe, each well with a pipe and each crop-tagged record of such a well stays within its bounds.
   */
  lemma ConstraintsMeanBounds(a: Assignment, s: Snapshot, step: int, year: int, ap: (string, int) -> real)
    requires WellFormed(s)
    requires GetParts(s, step, year, ap).Success?
    ensures Feasible(a, GetParts(s, step, year, ap).value.constraints) <==>
            FieldBoundsHold(a, s, step) && WellBoundsHold(a, s, year, ap) && CropBoundsHold(a, s)
  {
    var ordered := OrderedPipes(s.fields, s.pipes);
    var built := set v | v in Names(ordered);
    var fc := FieldConstraints(s, step, BuildIndex(ordered, ByField));
    var wc := WellConstraints(s, year, ap, built, BuildIndex(ordered, ByWell));
    assert GetParts(s, step, year, ap).value.constraints == fc.value + wc.value;
    FeasibleAppend(a, fc.value, wc.value);
    FieldConstraintsMeaning(a, s, step, BuildIndex(ordered, ByField));
    WellConstraintsMeaning(a, s, year, ap, built, BuildIndex(ordered, ByWell));
    WellFormedCovered(s);
    var byField := BuildIndex(ordered, ByField);
    var byWell := BuildIndex(ordered, ByWell);
    if Feasible(a, fc.value + wc.value) {
      FieldGroupsToFields(a, s, step);
      WellGroupsToWells(a, s, year, ap);
      CropGroupsToRecords(a, s);
    }
    if FieldBoundsHold(a, s, step) && WellBoundsHold(a, s, year, ap) && CropBoundsHold(a, s) {
      forall g | g in byField
        ensures FieldWithin(a, s, step, g)
      {
        FieldsToFieldGroups(a, s, step, g);
      }
      forall g | g in byWell
        ensures WellWithin(a, year, ap, g) && CropsWithin(a, s, g.key)
      {
        WellsToWellGroups(a, s, year, ap, g);
        RecordsToCropGroups(a, s, g);
      }
    }
  }
}
