/**
  The persistent entities of the allocation system, as an immutable in-memory snapshot of the
  database, with the quantities the entities derive and the lookups the builder performs on them.
 */
module Models {
  import opened Wrappers
  import opened Errors
  import opened Seqs
  import Text

  /** A crop, referenced by its primary key `pk`; `efficiencyOptionsText` is a comma-separated list. */
  datatype Crop = Crop(pk: nat, name: string, liqCode: string, efficiencyOptionsText: string)

  /** A well, identified by the district's `wellId`. */
  datatype Well = Well(wellId: string, serviceArea: string, allocatedAmount: real)

  /** A metered production record of well `well` (a well id) for one time step, optionally tagged with a crop. */
  datatype WellProduction = WellProduction(well: string, timestep: int, crop: Option<nat>, quantity: real)

  /** An agricultural field, identified by `liqId`; `pk` is its database primary key. */
  datatype AgField = AgField(pk: nat, liqId: string, crop: Option<nat>, openetId: Option<string>)

  /** The consumptive use and precipitation of field `agfield` (a liq id) in one time step. */
  datatype AgFieldTimestep = AgFieldTimestep(agfield: string, timestep: int, consumptiveUse: real, precip: real)

  /** A pipe from well `well` (a well id) to field `agfield` (a liq id). */
  datatype Pipe = Pipe(well: string, agfield: string, distance: real)

  /** The rows of every table the allocation reads. */
  datatype Snapshot = Snapshot(
    crops: seq<Crop>,
    wells: seq<Well>,
    production: seq<WellProduction>,
    fields: seq<AgField>,
    timesteps: seq<AgFieldTimestep>,
    pipes: seq<Pipe>)

  // ----- Derived quantities -----

  /** The efficiency options of a crop: one entry per comma-separated segment, in stored order. */
  function EfficiencyOptions(c: Crop): (r: seq<string>)
    ensures |r| == Text.Count(c.efficiencyOptionsText, ',') + 1
    ensures forall i :: 0 <= i < |r| ==> ',' !in r[i]
    ensures Text.Join(r, ',') == c.efficiencyOptionsText
  {
    Text.SplitThenJoin(c.efficiencyOptionsText, ',');
    Text.Split(c.efficiencyOptionsText, ',')
  }

  /** Net demand of a field for a time step: consumptive use less precipitation, never clamped. */
  function Demand(t: AgFieldTimestep): (r: real)
    ensures r + t.precip == t.consumptiveUse
    ensures r < 0.0 <==> t.precip > t.consumptiveUse
  {
    t.consumptiveUse - t.precip
  }

  /** The production records of one well (`well.production.all()`). */
  function ProductionOf(production: seq<WellProduction>, wellId: string): seq<WellProduction> {
    Filter(production, (pr: WellProduction) => pr.well == wellId)
  }

  /** The total quantity of a list of production records. */
  function TotalQuantity(ps: seq<WellProduction>): (r: real)
    ensures (forall i :: 0 <= i < |ps| ==> ps[i].quantity >= 0.0) ==> r >= 0.0
  {
    if ps == [] then 0.0 else ps[0].quantity + TotalQuantity(ps[1..])
  }

  lemma {:induction false} TotalQuantityAppend(a: seq<WellProduction>, b: seq<WellProduction>)
    ensures TotalQuantity(a + b) == TotalQuantity(a) + TotalQuantity(b)
  {
    if a == [] {
      assert a + b == b;
    } else {
      assert (a + b)[1..] == a[1..] + b;
      TotalQuantityAppend(a[1..], b);
    }
  }

  /** The capacity of a well: the sum of the quantities of all its production records. */
  function Capacity(w: Well, production: seq<WellProduction>): (r: real)
    ensures (forall pr :: pr in production ==> pr.well != w.wellId) ==> r == 0.0
    ensures (forall pr :: pr in production ==> pr.quantity >= 0.0) ==> r >= 0.0
  {
    var own := ProductionOf(production, w.wellId);
    assert (forall pr :: pr in production ==> pr.well != w.wellId) ==> own == [] by {
      if own != [] {
        assert own[0] in own;
      }
    }
    TotalQuantity(own)
  }

  /** Adding one production record raises the capacity of its own well by its quantity and of no other well. */
  lemma CapacityAppend(w: Well, production: seq<WellProduction>, pr: WellProduction)
    ensures Capacity(w, production + [pr])
         == Capacity(w, production) + (if pr.well == w.wellId then pr.quantity else 0.0)
  {
    var f := (x: WellProduction) => x.well == w.wellId;
    FilterAppend(production, [pr], f);
    TotalQuantityAppend(Filter(production, f), Filter([pr], f));
  }

  /** The unaccounted-for water of a well: what the allocation leaves of its capacity. */
  function Losses(w: Well, production: seq<WellProduction>): (r: real)
    ensures w.allocatedAmount + r == Capacity(w, production)
    ensures r >= 0.0 <==> w.allocatedAmount <= Capacity(w, production)
  {
    Capacity(w, production) - w.allocatedAmount
  }

  // ----- Lookups -----

  /** Django's `objects.get` over the rows that match its filter. */
  function Get<T>(matches: seq<T>, model: string): (r: Result<T, Error>)
    ensures r.Success? <==> |matches| == 1
    ensures r.Success? ==> r.value == matches[0]
    ensures |matches| == 0 <==> r == Failure(DoesNotExist(model))
    ensures |matches| > 1 <==> r == Failure(MultipleObjectsReturned(model))
  {
    if |matches| == 0 then Failure(DoesNotExist(model))
    else if |matches| > 1 then Failure(MultipleObjectsReturned(model))
    else Success(matches[0])
  }

  function FieldIds(fields: seq<AgField>): seq<string> {
    seq(|fields|, i requires 0 <= i < |fields| => fields[i].liqId)
  }

  function WellIds(wells: seq<Well>): seq<string> {
    seq(|wells|, i requires 0 <= i < |wells| => wells[i].wellId)
  }

  function CropPks(crops: seq<Crop>): seq<nat> {
    seq(|crops|, i requires 0 <= i < |crops| => crops[i].pk)
  }

  function FieldPks(fields: seq<AgField>): seq<nat> {
    seq(|fields|, i requires 0 <= i < |fields| => fields[i].pk)
  }

  /** The (well, field) pair each pipe connects. */
  function PipeEnds(pipes: seq<Pipe>): seq<(string, string)> {
    seq(|pipes|, i requires 0 <= i < |pipes| => (pipes[i].well, pipes[i].agfield))
  }

  /** At most one timestep row per (field, time step): the `unique_together` of `AgFieldTimestep`. */
  predicate UniqueTimesteps(ts: seq<AgFieldTimestep>) {
    forall i, j :: 0 <= i < j < |ts| ==> (ts[i].agfield, ts[i].timestep) != (ts[j].agfield, ts[j].timestep)
  }

  /** At most one production row per (well, time step): the `unique_together` of `WellProduction`. */
  predicate UniqueProduction(ps: seq<WellProduction>) {
    forall i, j :: 0 <= i < j < |ps| ==> (ps[i].well, ps[i].timestep) != (ps[j].well, ps[j].timestep)
  }

  /** The schema's keys, uniqueness constraints and foreign keys hold of the snapshot. */
  predicate WellFormed(s: Snapshot) {
    && Distinct(CropPks(s.crops))
    && Distinct(WellIds(s.wells))
    && Distinct(FieldIds(s.fields))
    && Distinct(FieldPks(s.fields))
    && Distinct(PipeEnds(s.pipes))
    && UniqueTimesteps(s.timesteps)
    && UniqueProduction(s.production)
    && (forall p :: p in s.pipes ==> p.well in WellIds(s.wells) && p.agfield in FieldIds(s.fields))
    && (forall t :: t in s.timesteps ==> t.agfield in FieldIds(s.fields))
    && (forall pr :: pr in s.production ==> pr.well in WellIds(s.wells))
    && (forall pr :: pr in s.production && pr.crop.Some? ==> pr.crop.value in CropPks(s.crops))
    && (forall f :: f in s.fields && f.crop.Some? ==> f.crop.value in CropPks(s.crops))
  }

  /** The timestep rows of field `liqId` for time step `step`. */
  function TimestepsFor(ts: seq<AgFieldTimestep>, liqId: string, step: int): seq<AgFieldTimestep> {
    Filter(ts, (t: AgFieldTimestep) => t.agfield == liqId && t.timestep == step)
  }

  /** `AgField.objects.get(liq_id=liqId).timesteps.get(timestep=step).demand`. */
  function DemandFor(s: Snapshot, liqId: string, step: int): (r: Result<real, Error>)
    ensures r.Failure? ==> r.error in {DoesNotExist("AgField"), MultipleObjectsReturned("AgField"),
                                       DoesNotExist("AgFieldTimestep"), MultipleObjectsReturned("AgFieldTimestep")}
    ensures r.Success? ==> exists t :: t in s.timesteps && t.agfield == liqId && t.timestep == step && r.value == Demand(t)
  {
    var fields := Filter(s.fields, (f: AgField) => f.liqId == liqId);
    var field :- Get(fields, "AgField");
    assert field == fields[0] && fields[0] in fields;
    var rows := TimestepsFor(s.timesteps, field.liqId, step);
    var t :- Get(rows, "AgFieldTimestep");
    assert t == rows[0] && rows[0] in rows;
    Success(Demand(t))
  }

  /** The production row of well `wellId` for time step `step`. */
  function ProductionAt(s: Snapshot, wellId: string, step: int): (r: Result<WellProduction, Error>)
    ensures r.Failure? ==> r.error in {DoesNotExist("WellProduction"), MultipleObjectsReturned("WellProduction")}
    ensures r.Success? ==> r.value in s.production && r.value.well == wellId && r.value.timestep == step
  {
    Get(Filter(s.production, (pr: WellProduction) => pr.well == wellId && pr.timestep == step), "WellProduction")
  }

  /** The crop of field `liqId` (the `agfield__crop` join); `None` for a field without crop or an unknown id. */
  function FieldCrop(fields: seq<AgField>, liqId: string): Option<nat> {
    var m := Filter(fields, (f: AgField) => f.liqId == liqId);
    if |m| == 0 then None else m[0].crop
  }

  /** With distinct ids, exactly one field row carries each known liq id. */
  lemma FieldById(fields: seq<AgField>, liqId: string)
    requires Distinct(FieldIds(fields))
    requires liqId in FieldIds(fields)
    ensures |Filter(fields, (f: AgField) => f.liqId == liqId)| == 1
  {
    var f := (f: AgField) => f.liqId == liqId;
    var ids := FieldIds(fields);
    FilterAtMostOne(fields, f) by {
      forall i, j | 0 <= i < j < |fields| && f(fields[i])
        ensures !f(fields[j])
      {
        assert ids[i] != ids[j];
      }
    }
    var k :| 0 <= k < |ids| && ids[k] == liqId;
    assert fields[k] in Filter(fields, f);
  }

  /** With distinct ids, exactly one well row carries each known well id. */
  lemma WellById(wells: seq<Well>, wellId: string)
    requires Distinct(WellIds(wells))
    requires wellId in WellIds(wells)
    ensures |Filter(wells, (w: Well) => w.wellId == wellId)| == 1
  {
    var f := (w: Well) => w.wellId == wellId;
    var ids := WellIds(wells);
    FilterAtMostOne(wells, f) by {
      forall i, j | 0 <= i < j < |wells| && f(wells[i])
        ensures !f(wells[j])
      {
        assert ids[i] != ids[j];
      }
    }
    var k :| 0 <= k < |ids| && ids[k] == wellId;
    assert wells[k] in Filter(wells, f);
  }

  /** `objects.get` over a filter that keeps at most one row: that row when one passes, `DoesNotExist` when none does. */
  lemma GetUnique<T(!new)>(rows: seq<T>, f: T -> bool, model: string)
    requires |Filter(rows, f)| <= 1
    ensures forall x :: x in rows && f(x) ==> Get(Filter(rows, f), model) == Success(x)
    ensures (forall x :: x in rows ==> !f(x)) <==> Get(Filter(rows, f), model) == Failure(DoesNotExist(model))
  {
    var m := Filter(rows, f);
    forall x | x in rows && f(x)
      ensures Get(m, model) == Success(x)
    {
      assert x in m;
      assert m[0] == x;
    }
    if |m| > 0 {
      assert m[0] in m;
    }
  }

  /** Demand lookup is a partial function: the demand of the one matching row, or `DoesNotExist`. */
  lemma DemandLookupIsFunction(s: Snapshot, liqId: string, step: int)
    requires WellFormed(s)
    requires liqId in FieldIds(s.fields)
    ensures forall t :: t in s.timesteps && t.agfield == liqId && t.timestep == step ==>
              DemandFor(s, liqId, step) == Success(Demand(t))
    ensures (forall t :: t in s.timesteps ==> t.agfield != liqId || t.timestep != step) <==>
              DemandFor(s, liqId, step) == Failure(DoesNotExist("AgFieldTimestep"))
  {
    var fm := Filter(s.fields, (f: AgField) => f.liqId == liqId);
    FieldById(s.fields, liqId);
    assert fm[0] in fm;
    assert Get(fm, "AgField") == Success(fm[0]);
    var g := (t: AgFieldTimestep) => t.agfield == liqId && t.timestep == step;
    var m := TimestepsFor(s.timesteps, liqId, step);
    assert m == Filter(s.timesteps, g);
    FilterAtMostOne(s.timesteps, g) by {
      forall i, j | 0 <= i < j < |s.timesteps| && g(s.timesteps[i])
        ensures !g(s.timesteps[j])
      {
        assert (s.timesteps[i].agfield, s.timesteps[i].timestep) != (s.timesteps[j].agfield, s.timesteps[j].timestep);
      }
    }
    GetUnique(s.timesteps, g, "AgFieldTimestep");
    var r := Get(m, "AgFieldTimestep");
    assert DemandFor(s, liqId, step) == if r.Success? then Success(Demand(r.value)) else Failure(r.error);
  }

  /** Production lookup by (well, time step) is a partial function: the one matching row, or `DoesNotExist`. */
  lemma ProductionLookupIsFunction(s: Snapshot, wellId: string, step: int)
    requires UniqueProduction(s.production)
    ensures forall pr :: pr in s.production && pr.well == wellId && pr.timestep == step ==>
              ProductionAt(s, wellId, step) == Success(pr)
    ensures (forall pr :: pr in s.production ==> pr.well != wellId || pr.timestep != step) <==>
              ProductionAt(s, wellId, step) == Failure(DoesNotExist("WellProduction"))
  {
    var f := (pr: WellProduction) => pr.well == wellId && pr.timestep == step;
    assert ProductionAt(s, wellId, step) == Get(Filter(s.production, f), "WellProduction");
    FilterAtMostOne(s.production, f) by {
      forall i, j | 0 <= i < j < |s.production| && f(s.production[i])
        ensures !f(s.production[j])
      {
        assert (s.production[i].well, s.production[i].timestep) != (s.production[j].well, s.production[j].timestep);
      }
    }
    GetUnique(s.production, f, "WellProduction");
  }
}
