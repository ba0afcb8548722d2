/**
  The field-map machinery of the CSV importer: blank-cell sanitising, resolving one field-map entry
  against a CSV record (a constant, a column, or a foreign-key lookup), normalising a field map,
  and the values dictionary handed to `get_or_create` for every record. Reading the file, the
  `DictReader` and `get_or_create` itself are outside the model; the database appears only as the
  set of model names and the rows an `objects.get` filter matches.
 */
module Load {
  import opened Wrappers
  import opened Errors
  import opened Text
  import opened Seqs

  /** A cell, a constant or a fetched row: `None`, a string, an integer, or a model instance. */
  datatype Value = Null | Str(text: string) | Int(n: int) | Row(model: string, pk: nat)

  /** Not one of the two blank spellings that `sanitize_input` turns into `None`. */
  predicate Sanitized(v: Value) {
    v != Str("") && v != Str(" ")
  }

  /**
    `sanitize_input`: the empty string and a single space become `None`; every other value is kept.
    The result is always sanitized and sanitized values are kept, so sanitizing twice is sanitizing once.
   */
  function SanitizeInput(v: Value): (r: Value)
    ensures Sanitized(r)
    ensures Sanitized(v) ==> r == v
    ensures !Sanitized(v) ==> r == Null
  {
    if v == Str("") || v == Str(" ") then Null else v
  }

  /** What a field-map entry says to store: a `Constant`, a CSV column name, or `{"Model.attr": column}`. */
  datatype FieldSource =
    | Constant(value: Value)
    | Column(name: string)
    | ForeignKey(lookups: seq<(string, string)>)

  /** One CSV row as `DictReader` yields it: column name to cell. */
  type Record = map<string, Value>

  /**
    The database as the importer sees it: the model names `getattr(models, ...)` finds, and the
    primary keys of the rows of a model whose attribute equals a value.
   */
  datatype Db = Db(models: set<string>, matches: (string, string, Value) -> seq<nat>)

  /** `getattr(models, model).objects.get(attr=v)`, with `DoesNotExist` caught and turned into `None`. */
  function FetchRow(db: Db, model: string, attr: string, v: Value): (r: Result<Value, Error>)
    ensures model !in db.models ==> r == Failure(AttributeError(model))
    ensures model in db.models && |db.matches(model, attr, v)| == 0 <==> r == Success(Null)
    ensures model in db.models && |db.matches(model, attr, v)| == 1 <==> r.Success? && r.value.Row?
    ensures r.Success? && r.value.Row? ==> r.value == Row(model, db.matches(model, attr, v)[0])
    ensures model in db.models && |db.matches(model, attr, v)| > 1 <==> r == Failure(MultipleObjectsReturned(model))
  {
    if model !in db.models then Failure(AttributeError(model))
    else
      var ms := db.matches(model, attr, v);
      if |ms| == 0 then Success(Null)
      else if |ms| > 1 then Failure(MultipleObjectsReturned(model))
      else Success(Row(model, ms[0]))
  }

  /** `model, attribute = model_key.split(".")`. */
  function SplitModelKey(modelKey: string): (r: Result<(string, string), Error>)
    ensures r.Success? <==> Count(modelKey, '.') == 1
    ensures r.Success? ==> '.' !in r.value.0 && '.' !in r.value.1
    ensures r.Success? ==> r.value.0 + "." + r.value.1 == modelKey
  {
    var parts := Split(modelKey, '.');
    if |parts| < 2 then Failure(ValueError("not enough values to unpack (expected 2, got 1)"))
    else if |parts| > 2 then Failure(ValueError("too many values to unpack (expected 2)"))
    else
      SplitThenJoin(modelKey, '.');
      assert parts[1..][0] == parts[1];
      Success((parts[0], parts[1]))
  }

  /**
    The foreign-key branch of `get_value`: the first key of the dict names the model and attribute,
    its value names the column whose sanitized cell is looked up; a missing column is a `KeyError`.
   */
  function ForeignKeyValue(record: Record, lookups: seq<(string, string)>, db: Db): (r: Result<Value, Error>)
    ensures lookups == [] ==> r.Failure? && r.error.IndexError?
    ensures lookups != [] && Count(lookups[0].0, '.') != 1 ==> r.Failure? && r.error.ValueError?
    ensures lookups != [] && Count(lookups[0].0, '.') == 1 && lookups[0].1 !in record ==> r == Failure(KeyError(lookups[0].1))
    ensures r.Success? ==>
              && lookups != [] && lookups[0].1 in record
              && SplitModelKey(lookups[0].0).Success?
              && r == FetchRow(db, SplitModelKey(lookups[0].0).value.0, SplitModelKey(lookups[0].0).value.1,
                               SanitizeInput(record[lookups[0].1]))
  {
    if lookups == [] then Failure(IndexError("list index out of range"))
    else
      var (modelKey, column) := lookups[0];
      var (model, attr) :- SplitModelKey(modelKey);
      if column !in record then Failure(KeyError(column))
      else FetchRow(db, model, attr, SanitizeInput(record[column]))
  }

  /**
    `get_value`: a constant is returned as is, a foreign-key dict fetches a row (or `None` when none
    matches), and a column name gives the sanitized cell, or `None` when the record lacks the column.
   */
  function GetValue(record: Record, field: FieldSource, db: Db): (r: Result<Value, Error>)
    ensures field.Constant? ==> r == Success(field.value)
    ensures field.Column? ==> r.Success? && Sanitized(r.value)
    ensures field.Column? && field.name !in record ==> r == Success(Null)
    ensures field.Column? && field.name in record ==> r == Success(SanitizeInput(record[field.name]))
    ensures field.ForeignKey? ==> r == ForeignKeyValue(record, field.lookups, db)
    ensures field.ForeignKey? && r.Success? ==> r.value == Null || (r.value.Row? && r.value.model in db.models)
  {
    match field
    case Constant(v) => Success(v)
    case ForeignKey(lookups) => ForeignKeyValue(record, lookups, db)
    case Column(name) => if name in record then Success(SanitizeInput(record[name])) else Success(Null)
  }

  // ----- Field maps -----

  /** A field map as written by a caller: model field to source, `None` meaning "the column of the same name". */
  type FieldMap = seq<(string, Option<FieldSource>)>

  /** A field map with every entry resolved to a source. */
  type ResolvedMap = seq<(string, FieldSource)>

  function MapKeys<V>(m: seq<(string, V)>): seq<string> {
    seq(|m|, i requires 0 <= i < |m| => m[i].0)
  }

  /**
    The normalisation loop of `generic_csv_import`: every `None` entry becomes its own key as column
    name; every other entry and every key stays as it was. The source rewrites the caller's own
    dictionary in place, so the result is also what the caller's map holds after the call.
   */
  function Normalize(fm: FieldMap): (r: ResolvedMap)
    ensures MapKeys(r) == MapKeys(fm)
    ensures forall i :: 0 <= i < |fm| ==> fm[i].1 == Some(r[i].1) || (fm[i].1 == None && r[i].1 == Column(fm[i].0))
  {
    seq(|fm|, i requires 0 <= i < |fm| => (fm[i].0, if fm[i].1.None? then Column(fm[i].0) else fm[i].1.value))
  }

  /** `{key: key for key in record.keys()}`: every header column stored under its own name. */
  function IdentityFieldMap(header: seq<string>): (r: ResolvedMap)
    ensures MapKeys(r) == header
    ensures forall i :: 0 <= i < |r| ==> r[i].1 == Column(r[i].0)
  {
    seq(|header|, i requires 0 <= i < |header| => (header[i], Column(header[i])))
  }

  /** A resolved map read back as a caller's field map. */
  function Lift(m: ResolvedMap): (r: FieldMap)
    ensures MapKeys(r) == MapKeys(m)
    ensures forall i :: 0 <= i < |r| ==> r[i].1.Some?
  {
    seq(|m|, i requires 0 <= i < |m| => (m[i].0, Some(m[i].1)))
  }

  /** A field map of all `None`s over the header. */
  function AllNone(header: seq<string>): (r: FieldMap)
    ensures MapKeys(r) == header
    ensures forall i :: 0 <= i < |r| ==> r[i].1 == None
  {
    seq(|header|, i requires 0 <= i < |header| => (header[i], None))
  }

  /** Normalising an already resolved map changes nothing, so normalising is idempotent. */
  lemma NormalizeResolved(m: ResolvedMap)
    ensures Normalize(Lift(m)) == m
  {
    var r := Normalize(Lift(m));
    assert |r| == |MapKeys(r)| == |MapKeys(m)| == |m|;
    forall i | 0 <= i < |m|
      ensures r[i] == m[i]
    {
      assert MapKeys(r)[i] == MapKeys(m)[i];
    }
  }

  /** Leaving the field map out is the same as giving `None` for every header column. */
  lemma IdentityIsAllNone(header: seq<string>)
    ensures Normalize(AllNone(header)) == IdentityFieldMap(header)
  {
    var r := Normalize(AllNone(header));
    assert |r| == |MapKeys(r)| == |header|;
    forall i | 0 <= i < |header|
      ensures r[i] == IdentityFieldMap(header)[i]
    {
      assert MapKeys(r)[i] == header[i];
    }
  }

  /** The field map the import loop uses: the normalised one given, or the identity map over the header. */
  function ResolveFieldMap(fieldMap: Option<FieldMap>, header: seq<string>): (r: ResolvedMap)
    ensures fieldMap.Some? ==> MapKeys(r) == MapKeys(fieldMap.value)
    ensures fieldMap.None? ==> MapKeys(r) == header
  {
    match fieldMap
    case None => IdentityFieldMap(header)
    case Some(fm) => Normalize(fm)
  }

  // ----- The values of one record -----

  /**
    `{model_key: get_value(record, field_map[model_key]) for model_key in field_map}`: the values
    dictionary has exactly the keys of the field map, in order, each with the value its source
    resolves to; the first source that raises makes the whole record raise.
   */
  lemma MapKeysCons<V>(x: (string, V), m: seq<(string, V)>)
    ensures MapKeys([x] + m) == [x.0] + MapKeys(m)
  {
  }

  function RecordValues(record: Record, fm: ResolvedMap, db: Db): (r: Result<seq<(string, Value)>, Error>)
    ensures r.Success? <==> forall i :: 0 <= i < |fm| ==> GetValue(record, fm[i].1, db).Success?
    ensures r.Success? ==> MapKeys(r.value) == MapKeys(fm)
    ensures r.Success? ==> forall i :: 0 <= i < |fm| ==> GetValue(record, fm[i].1, db) == Success(r.value[i].1)
    ensures r.Failure? ==> exists i :: 0 <= i < |fm| && GetValue(record, fm[i].1, db) == Failure(r.error)
    ensures r.Failure? ==> exists i :: FirstFailing(fm, (e: (string, FieldSource)) => GetValue(record, e.1, db).Success?, i)
                                       && r.error == GetValue(record, fm[i].1, db).error
  {
    if fm == [] then Success([])
    else
      var v :- GetValue(record, fm[0].1, db);
      FirstFailingShift(fm, (e: (string, FieldSource)) => GetValue(record, e.1, db).Success?);
      var rest :- RecordValues(record, fm[1..], db);
      assert forall i :: 1 <= i < |fm| ==> fm[i] == fm[1..][i - 1];
      var r := [(fm[0].0, v)] + rest;
      MapKeysCons((fm[0].0, v), rest);
      MapKeysCons(fm[0], fm[1..]);
      assert [fm[0]] + fm[1..] == fm;
      Success(r)
  }

  /** Without a field map, each record's values are its own sanitized cells under their column names. */
  lemma IdentityCopiesRecord(record: Record, header: seq<string>, db: Db)
    ensures RecordValues(record, IdentityFieldMap(header), db).Success?
    ensures forall i :: 0 <= i < |header| ==>
              RecordValues(record, IdentityFieldMap(header), db).value[i] ==
                (header[i], if header[i] in record then SanitizeInput(record[header[i]]) else Null)
  {
    var fm := IdentityFieldMap(header);
    var r := RecordValues(record, fm, db);
    forall i | 0 <= i < |header|
      ensures r.value[i] == (header[i], if header[i] in record then SanitizeInput(record[header[i]]) else Null)
    {
      assert MapKeys(fm)[i] == header[i];
      assert MapKeys(r.value)[i] == MapKeys(fm)[i];
    }
  }

  /**
    The import loop of `generic_csv_import` up to `get_or_create`: the values dictionary of every
    record in order, or the first error a record raises.
   */
  function ImportValues(fieldMap: Option<FieldMap>, header: seq<string>, records: seq<Record>, db: Db)
    : (r: Result<seq<seq<(string, Value)>>, Error>)
    ensures r.Success? ==> |r.value| == |records|
    ensures r.Success? ==> forall j :: 0 <= j < |records| ==>
              RecordValues(records[j], ResolveFieldMap(fieldMap, header), db) == Success(r.value[j])
    ensures r.Failure? ==>
              exists j :: 0 <= j < |records| && RecordValues(records[j], ResolveFieldMap(fieldMap, header), db) == Failure(r.error)
    ensures r.Failure? ==>
              exists j :: FirstFailing(records, (rec: Record) => RecordValues(rec, ResolveFieldMap(fieldMap, header), db).Success?, j)
                          && r.error == RecordValues(records[j], ResolveFieldMap(fieldMap, header), db).error
  {
    if records == [] then Success([])
    else
      var first :- RecordValues(records[0], ResolveFieldMap(fieldMap, header), db);
      FirstFailingShift(records, (rec: Record) => RecordValues(rec, ResolveFieldMap(fieldMap, header), db).Success?);
      var rest :- ImportValues(fieldMap, header, records[1..], db);
      assert forall j :: 1 <= j < |records| ==> records[j] == records[1..][j - 1];
      Success([first] + rest)
  }
}
