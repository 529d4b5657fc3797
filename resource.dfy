/** The resource adapter: one Sequelize model seen through the host
    framework's resource interface. Modelled here are its identity, its
    property list, the translation of a filter object into Sequelize `where`
    predicates, the option record handed to `findAll`, the mapping of a
    Sequelize validation failure onto the host's validation error, and the
    decision in `create`/`update` of which errors are translated. */
module ResourceAdapter {
  import opened JsValues
  import PropertyAdapter

  /** A Sequelize model: its table name and its attribute descriptors, with
      the order in which `Object.keys` lists them. */
  datatype SequelizeModel = SequelizeModel(
    tableName: string,
    attributeKeys: seq<string>,
    attributes: map<string, PropertyAdapter.Column>)

  /** `Object.keys(attributes)` lists every attribute exactly once, and each
      descriptor carries its own attribute name as `fieldName` (Sequelize sets
      it when the model is initialised). */
  predicate WellFormed(m: SequelizeModel) {
    && (forall i, j :: 0 <= i < j < |m.attributeKeys| ==> m.attributeKeys[i] != m.attributeKeys[j])
    && (forall k :: k in m.attributeKeys ==> k in m.attributes)
    && (forall k :: k in m.attributes ==> k in m.attributeKeys)
    && (forall k :: k in m.attributes ==> m.attributes[k].fieldName == k)
  }

  /** A sequence without repetitions has as many distinct elements as entries. */
  lemma {:induction false} DistinctCount(keys: seq<string>)
    requires forall i, j :: 0 <= i < j < |keys| ==> keys[i] != keys[j]
    ensures |set k | k in keys| == |keys|
  {
    if keys != [] {
      var rest := keys[1..];
      assert forall i, j :: 0 <= i < j < |rest| ==> rest[i] == keys[i + 1] && rest[j] == keys[j + 1];
      DistinctCount(rest);
      assert keys[0] !in rest by {
        assert forall j :: 0 <= j < |rest| ==> rest[j] == keys[j + 1];
      }
      assert keys == [keys[0]] + rest;
      assert (set k | k in keys) == (set k | k in rest) + {keys[0]};
    }
  }

  // ---------------------------------------------------------------------
  // Identity and properties

  /** `name()`: the table name. */
  function Name(m: SequelizeModel): string {
    m.tableName
  }

  /** `id()`: the table name lower-cased, character by character; it holds no
      upper-case letter and is the name itself when the name has none. */
  function Id(m: SequelizeModel): (r: string)
    ensures |r| == |Name(m)|
    ensures forall i :: 0 <= i < |r| ==> r[i] == LowerChar(Name(m)[i])
    ensures forall i :: 0 <= i < |r| ==> !IsUpper(r[i])
    ensures (forall i :: 0 <= i < |Name(m)| ==> !IsUpper(Name(m)[i])) ==> r == Name(m)
  {
    var r := ToLowerCase(Name(m));
    assert forall i :: 0 <= i < |r| ==> !IsUpper(r[i]) by { LowerCaseIdempotent(Name(m)); }
    r
  }

  /** Two models whose table names differ only in letter case share one id. */
  lemma IdIgnoresCase(m1: SequelizeModel, m2: SequelizeModel)
    requires |Name(m1)| == |Name(m2)|
    requires forall i :: 0 <= i < |Name(m1)| ==> LowerChar(Name(m1)[i]) == LowerChar(Name(m2)[i])
    ensures Id(m1) == Id(m2)
  {
    LowerCaseIgnoresCase(Name(m1), Name(m2));
  }

  /** `property(path)`: the property over the attribute named `path`. An unknown
      path makes the Property constructor read `fieldName` of undefined. */
  function Property(m: SequelizeModel, path: string): (p: PropertyAdapter.Column)
    requires WellFormed(m) && path in m.attributes
    ensures p == m.attributes[path] && PropertyAdapter.Name(p) == path
  {
    m.attributes[path]
  }

  /** `properties()`: one property per attribute, in key order. */
  function Properties(m: SequelizeModel): (ps: seq<PropertyAdapter.Column>)
    requires WellFormed(m)
    ensures |ps| == |m.attributeKeys| == |m.attributes|
    ensures forall i :: 0 <= i < |ps| ==> ps[i] == Property(m, m.attributeKeys[i])
  {
    DistinctCount(m.attributeKeys);
    assert (set k | k in m.attributeKeys) == m.attributes.Keys;
    seq(|m.attributeKeys|, i requires 0 <= i < |m.attributeKeys| => m.attributes[m.attributeKeys[i]])
  }

  /** Every attribute of the model shows up among the properties exactly once,
      at the position of its key. */
  lemma PropertiesCoverAttributes(m: SequelizeModel, path: string)
    requires WellFormed(m) && path in m.attributes
    ensures exists i :: 0 <= i < |Properties(m)| && m.attributeKeys[i] == path &&
                        Properties(m)[i] == Property(m, path)
    ensures forall j :: 0 <= j < |Properties(m)| && PropertyAdapter.Name(Properties(m)[j]) == path ==>
                        m.attributeKeys[j] == path
  {
    var i :| 0 <= i < |m.attributeKeys| && m.attributeKeys[i] == path;
    assert Properties(m)[i] == Property(m, path);
  }

  // ---------------------------------------------------------------------
  // Filters

  /** The Sequelize operator symbols the adapter uses as predicate keys. */
  datatype Operator = Gte | Lte | IRegexp

  /** The `where` predicate for one field: an object keyed by operator symbols. */
  type Condition = map<Operator, Value>

  /** `getDateFilter(filter)`: a range with `gte: from` exactly when `from` is
      truthy and `lte: to` exactly when `to` is truthy. */
  function GetDateFilter(filter: Value): (r: Condition)
    requires Readable(filter)
    ensures Gte in r <==> Truthy(Get(filter, "from"))
    ensures Gte in r ==> r[Gte] == Get(filter, "from")
    ensures Lte in r <==> Truthy(Get(filter, "to"))
    ensures Lte in r ==> r[Lte] == Get(filter, "to")
    ensures IRegexp !in r
  {
    var from, to := Get(filter, "from"), Get(filter, "to");
    (if Truthy(from) then map[Gte := from] else map[]) +
    (if Truthy(to) then map[Lte := to] else map[])
  }

  /** `getDefaultFilter(filter)`: a single case-insensitive pattern match. */
  function GetDefaultFilter(filter: Value): (r: Condition)
    ensures r.Keys == {IRegexp}
    ensures r[IRegexp] == filter
  {
    map[IRegexp := filter]
  }

  /** The test `currentFilter.from || currentFilter.to`. */
  predicate IsDateFilter(filter: Value)
    requires Readable(filter)
  {
    Truthy(Get(filter, "from")) || Truthy(Get(filter, "to"))
  }

  /** The predicate one field's filter value becomes. */
  function ConvertFilter(filter: Value): Condition
    requires Readable(filter)
  {
    if IsDateFilter(filter) then GetDateFilter(filter) else GetDefaultFilter(filter)
  }

  /** What `convertedFilters` accepts: a falsy value, or an object none of whose
      field values is null or undefined (reading `.from` of those throws). */
  predicate FilterArgument(filters: Value) {
    !Truthy(filters) ||
    (KeysMatch(filters) && forall k :: k in filters.fields ==> Readable(filters.fields[k]))
  }

  /** The translated filter map, field by field. */
  function Converted(filters: Value): map<string, Condition>
    requires FilterArgument(filters)
  {
    if !Truthy(filters) then map[]
    else map k | k in filters.fields :: ConvertFilter(filters.fields[k])
  }

  /** `convertedFilters(filters)`: fills a fresh object key by key. */
  method ConvertedFilters(filters: Value) returns (r: map<string, Condition>)
    requires FilterArgument(filters)
    ensures r == Converted(filters)
  {
    if !Truthy(filters) {
      return map[];
    }
    r := map[];
    var keys := filters.keys;
    var i := 0;
    while i < |keys|
      invariant 0 <= i <= |keys|
      invariant forall k :: k in r <==> k in keys[..i]
      invariant forall k :: k in r ==> r[k] == ConvertFilter(filters.fields[k])
    {
      var key := keys[i];
      r := r[key := ConvertFilter(filters.fields[key])];
      i := i + 1;
    }
    assert keys[..i] == keys;
  }

  /** An absent filter translates to no predicate at all. */
  lemma AbsentFilterIsEmpty(filters: Value)
    requires !Truthy(filters)
    ensures Converted(filters) == map[]
  {
  }

  /** The translation keeps exactly the filtered fields, and each field's
      predicate depends on that field's filter value alone. */
  lemma ConvertedKeysAndValues(filters: Value, key: string)
    requires FilterArgument(filters) && Truthy(filters)
    ensures Converted(filters).Keys == filters.fields.Keys
    ensures key in filters.fields ==> Converted(filters)[key] == ConvertFilter(filters.fields[key])
  {
  }

  /** A field becomes either a range, with `gte`/`lte` present exactly when
      `from`/`to` are truthy and carrying them unchanged, or a single
      case-insensitive pattern carrying the filter value unchanged. */
  lemma RangeOrPattern(filter: Value)
    requires Readable(filter)
    ensures IsDateFilter(filter) ==>
              && IRegexp !in ConvertFilter(filter)
              && (Gte in ConvertFilter(filter) <==> Truthy(Get(filter, "from")))
              && (Lte in ConvertFilter(filter) <==> Truthy(Get(filter, "to")))
              && (Gte in ConvertFilter(filter) ==> ConvertFilter(filter)[Gte] == Get(filter, "from"))
              && (Lte in ConvertFilter(filter) ==> ConvertFilter(filter)[Lte] == Get(filter, "to"))
    ensures !IsDateFilter(filter) ==> ConvertFilter(filter) == map[IRegexp := filter]
    ensures ConvertFilter(filter) != map[]
  {
  }

  /** A plain string filter such as `{name: "ali"}` becomes a pattern match on
      "ali"; a range `{created_at: {from: "2023-01-01"}}` becomes `gte` alone. */
  lemma FilterExamples()
    ensures Converted(Obj(["name"], map["name" := Str("ali")])) ==
            map["name" := map[IRegexp := Str("ali")]]
    ensures var range := Obj(["from"], map["from" := Str("2023-01-01")]);
            Converted(Obj(["created_at"], map["created_at" := range])) ==
            map["created_at" := map[Gte := Str("2023-01-01")]]
  {
    var plain := Obj(["name"], map["name" := Str("ali")]);
    assert KeysMatch(plain);
    var range := Obj(["from"], map["from" := Str("2023-01-01")]);
    var dated := Obj(["created_at"], map["created_at" := range]);
    assert KeysMatch(dated);
    assert ConvertFilter(range) == map[Gte := Str("2023-01-01")];
  }

  // ---------------------------------------------------------------------
  // find

  /** The `sort` option of `find`: the direction must be a string, since
      `find` calls `toUpperCase` on it. */
  datatype Sort = Sort(sortBy: Value, direction: string)

  /** The option record `find` hands to `findAll`. */
  datatype FindOptions = FindOptions(
    where: map<string, Condition>,
    limit: Value,
    offset: Value,
    order: seq<(Value, string)>)

  /** An argument left undefined takes its default. */
  function WithDefault(v: Value, default: Value): (r: Value)
    ensures v != Undefined ==> r == v
    ensures v == Undefined ==> r == default
  {
    if v.Undefined? then default else v
  }

  /** The query options of `find(filters, {limit, offset, sort})`. */
  method FindQuery(filters: Value, limit: Value, offset: Value, sort: Sort) returns (q: FindOptions)
    requires FilterArgument(filters)
    ensures q.where == Converted(filters)
    ensures q.limit == (if limit == Undefined then Num(20.0) else limit)
    ensures q.offset == (if offset == Undefined then Num(0.0) else offset)
    ensures q.order == [(sort.sortBy, ToUpperCase(sort.direction))]
  {
    var f := WithDefault(filters, Obj([], map[]));
    assert KeysMatch(Obj([], map[]));
    var where := ConvertedFilters(f);
    q := FindOptions(where, WithDefault(limit, Num(20.0)), WithDefault(offset, Num(0.0)),
                     [(sort.sortBy, ToUpperCase(sort.direction))]);
  }

  /** The direction reaches Sequelize upper-cased, so "asc" and "ASC" agree. */
  lemma DirectionUpperCased()
    ensures ToUpperCase("asc") == "ASC" && ToUpperCase("desc") == "DESC"
    ensures ToUpperCase("ASC") == "ASC"
  {
  }

  // ---------------------------------------------------------------------
  // Validation errors

  /** One entry of a Sequelize error's `errors` list (a ValidationErrorItem). */
  datatype ErrorItem = ErrorItem(path: string, message: string, validatorKey: string)

  /** An error thrown by a Sequelize call (or by the code around it). */
  datatype NativeError = NativeError(name: string, errors: seq<ErrorItem>)

  /** The host's per-field error record. */
  datatype PropertyError = PropertyError(message: string, kind: string)

  /** The host's validation error: a message and the per-field errors. */
  datatype ValidationError = ValidationError(message: string, propertyErrors: map<string, PropertyError>)

  const SequelizeValidationErrorName := "SequelizeValidationError"

  function Entry(item: ErrorItem): PropertyError {
    PropertyError(item.message, item.validatorKey)
  }

  /** The per-field map the `reduce` builds: the items written in order. */
  function ErrorsByPath(items: seq<ErrorItem>): map<string, PropertyError> {
    if items == [] then map[]
    else ErrorsByPath(items[..|items| - 1])[items[|items| - 1].path := Entry(items[|items| - 1])]
  }

  /** The keys of the error map are exactly the paths of the items. */
  lemma {:induction false} ErrorKeysArePaths(items: seq<ErrorItem>)
    ensures forall p :: p in ErrorsByPath(items) <==> exists i :: 0 <= i < |items| && items[i].path == p
  {
    if items != [] {
      var front := items[..|items| - 1];
      ErrorKeysArePaths(front);
      forall p ensures p in ErrorsByPath(items) <==> exists i :: 0 <= i < |items| && items[i].path == p {
        if p in ErrorsByPath(front) {
          var i :| 0 <= i < |front| && front[i].path == p;
          assert items[i].path == p;
        }
        if exists i :: 0 <= i < |items| && items[i].path == p {
          var i :| 0 <= i < |items| && items[i].path == p;
          if i < |front| { assert front[i].path == p; }
        }
      }
    }
  }

  /** For each path, the entry is that of the last item with that path. */
  lemma {:induction false} LastItemWins(items: seq<ErrorItem>, i: nat)
    requires i < |items|
    requires forall j :: i < j < |items| ==> items[j].path != items[i].path
    ensures items[i].path in ErrorsByPath(items)
    ensures ErrorsByPath(items)[items[i].path] == Entry(items[i])
  {
    if i < |items| - 1 {
      var front := items[..|items| - 1];
      assert front[i] == items[i];
      LastItemWins(front, i);
    }
  }

  /** The validation error that `createValidationError` builds. */
  function ValidationErrorOf(m: SequelizeModel, e: NativeError): ValidationError {
    ValidationError(Name(m) + " validation failed", ErrorsByPath(e.errors))
  }

  /** `createValidationError(originalError)`: folds the items into a map with a
      `reduce` that writes `memo[path]` for each item in order. */
  method CreateValidationError(m: SequelizeModel, e: NativeError) returns (v: ValidationError)
    ensures v == ValidationErrorOf(m, e)
  {
    var memo := map[];
    var i := 0;
    while i < |e.errors|
      invariant 0 <= i <= |e.errors|
      invariant memo == ErrorsByPath(e.errors[..i])
    {
      var item := e.errors[i];
      assert e.errors[..i + 1][..i] == e.errors[..i];
      memo := memo[item.path := PropertyError(item.message, item.validatorKey)];
      i := i + 1;
    }
    assert e.errors[..i] == e.errors;
    v := ValidationError(Name(m) + " validation failed", memo);
  }

  /** Duplicate paths: a later item overwrites an earlier one. */
  lemma DuplicatePathExample()
    ensures var items := [ErrorItem("email", "is taken", "not_unique"),
                          ErrorItem("email", "is invalid", "isEmail")];
            ErrorsByPath(items) == map["email" := PropertyError("is invalid", "isEmail")]
  {
  }

  // ---------------------------------------------------------------------
  // create / update

  /** What leaves the `catch` block: the host's validation error, or the
      original error unchanged. */
  datatype Thrown = Translated(validation: ValidationError) | Rethrown(native: NativeError)

  /** The `catch` block of `create` and `update`. */
  method HandleWriteError(m: SequelizeModel, e: NativeError) returns (t: Thrown)
    ensures e.name == SequelizeValidationErrorName ==> t == Translated(ValidationErrorOf(m, e))
    ensures e.name != SequelizeValidationErrorName ==> t == Rethrown(e)
  {
    if e.name == SequelizeValidationErrorName {
      var v := CreateValidationError(m, e);
      t := Translated(v);
    } else {
      t := Rethrown(e);
    }
  }

  /** The outcome of a call into Sequelize, which the model takes as given. */
  datatype StoreCall<T> = Returned(value: T) | Threw(error: NativeError)

  /** The outcome of `create`/`update`: the row's JSON, or what they throw. */
  datatype WriteResult = Written(row: Value) | Raised(thrown: Thrown)

  /** The TypeError raised by `record.toJSON()` when `findByPk` found no row. */
  const NoRowError := NativeError("TypeError", [])

  /** `create(params)`, given what `SequelizeModel.create` did. */
  method Create(m: SequelizeModel, created: StoreCall<Value>) returns (r: WriteResult)
    ensures created.Returned? ==> r == Written(created.value)
    ensures created.Threw? && created.error.name == SequelizeValidationErrorName ==>
              r == Raised(Translated(ValidationErrorOf(m, created.error)))
    ensures created.Threw? && created.error.name != SequelizeValidationErrorName ==>
              r == Raised(Rethrown(created.error))
  {
    match created {
      case Returned(row) =>
        r := Written(row);
      case Threw(e) =>
        var t := HandleWriteError(m, e);
        r := Raised(t);
    }
  }

  /** `update(id, params)`, given what `SequelizeModel.update` and the re-read
      by `findByPk` did; the re-read only happens after a successful update,
      and a missing row fails inside the `try` and is rethrown. */
  method Update(m: SequelizeModel, updated: StoreCall<()>, reread: StoreCall<Option<Value>>)
    returns (r: WriteResult)
    ensures updated.Returned? && reread.Returned? && reread.value.Some? ==>
              r == Written(reread.value.value)
    ensures updated.Returned? && reread == Returned(None) ==> r == Raised(Rethrown(NoRowError))
    ensures forall e :: (updated == Threw(e) || (updated.Returned? && reread == Threw(e))) ==>
              r == Raised(if e.name == SequelizeValidationErrorName
                          then Translated(ValidationErrorOf(m, e))
                          else Rethrown(e))
  {
    var failure: NativeError;
    match updated {
      case Threw(e) =>
        failure := e;
      case Returned(_) =>
        match reread {
          case Returned(Some(row)) =>
            return Written(row);
          case Returned(None) =>
            failure := NoRowError;
          case Threw(e) =>
            failure := e;
        }
    }
    var t := HandleWriteError(m, failure);
    r := Raised(t);
  }

  /** The host's validation error carries "<table> validation failed" and one
      entry per distinct item path. */
  lemma ValidationErrorShape(m: SequelizeModel, e: NativeError)
    ensures ValidationErrorOf(m, e).message == m.tableName + " validation failed"
    ensures forall p :: p in ValidationErrorOf(m, e).propertyErrors <==>
                        exists i :: 0 <= i < |e.errors| && e.errors[i].path == p
  {
    ErrorKeysArePaths(e.errors);
  }
}
