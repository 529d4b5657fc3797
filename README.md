# Sequelize adapter for AdminBro, modelled in Dafny

This project models the translation core of the Sequelize adapter for the
AdminBro administration framework. It has two parts.

- The **property adapter** (`src/property.js`) wraps one Sequelize attribute
  descriptor. It answers the framework's metadata questions about that column:
  editable, visible, id, reference, enumerated values, array, semantic type,
  sortable, required. The semantic type comes from the closed `TYPES_MAPPING`
  table, which maps a Sequelize data-type class name to a property type.
- The **resource adapter** (`src/resource.js`) wraps one Sequelize model. It
  gives the model's name and id and its list of properties. It translates a
  filter object into Sequelize `where` predicates: a `gte`/`lte` range, or a
  case-insensitive `iRegexp` match. It builds the option record that `find`
  hands to `findAll`. It maps a `SequelizeValidationError` onto the
  framework's validation error, and in `create`/`update` it decides which
  errors are translated and which are rethrown.

Files:

- `js_values.dfy` (module `JsValues`): JavaScript values, truthiness, property
  reads, ASCII case mapping, and the substring test that `String.prototype.match`
  performs for a pattern without metacharacters.
- `property.dfy` (module `PropertyAdapter`): the native type tags (one
  constructor per class named in `TYPES_MAPPING`, `ARRAY(elementType)`, and
  `Unlisted(typeName)` for every other class), the table, and each `Property`
  method as a function over a `Column` value.
- `resource.dfy` (module `ResourceAdapter`): the model record, the filter
  translation, the `find` options, the validation-error fold, and the
  `create`/`update` error branch.

`name()` in both files is the plain field read `Name`. `isEditable()` and
`isSortable()` are the predicates `IsEditable` and `IsSortable`; the lemmas
listed below state their properties. `convertedFilters` and
`createValidationError` fill an object in a loop in the source, so they are
methods with loop invariants. Each is proved equal to a specification
function (`Converted`, `ErrorsByPath`), and the lemmas state what those
functions promise.

The Sequelize calls (`findAll`, `create`, `update`, `findByPk`) are not
modelled. `Create` and `Update` take the outcome of those calls as a
parameter (`StoreCall`) and model only what the adapter does with it.

Three behaviours of the source differ from what a caller might expect, and
the model keeps them as written:

- `property(path)` with an unknown path throws a TypeError in the Property
  constructor (src/property.js:32), which reads `fieldName` of `undefined`.
  No "unknown field" error is raised. `ResourceAdapter.Property` therefore
  requires the path to exist.
- In `update`, a row that `findByPk` no longer finds is not reported as "not
  found" (src/resource.js:113-114). `record.toJSON()` throws a TypeError
  inside the `try`, and the `catch` rethrows it unchanged. `Update` models that
  outcome as `Raised(Rethrown(NoRowError))`.
- A field counts as a date range when its filter value has a truthy `from` or
  `to` (src/resource.js:72). The test looks at the shape of the value, not at
  the column's declared type, and the model keeps it (`IsDateFilter`).

A model value is `WellFormed` when its key list is what `Object.keys` returns
for the attribute map (every attribute exactly once) and each descriptor's
`fieldName` is its own attribute name, as Sequelize sets it when the model is
initialised.

## Model

| member | source | states |
|---|---|---|
| `JsValues.Contains` | src/property.js:46 | `match('password')` is true exactly when some window of the string spells the pattern |
| `JsValues.ToLowerCase` | src/resource.js:36 | lower-casing keeps the length and lowers each ASCII letter |
| `JsValues.ToUpperCase` | src/resource.js:87 | upper-casing keeps the length and raises each ASCII letter |
| `JsValues.LowerCaseIgnoresCase` | src/resource.js:36 | strings that differ only in the case of their ASCII letters lower-case alike |
| `JsValues.LowerCaseIdempotent` | src/resource.js:36 | lower-casing twice is lower-casing once, and the result holds no upper-case letter |
| `PropertyAdapter.Find` | src/property.js:77-79 | `Array.find` on the table: `None` exactly when no entry has the key, otherwise the value of the first entry that has it |
| `PropertyAdapter.FindFirst` | src/property.js:77-79 | the entry found is the one at the first position holding the key |
| `PropertyAdapter.MappingKeysDistinct` | src/property.js:5-28 | no class name appears twice in `TYPES_MAPPING` |
| `PropertyAdapter.TableAgrees` | src/property.js:5-28 | looking a native type up by class name gives exactly its case-by-case semantic type (`SemanticType`); an unlisted class finds nothing |
| `PropertyAdapter.IsVisible` | src/property.js:44-47 | a property is hidden exactly when its name contains "password" (case-sensitive) |
| `PropertyAdapter.IsId` | src/property.js:49-51 | a property is the id exactly when its primary-key flag is truthy |
| `PropertyAdapter.IsArray` | src/property.js:63-65 | comparing the class name with "ARRAY" is true exactly for an `ARRAY` column, because no other class carries that name |
| `PropertyAdapter.Reference` | src/property.js:53-55 | a reference is present exactly for a non-array column with a truthy `references.model`, and it is that model; array columns never have one |
| `PropertyAdapter.AvailableValues` | src/property.js:57-61 | the `values` list, unchanged, when it is present and non-empty; absent otherwise |
| `PropertyAdapter.ResolvedType` | src/property.js:71-75 | the type looked up is the element type for an array column and the column's own type otherwise |
| `PropertyAdapter.Type` | src/property.js:70-87 | never "mixed"; "reference" when a reference is present; otherwise the case-by-case semantic type of the (element) type, "string" for an unlisted class |
| `PropertyAdapter.IsRequired` | src/property.js:93-96 | required exactly when `allowNull` is declared and is not `true` |
| `PropertyAdapter.ReferenceOverridesType` | src/property.js:81-83 | a reference column has type "reference" whatever its native type, and is not an array |
| `PropertyAdapter.TypeFromTable` | src/property.js:77-86 | a non-reference column takes the table entry of its (element) class, or "string" when there is none; the result is one of the eight non-reference types |
| `PropertyAdapter.ArrayUsesElementType` | src/property.js:53-75 | an `ARRAY` column is an array, has no reference even with `references.model` set, and takes its element type's semantic type |
| `PropertyAdapter.SortableIffNotArray` | src/property.js:89-91 | since the type is never "mixed", a property is sortable exactly when it is not an array |
| `PropertyAdapter.EditableUnlessGenerated` | src/property.js:40-42 | a property is read-only exactly when `_autoGenerated` or `autoIncrement` is truthy |
| `PropertyAdapter.RequiredOnlyWhenDeclared` | src/property.js:93-96 | an undeclared or `true` `allowNull` leaves the column optional; `false` and `null` make it required |
| `PropertyAdapter.VisibilityExamples` | src/property.js:44-47 | "password_hash" is hidden; "username" and "Password" are shown |
| `PropertyAdapter.EditableExamples` | src/property.js:40-42 | an auto-incrementing primary key is read-only; an ordinary column is editable |
| `ResourceAdapter.Id` | src/resource.js:35-37 | each character of the id is the lower-case of the table name's character at that position; so the id has no upper-case letter and equals the name when the name has none |
| `ResourceAdapter.IdIgnoresCase` | src/resource.js:35-37 | two tables whose names differ only in letter case share one id |
| `ResourceAdapter.Property` | src/resource.js:46-48 | `property(path)` wraps the descriptor stored under `path`, whose name is `path` |
| `ResourceAdapter.Properties` | src/resource.js:40-44 | one property per attribute (as many as the model has), in key order, each the same as `property(key)` |
| `ResourceAdapter.PropertiesCoverAttributes` | src/resource.js:40-44 | every attribute of the model appears among the properties, at its key's position and nowhere else |
| `ResourceAdapter.GetDateFilter` | src/resource.js:54-60 | the range has `gte: from` exactly when `from` is truthy and `lte: to` exactly when `to` is truthy, with the values passed through; it has no pattern |
| `ResourceAdapter.GetDefaultFilter` | src/resource.js:62-66 | a single `iRegexp` predicate carrying the filter value unchanged |
| `ResourceAdapter.ConvertedFilters` | src/resource.js:68-78 | the loop over `Object.keys(filters)` builds exactly the field-by-field translation |
| `ResourceAdapter.AbsentFilterIsEmpty` | src/resource.js:69 | a falsy filter argument translates to the empty predicate map |
| `ResourceAdapter.ConvertedKeysAndValues` | src/resource.js:70-77 | the translation has exactly the filter's keys, and each key's predicate depends only on that key's filter value |
| `ResourceAdapter.RangeOrPattern` | src/resource.js:72-74 | a field with a truthy `from` or `to` becomes a range with exactly those bounds; any other field becomes one `iRegexp` on the original value; never an empty predicate |
| `ResourceAdapter.FilterExamples` | src/resource.js:54-78 | `{name: "ali"}` becomes an `iRegexp` on "ali"; `{created_at: {from: "2023-01-01"}}` becomes `gte` alone |
| `ResourceAdapter.WithDefault` | src/resource.js:80 | a default parameter replaces `undefined` only; `null` and every other value pass through |
| `ResourceAdapter.FindQuery` | src/resource.js:80-88 | `where` is the translated filter (empty when the filter is omitted), `limit` defaults to 20 and `offset` to 0, and `order` is the single pair (sortBy, upper-cased direction) |
| `ResourceAdapter.DirectionUpperCased` | src/resource.js:87 | "asc" and "desc" reach Sequelize as "ASC" and "DESC" |
| `ResourceAdapter.ErrorKeysArePaths` | src/resource.js:128-133 | the error map's keys are exactly the paths of the sub-errors |
| `ResourceAdapter.LastItemWins` | src/resource.js:129-133 | for a path, the entry is `{message, kind: validatorKey}` of the last sub-error with that path |
| `ResourceAdapter.CreateValidationError` | src/resource.js:128-135 | the `reduce` builds exactly the in-order fold of the sub-errors, and the message is the table name followed by " validation failed" |
| `ResourceAdapter.DuplicatePathExample` | src/resource.js:129-133 | of two sub-errors on "email", the second one is kept |
| `ResourceAdapter.ValidationErrorShape` | src/resource.js:128-135 | the translated error reads "<table> validation failed" and has one entry per distinct sub-error path |
| `ResourceAdapter.HandleWriteError` | src/resource.js:100-105 | an error named "SequelizeValidationError" is translated into the framework's validation error; every other error is rethrown unchanged |
| `ResourceAdapter.Create` | src/resource.js:97-107 | a created row is returned; a failure is translated or rethrown by the rule above |
| `ResourceAdapter.Update` | src/resource.js:109-122 | the re-read row is returned; a failure of the update or of the re-read, and the TypeError of a missing row, go through the same rule |

## Left out

- `isAdapterFor` is not modelled. It is a `prototype instanceof Sequelize.Model` reflection check.
- The constructors, `databaseName` and `databaseType` are not modelled. They read configuration from the live connection.
- `count`, `find` (beyond the options it builds), `findOne` and `delete` are not modelled. They are database I/O, and so is the wrapping of rows into `BaseRecord`. `toJSON()` belongs to Sequelize; rows are opaque values.
- The AdminBro base classes (`BaseResource`, `BaseProperty`, `BaseRecord`, `ValidationError`) are plain records here.
- The matching semantics of `Op.iRegexp` are not modelled; the operator is an opaque predicate key.
- JavaScript numbers are reals: NaN, which is falsy, is not represented, and neither are arrays as values.
- JsValues.ToLowerCase: lowers ASCII letters only; the Unicode case mapping of `toLowerCase` is not modelled.
- JsValues.ToUpperCase: raises ASCII letters only; the Unicode case mapping of `toUpperCase` is not modelled.
- PropertyAdapter.Reference: every falsy result of the `&&` chain (`false`, `undefined`, `""`, ...) becomes `None`; callers only test its truthiness.
- PropertyAdapter.IsId: returns the truthiness of `primaryKey`, not the raw flag value.
- ResourceAdapter.ConvertedFilters: a truthy filter argument that is not an object (a string, a number, `true`) is excluded. So is a field whose filter value is `null` or `undefined`, where the source throws when it reads `.from`.
- ResourceAdapter.FindQuery: the `sort` record must carry a string direction. The source throws on a missing `sort` or `direction` and has no error path for it.
- ResourceAdapter.Property: requires the path to exist; the source throws a TypeError for an unknown path.
