/** The property adapter: a read-only view over one Sequelize attribute
    descriptor that answers the host framework's metadata questions about
    the column (editability, visibility, identity, reference, enumerated
    values, array-ness, semantic type, sortability, requiredness). */
module PropertyAdapter {
  import opened JsValues

  /** The semantic property types of the host framework. `Mixed` belongs to
      that enumeration but is never produced by this adapter. */
  datatype PropertyType =
    | String | Number | Float | Datetime | Date | Array | Object | Boolean | Reference | Mixed

  /** Sequelize data-type class name to semantic type, searched front to back. */
  const TypesMapping: seq<(string, PropertyType)> := [
    ("STRING", String),
    ("TEXT", String),
    ("INTEGER", Number),
    ("BIGINT", Number),
    ("FLOAT", Float),
    ("REAL", Float),
    ("DOUBLE", Float),
    ("DECIMAL", Float),
    ("DATE", Datetime),
    ("DATEONLY", Date),
    ("ENUM", String),
    ("ARRAY", Array),
    ("JSON", Object),
    ("JSONB", Object),
    ("BLOB", String),
    ("UUID", String),
    ("CIDR", String),
    ("INET", String),
    ("MACADDR", String),
    ("RANGE", String),
    ("GEOMETRY", String),
    ("BOOLEAN", Boolean)
  ]

  /** Some entry of the table is keyed by `name`. */
  predicate Mapped(name: string) {
    exists i :: 0 <= i < |TypesMapping| && TypesMapping[i].0 == name
  }

  /** `Array.prototype.find` on the table: the value of the first entry whose
      key is `name`, if there is one. */
  function Find(table: seq<(string, PropertyType)>, name: string): (r: Option<PropertyType>)
    ensures r.None? <==> forall i :: 0 <= i < |table| ==> table[i].0 != name
    ensures r.Some? ==> exists i :: 0 <= i < |table| && table[i] == (name, r.value) &&
                                    forall j :: 0 <= j < i ==> table[j].0 != name
  {
    if table == [] then None
    else if table[0].0 == name then Some(table[0].1)
    else
      var rest := Find(table[1..], name);
      assert forall i :: 1 <= i < |table| ==> table[i] == table[1..][i - 1];
      rest
  }

  /** `find` returns the entry at the first position holding the key. */
  lemma FindFirst(table: seq<(string, PropertyType)>, name: string, k: nat)
    requires k < |table| && table[k].0 == name
    requires forall j :: 0 <= j < k ==> table[j].0 != name
    ensures Find(table, name) == Some(table[k].1)
  {
  }

  /** The class name of a Sequelize data type that the table does not list
      (CHAR, TINYINT, TIME, HSTORE, CITEXT, a user-defined type, ...). */
  type UnlistedName = s: string | !Mapped(s) witness "CITEXT"

  /** The native type of a column: one constructor per Sequelize data-type
      class named in the table, `ARRAY` with its element type, and any other
      data-type class by its class name. */
  datatype NativeType =
    | STRING | TEXT | INTEGER | BIGINT | FLOAT | REAL | DOUBLE | DECIMAL | DATE | DATEONLY
    | ENUM | ARRAY(elementType: NativeType) | JSON | JSONB | BLOB | UUID | CIDR | INET
    | MACADDR | RANGE | GEOMETRY | BOOLEAN
    | Unlisted(typeName: UnlistedName)

  /** `type.constructor.name`. */
  function ClassName(t: NativeType): string {
    match t
    case STRING => "STRING"
    case TEXT => "TEXT"
    case INTEGER => "INTEGER"
    case BIGINT => "BIGINT"
    case FLOAT => "FLOAT"
    case REAL => "REAL"
    case DOUBLE => "DOUBLE"
    case DECIMAL => "DECIMAL"
    case DATE => "DATE"
    case DATEONLY => "DATEONLY"
    case ENUM => "ENUM"
    case ARRAY(_) => "ARRAY"
    case JSON => "JSON"
    case JSONB => "JSONB"
    case BLOB => "BLOB"
    case UUID => "UUID"
    case CIDR => "CIDR"
    case INET => "INET"
    case MACADDR => "MACADDR"
    case RANGE => "RANGE"
    case GEOMETRY => "GEOMETRY"
    case BOOLEAN => "BOOLEAN"
    case Unlisted(name) => name
  }

  /** The documented semantic type of each native type, written case by case
      independently of the table; an unlisted type reads as a string. */
  function SemanticType(t: NativeType): PropertyType {
    match t
    case STRING => String
    case TEXT => String
    case INTEGER => Number
    case BIGINT => Number
    case FLOAT => Float
    case REAL => Float
    case DOUBLE => Float
    case DECIMAL => Float
    case DATE => Datetime
    case DATEONLY => Date
    case ENUM => String
    case ARRAY(_) => Array
    case JSON => Object
    case JSONB => Object
    case BLOB => String
    case UUID => String
    case CIDR => String
    case INET => String
    case MACADDR => String
    case RANGE => String
    case GEOMETRY => String
    case BOOLEAN => Boolean
    case Unlisted(_) => String
  }

  /** The position of a listed native type's entry in the table. */
  function TableIndex(t: NativeType): (k: nat)
    requires !t.Unlisted?
    ensures k < |TypesMapping|
  {
    match t
    case STRING => 0
    case TEXT => 1
    case INTEGER => 2
    case BIGINT => 3
    case FLOAT => 4
    case REAL => 5
    case DOUBLE => 6
    case DECIMAL => 7
    case DATE => 8
    case DATEONLY => 9
    case ENUM => 10
    case ARRAY(_) => 11
    case JSON => 12
    case JSONB => 13
    case BLOB => 14
    case UUID => 15
    case CIDR => 16
    case INET => 17
    case MACADDR => 18
    case RANGE => 19
    case GEOMETRY => 20
    case BOOLEAN => 21
  }

  /** The table keys are pairwise distinct. */
  lemma MappingKeysDistinct()
    ensures forall i, j :: 0 <= i < j < |TypesMapping| ==> TypesMapping[i].0 != TypesMapping[j].0
  {
  }

  /** Looking a native type up in the table by class name finds exactly the
      documented semantic type, and finds nothing for an unlisted type. */
  lemma {:induction false} TableAgrees(t: NativeType)
    ensures Find(TypesMapping, ClassName(t)) ==
            (if t.Unlisted? then None else Some(SemanticType(t)))
  {
    if t.Unlisted? {
      assert !Mapped(t.typeName);
    } else {
      var k := TableIndex(t);
      assert TypesMapping[k] == (ClassName(t), SemanticType(t));
      MappingKeysDistinct();
      FindFirst(TypesMapping, ClassName(t), k);
    }
  }

  /** The `references` option of an attribute (a foreign key). */
  datatype ForeignKey = ForeignKey(model: Value)

  /** A Sequelize attribute descriptor (`sequelizePath`). */
  datatype Column = Column(
    fieldName: string,
    nativeType: NativeType,
    allowNull: Value,
    primaryKey: Value,
    autoGenerated: Value,
    autoIncrement: Value,
    references: Option<ForeignKey>,
    values: Option<seq<Value>>)

  /** `name()`. */
  function Name(c: Column): string {
    c.fieldName
  }

  /** `isEditable()`: a column the database fills in itself cannot be edited. */
  predicate IsEditable(c: Column) {
    !Truthy(c.autoGenerated) && !Truthy(c.autoIncrement)
  }

  /** `isVisible()`: fields whose name contains "password" are hidden. */
  function IsVisible(c: Column): (r: bool)
    ensures r <==> forall i: nat :: !OccursAt(c.fieldName, "password", i)
  {
    !Contains(Name(c), "password")
  }

  /** `isId()`: the primary-key flag, read for its truthiness. */
  function IsId(c: Column): (r: bool)
    ensures r <==> Truthy(c.primaryKey)
  {
    Truthy(c.primaryKey)
  }

  /** `isArray()`: the class name of the column's type is "ARRAY". */
  function IsArray(c: Column): (r: bool)
    ensures r <==> c.nativeType.ARRAY?
  {
    assert TypesMapping[11].0 == "ARRAY";
    ClassName(c.nativeType) == "ARRAY"
  }

  /** `reference()`: the referenced model of a non-array foreign key, when it is
      truthy; every falsy outcome of the `&&` chain is `None`. */
  function Reference(c: Column): (r: Option<Value>)
    ensures c.nativeType.ARRAY? ==> r.None?
    ensures r.Some? <==> !c.nativeType.ARRAY? && c.references.Some? && Truthy(c.references.value.model)
    ensures r.Some? ==> r.value == c.references.value.model
  {
    if !IsArray(c) && c.references.Some? && Truthy(c.references.value.model)
    then Some(c.references.value.model)
    else None
  }

  /** `availableValues()`: the enumerated values when there is at least one. */
  function AvailableValues(c: Column): (r: Option<seq<Value>>)
    ensures r.Some? <==> c.values.Some? && |c.values.value| > 0
    ensures r.Some? ==> r == c.values
  {
    if c.values.Some? && |c.values.value| > 0 then c.values else None
  }

  /** The type `type()` resolves: the element type for an array column. */
  function ResolvedType(c: Column): (t: NativeType)
    ensures c.nativeType.ARRAY? ==> t == c.nativeType.elementType
    ensures !c.nativeType.ARRAY? ==> t == c.nativeType
  {
    if IsArray(c) then c.nativeType.elementType else c.nativeType
  }

  /** `type()`: a reference wins over everything; otherwise the table entry of
      the (element) type's class name, or "string" when there is none. */
  function Type(c: Column): (r: PropertyType)
    ensures r != Mixed
    ensures Reference(c).Some? ==> r == PropertyType.Reference
    ensures Reference(c).None? ==> r == SemanticType(ResolvedType(c))
  {
    var t := ResolvedType(c);
    var key := Find(TypesMapping, ClassName(t));
    assert key == (if t.Unlisted? then None else Some(SemanticType(t))) by { TableAgrees(t); }
    if Reference(c).Some? then PropertyType.Reference
    else if key.Some? then key.value
    else String
  }

  /** `isSortable()`. */
  predicate IsSortable(c: Column) {
    Type(c) != Mixed && !IsArray(c)
  }

  /** `isRequired()`: null is explicitly disallowed, i.e. `allowNull` is
      declared and is not `true`. */
  function IsRequired(c: Column): (r: bool)
    ensures r <==> c.allowNull != Undefined && c.allowNull != Bool(true)
  {
    !(c.allowNull.Undefined? || c.allowNull == Bool(true))
  }

  // ---------------------------------------------------------------------
  // Properties of the projection

  /** The semantic type of a reference column is `Reference`, whatever its native type. */
  lemma ReferenceOverridesType(c: Column)
    requires Reference(c).Some?
    ensures Type(c) == PropertyType.Reference && !IsArray(c)
  {
  }

  /** A non-reference column takes the table entry of its (element) type, so the
      result lies in the closed set of eight non-reference, non-mixed types. */
  lemma TypeFromTable(c: Column)
    requires Reference(c).None?
    ensures Type(c) in {String, Number, Float, Datetime, Date, Array, Object, Boolean}
    ensures Find(TypesMapping, ClassName(ResolvedType(c))).Some? ==>
              Type(c) == Find(TypesMapping, ClassName(ResolvedType(c))).value
    ensures Find(TypesMapping, ClassName(ResolvedType(c))).None? ==> Type(c) == String
  {
    TableAgrees(ResolvedType(c));
  }

  /** An array column resolves its type from its element type and is never a
      reference, even with a `references.model`. */
  lemma ArrayUsesElementType(c: Column)
    requires c.nativeType.ARRAY?
    ensures IsArray(c) && Reference(c).None?
    ensures Type(c) == SemanticType(c.nativeType.elementType)
  {
  }

  /** Since `type()` is never "mixed", sortability is exactly "not an array". */
  lemma SortableIffNotArray(c: Column)
    ensures IsSortable(c) <==> !c.nativeType.ARRAY?
  {
  }

  /** Only database-generated columns are read-only. */
  lemma EditableUnlessGenerated(c: Column)
    ensures !IsEditable(c) <==> Truthy(c.autoGenerated) || Truthy(c.autoIncrement)
  {
  }

  /** An undeclared `allowNull` leaves the column optional; `false`, `null` or any
      declared value other than `true` makes it required. */
  lemma RequiredOnlyWhenDeclared(c: Column)
    ensures c.allowNull == Undefined ==> !IsRequired(c)
    ensures c.allowNull == Bool(true) ==> !IsRequired(c)
    ensures c.allowNull == Bool(false) ==> IsRequired(c)
    ensures c.allowNull == Null ==> IsRequired(c)
  {
  }

  function PlainColumn(name: string, t: NativeType): Column {
    Column(name, t, Undefined, Undefined, Undefined, Undefined, None, None)
  }

  /** "password_hash" is hidden, "username" is shown, and the match is
      case-sensitive ("Password" is shown). */
  lemma VisibilityExamples()
    ensures !IsVisible(PlainColumn("password_hash", STRING))
    ensures IsVisible(PlainColumn("username", STRING))
    ensures IsVisible(PlainColumn("Password", STRING))
  {
    assert OccursAt("password_hash", "password", 0);
    var u := "username";
    forall i: nat ensures !OccursAt(u, "password", i) {
      if i == 0 { assert u[0..8][0] != 'p'; }
    }
    var p := "Password";
    forall i: nat ensures !OccursAt(p, "password", i) {
      if i == 0 { assert p[0..8][0] != 'p'; }
    }
  }

  /** An auto-incrementing primary key is not editable; an ordinary column is. */
  lemma EditableExamples()
    ensures !IsEditable(Column("id", INTEGER, Bool(false), Bool(true), Undefined, Bool(true), None, None))
    ensures IsEditable(PlainColumn("title", STRING))
  {
  }
}
