/**
  * The aroma data model of `feature/aroma/types.ts`: the four measurement
  * fields of the `AromaDataTypeFields` enum, the constant `DATATYPE_MAP`
  * that pairs each absolute field with its relative share, and the record
  * shapes (table rows, server profile records, named profile variants).
  */
module AromaTypes {
  import opened JsValues

  /** The members of `AromaDataTypeFields`, in declaration order. */
  datatype Field = Oav | OavRelative | Fd | FdRelative

  /** `Object.keys(AromaDataTypeFields)` mapped to the enum values: declaration order. */
  const EnumFields: seq<Field> := [Oav, OavRelative, Fd, FdRelative]

  /** The string value of each enum member; every value equals its member's name. */
  function FieldName(f: Field): string {
    match f
    case Oav => "oav"
    case OavRelative => "oavRelative"
    case Fd => "fd"
    case FdRelative => "fdRelative"
  }

  /** `AromaDataType`: the two absolute fields. */
  type AromaDataType = f: Field | f == Oav || f == Fd witness Fd

  /** `DATATYPE_MAP[key]`, looked up with an arbitrary string key. */
  function DataTypeMap(key: string): Option<Field> {
    if key == "fdRelative" then Some(Fd)
    else if key == "oavRelative" then Some(Oav)
    else if key == "fd" then Some(FdRelative)
    else if key == "oav" then Some(OavRelative)
    else None
  }

  /** The enum member whose value is `key`, if any: the field a grid column key names. */
  function FieldNamed(key: string): (r: Option<Field>)
    ensures r.Some? ==> FieldName(r.value) == key
    ensures r.Some? <==> DataTypeMap(key).Some?
  {
    if key == "oav" then Some(Oav)
    else if key == "oavRelative" then Some(OavRelative)
    else if key == "fd" then Some(Fd)
    else if key == "fdRelative" then Some(FdRelative)
    else None
  }

  /** `DATATYPE_MAP[dataType]` for an `AromaDataType`: its relative field, which always exists. */
  function RelativeOf(dt: AromaDataType): (r: Field)
    ensures DataTypeMap(FieldName(dt)) == Some(r)
    ensures r != dt
  {
    if dt == Fd then FdRelative else OavRelative
  }

  /** `DATATYPE_MAP` is an involution on its keys: mapping a field twice returns it. */
  lemma DataTypeMapInvolution(f: Field)
    ensures DataTypeMap(FieldName(f)).Some?
    ensures DataTypeMap(FieldName(DataTypeMap(FieldName(f)).value)) == Some(f)
    ensures DataTypeMap(FieldName(f)) != Some(f)
  {
  }

  /** Absolute fields map to their relative share and back. */
  lemma DataTypeMapPairs()
    ensures DataTypeMap("fd") == Some(FdRelative) && DataTypeMap("oav") == Some(OavRelative)
    ensures DataTypeMap("fdRelative") == Some(Fd) && DataTypeMap("oavRelative") == Some(Oav)
  {
  }

  /** Only the four enum values are keys of `DATATYPE_MAP`. */
  lemma DataTypeMapKeys(key: string)
    ensures DataTypeMap(key).Some? <==> exists f: Field :: FieldName(f) == key
  {
    if DataTypeMap(key).Some? {
      var f := DataTypeMap(FieldName(DataTypeMap(key).value)).value;
      assert FieldName(f) == key;
    }
  }

  /** The enum values are distinct strings, so a field is recovered from its value. */
  lemma FieldNameInjective(f: Field, g: Field)
    requires FieldName(f) == FieldName(g)
    ensures f == g
  {
  }

  /** Only the absolute fields are `AromaDataType`s, and the map sends them to non-`AromaDataType`s. */
  lemma DataTypeIsAbsolute(f: AromaDataType)
    ensures DataTypeMap(FieldName(f)).Some?
    ensures DataTypeMap(FieldName(f)).value in {OavRelative, FdRelative}
  {
  }

  datatype Molecule = Molecule(name: string, moleculeId: int)

  /** `AromaRecord`: one table row (`type` is the field `typeName` here). */
  datatype AromaRecord = AromaRecord(
    productPreparationId: int,
    name: Option<string>,
    fd: Val,
    fdRelative: Val,
    oav: Val,
    oavRelative: Val,
    typeName: string,
    typeIndex: Val,
    typeId: int,
    descriptor: string,
    descriptorIndex: Val,
    descriptorId: int,
    id: int,
    molecules: seq<Molecule>)
  {
    /** `record[field]` */
    function Get(f: Field): Val {
      match f
      case Oav => oav
      case OavRelative => oavRelative
      case Fd => fd
      case FdRelative => fdRelative
    }

    /** `{ ...record, [field]: v }` */
    function Set(f: Field, v: Val): (r: AromaRecord)
      ensures r.Get(f) == v
      ensures forall g :: g != f ==> r.Get(g) == Get(g)
      ensures r.typeId == typeId && r.descriptorId == descriptorId && r.id == id
    {
      match f
      case Oav => this.(oav := v)
      case OavRelative => this.(oavRelative := v)
      case Fd => this.(fd := v)
      case FdRelative => this.(fdRelative := v)
    }
  }

  /** A measured value of a server profile record: absent, or `{ original, override }`. */
  datatype Measurement = Absent | Measured(original: Val, override: Val)

  /** `IngredientProfileRecord`: a record as the server sends it. */
  datatype ProfileRecord = ProfileRecord(
    fd: Measurement,
    fdRelative: Val,
    oav: Measurement,
    oavRelative: Val,
    typeName: string,
    typeIndex: Val,
    typeId: int,
    descriptor: string,
    descriptorIndex: Val,
    descriptorId: int,
    molecules: seq<Molecule>)

  /** `row[field] !== undefined` for a table row. */
  predicate RecordDefines(r: AromaRecord, f: Field) {
    !r.Get(f).Undefined?
  }

  /** `row[field] !== undefined` for a server profile record. */
  predicate ProfileRecordDefines(r: ProfileRecord, f: Field) {
    match f
    case Oav => r.oav.Measured?
    case OavRelative => !r.oavRelative.Undefined?
    case Fd => r.fd.Measured?
    case FdRelative => !r.fdRelative.Undefined?
  }

  /**
    * `DotGraphFormRecord` with the fields the dot-graph query adds: an
    * ingredient row of the dot graph, its position (-1 for the main
    * ingredient), its records when known, and the grouping by aroma type.
    */
  datatype DotGraphRow = DotGraphRow(
    id: int,
    name: string,
    rowPosition: int,
    aromaRecords: Option<seq<AromaRecord>>,
    aromaTypes: seq<string>,
    aromaTypeToMolecules: map<string, seq<int>>)
}
