/** The table that gives each PySchema field kind the Elasticsearch mapping
    type it is indexed as (the "Field datatypes" list of the Elasticsearch
    mapping-types reference).

    The Python module attaches an `elasticsearch_type` attribute to the
    PySchema field classes at import time; here the field kinds form a closed
    datatype and the attribute is one total function, `EsType`, that answers
    `None` for the kinds that never receive the attribute. */
module ElasticsearchMapping {
  import opened Wrappers

  /** A PySchema field type. `Integer` and `Float` carry their byte `size`;
      the other payloads are the constructor arguments PySchema keeps
      (enumeration values, list element type, map value type, the name of
      the nested record class) and are never read by the mapping. */
  datatype FieldKind =
    | Boolean
    | Bytes
    | Text
    | Integer(size: int)
    | Float(size: int)
    | Enum(values: seq<string>)
    | List(element: FieldKind)
    | Map(valueType: FieldKind)
    | SubRecord(recordName: string)

  /** The variant of a field kind with its payload forgotten. */
  datatype Kind =
    | BooleanKind | BytesKind | TextKind | IntegerKind | FloatKind
    | EnumKind | ListKind | MapKind | SubRecordKind

  function KindOf(f: FieldKind): Kind
  {
    match f
    case Boolean => BooleanKind
    case Bytes => BytesKind
    case Text => TextKind
    case Integer(_) => IntegerKind
    case Float(_) => FloatKind
    case Enum(_) => EnumKind
    case List(_) => ListKind
    case Map(_) => MapKind
    case SubRecord(_) => SubRecordKind
  }

  /** Kinds whose result depends on the byte size. */
  predicate IsSized(f: FieldKind)
  {
    f.Integer? || f.Float?
  }

  /** Kinds that are never given an `elasticsearch_type`. */
  const UnsupportedKinds: set<Kind> := {EnumKind, ListKind, MapKind}

  predicate IsUnsupported(f: FieldKind)
  {
    KindOf(f) in UnsupportedKinds
  }

  /** Largest byte size that still gets the 32-bit name. */
  const SizeThreshold: int := 4

  const NarrowNames: set<string> := {"float", "integer"}
  const WideNames: set<string> := {"double", "long"}

  /** Every name the table can give. */
  const EsNames: set<string> :=
    {"boolean", "binary", "string", "float", "double", "integer", "long", "object"}

  /** The size rule shared by the Float and Integer getters: the narrow name
      up to and including the threshold, the wide name above it. */
  function ThresholdName(size: int, narrow: string, wide: string): (r: string)
    requires narrow != wide
    ensures r == narrow <==> size <= SizeThreshold
    ensures r == wide <==> size > SizeThreshold
  {
    if size <= SizeThreshold then narrow else wide
  }

  /** The `elasticsearch_type` of a field, or `None` when the field kind has
      no such attribute. */
  function EsType(f: FieldKind): (r: Option<string>)
    ensures r.None? <==> IsUnsupported(f)
    ensures r.Some? ==> r.value in EsNames
    ensures r.Some? && IsSized(f) ==> (r.value in WideNames <==> f.size > SizeThreshold)
  {
    match f
    case Boolean => Some("boolean")
    case Bytes => Some("binary")
    case Text => Some("string")
    case Float(size) => Some(ThresholdName(size, "float", "double"))
    case Integer(size) => Some(ThresholdName(size, "integer", "long"))
    case SubRecord(_) => Some("object")
    case Enum(_) => None
    case List(_) => None
    case Map(_) => None
  }

  /** The inverse table: the one field kind that can produce a given name. */
  function SourceKind(name: string): (r: Option<Kind>)
    ensures r.Some? <==> name in EsNames
    ensures r.Some? ==> r.value !in UnsupportedKinds
  {
    if name == "boolean" then Some(BooleanKind)
    else if name == "binary" then Some(BytesKind)
    else if name == "string" then Some(TextKind)
    else if name == "float" || name == "double" then Some(FloatKind)
    else if name == "integer" || name == "long" then Some(IntegerKind)
    else if name == "object" then Some(SubRecordKind)
    else None
  }

  // ---------------------------------------------------------------------
  // The fixed entries

  /** Boolean, Bytes and Text have constant names. */
  lemma FixedNames()
    ensures EsType(Boolean) == Some("boolean")
    ensures EsType(Bytes) == Some("binary")
    ensures EsType(Text) == Some("string")
  {
  }

  /** A nested record maps to `object`, whatever record class it wraps. */
  lemma SubRecordIsObject(recordName: string)
    ensures EsType(SubRecord(recordName)) == Some("object")
  {
  }

  // ---------------------------------------------------------------------
  // The size rule

  /** A Float of at most four bytes is a `float`, any larger one a `double`. */
  lemma FloatBySize(size: int)
    ensures EsType(Float(size)) == Some("float") <==> size <= 4
    ensures EsType(Float(size)) == Some("double") <==> size > 4
  {
  }

  /** An Integer of at most four bytes is an `integer`, any larger one a `long`. */
  lemma IntegerBySize(size: int)
    ensures EsType(Integer(size)) == Some("integer") <==> size <= 4
    ensures EsType(Integer(size)) == Some("long") <==> size > 4
  {
  }

  /** The boundary is sharp: four bytes is still 32-bit, five is 64-bit. */
  lemma SizeBoundary()
    ensures EsType(Float(4)) == Some("float") && EsType(Float(5)) == Some("double")
    ensures EsType(Integer(4)) == Some("integer") && EsType(Integer(5)) == Some("long")
  {
  }

  /** Once a size gives the 64-bit name, every larger size does too. */
  lemma WideIsMonotone(f: FieldKind, t: int)
    requires IsSized(f) && EsType(f).Some? && EsType(f).value in WideNames
    requires t >= f.size
    ensures EsType(f.(size := t)) == EsType(f)
  {
  }

  /** Once a size gives the 32-bit name, every smaller size does too. */
  lemma NarrowIsMonotone(f: FieldKind, t: int)
    requires IsSized(f) && EsType(f).Some? && EsType(f).value in NarrowNames
    requires t <= f.size
    ensures EsType(f.(size := t)) == EsType(f)
  {
  }

  // ---------------------------------------------------------------------
  // What the result depends on

  /** Two fields of the same kind, and of the same size when the kind is
      sized, get the same answer: the enumeration values, the element and
      value types and the nested record class are never read. */
  lemma OnlyKindAndSizeMatter(f: FieldKind, g: FieldKind)
    requires KindOf(f) == KindOf(g)
    requires IsSized(f) ==> f.size == g.size
    ensures EsType(f) == EsType(g)
  {
  }

  // ---------------------------------------------------------------------
  // The range of the table and its inverse

  /** Every one of the eight names is the answer for some field kind. */
  lemma EveryNameIsUsed(name: string)
    requires name in EsNames
    ensures exists f :: EsType(f) == Some(name)
  {
    SourceKindIsRealised(name);
  }

  /** The range of `EsType` is exactly the eight names. */
  lemma RangeIsEsNames(name: string)
    ensures name in EsNames <==> exists f :: EsType(f) == Some(name)
  {
    if name in EsNames {
      EveryNameIsUsed(name);
    }
  }

  /** Round trip: the name given to a field leads back to that field's kind. */
  lemma SourceKindInvertsEsType(f: FieldKind)
    requires EsType(f).Some?
    ensures SourceKind(EsType(f).value) == Some(KindOf(f))
  {
  }

  /** Round trip the other way: every kind the inverse names produces that
      name for some payload. */
  lemma SourceKindIsRealised(name: string)
    requires SourceKind(name).Some?
    ensures exists f :: KindOf(f) == SourceKind(name).value && EsType(f) == Some(name)
  {
    var f :=
      if name == "boolean" then Boolean
      else if name == "binary" then Bytes
      else if name == "string" then Text
      else if name == "float" then Float(SizeThreshold)
      else if name == "double" then Float(SizeThreshold + 1)
      else if name == "integer" then Integer(SizeThreshold)
      else if name == "long" then Integer(SizeThreshold + 1)
      else SubRecord("");
    assert KindOf(f) == SourceKind(name).value && EsType(f) == Some(name);
  }

  /** Different kinds never share a name: the table is injective on kinds. */
  lemma DistinctKindsDistinctNames(f: FieldKind, g: FieldKind)
    requires EsType(f).Some? && EsType(f) == EsType(g)
    ensures KindOf(f) == KindOf(g)
  {
  }
}
