# Elasticsearch mapping types for PySchema fields

`elasticsearch.py` in schema_tools gives six PySchema field types (Boolean,
Bytes, Text, Float, Integer and SubRecord) an `elasticsearch_type`: the name
of the Elasticsearch field datatype that a field of that type is indexed as (the Elasticsearch "mapping types"
reference). Boolean, Bytes and Text get fixed names. A nested record
(SubRecord) is an `object`. Float and Integer pick the 32-bit name
(`float`, `integer`) when their byte `size` is at most 4, and the 64-bit name
(`double`, `long`) otherwise. Enum, List and Map are imported but never given
a name.

The Python code attaches these names by setting class attributes and mixing
property getters into PySchema's classes when the module is loaded. This
model uses a closed datatype `FieldKind` for the field types instead, with
`size` carried by `Integer` and `Float`. One total function
`EsType(f): Option<string>` returns `None` for the kinds that never receive
the attribute. The other constructor payloads stand for what PySchema keeps:
enumeration values, list element type, map value type and nested record
class. The mapping never reads them.

Files:
- `wrappers.dfy`: the `Option` datatype.
- `elasticsearch.dfy`: module `ElasticsearchMapping`, with the field kinds,
  the table, its inverse `SourceKind` and the lemmas about them.

## Model

| member | source | states |
|---|---|---|
| ElasticsearchMapping.EsType | elasticsearch.py:6-37 | Enum, List and Map (imported but never given an attribute) get `None` and every other kind gets `Some`. Every answer is one of the eight names. For Float and Integer, the answer is a 64-bit name exactly when the size exceeds 4. |
| ElasticsearchMapping.ThresholdName | elasticsearch.py:20-23 | The size rule both getters share: the narrow name exactly when `size <= 4`, the wide name exactly when `size > 4`. |
| ElasticsearchMapping.FixedNames | elasticsearch.py:11-13 | Boolean is `boolean`, Bytes is `binary` and Text is `string`. |
| ElasticsearchMapping.SubRecordIsObject | elasticsearch.py:35-37 | A SubRecord is `object`, whatever record class it wraps. |
| ElasticsearchMapping.FloatBySize | elasticsearch.py:17-23 | A Float is `float` if and only if its size is at most 4, and `double` if and only if its size is above 4. |
| ElasticsearchMapping.IntegerBySize | elasticsearch.py:26-32 | An Integer is `integer` if and only if its size is at most 4, and `long` if and only if its size is above 4. |
| ElasticsearchMapping.SizeBoundary | elasticsearch.py:21-30 | The boundary is sharp: size 4 gives `float`/`integer` and size 5 gives `double`/`long`. |
| ElasticsearchMapping.WideIsMonotone | elasticsearch.py:21-32 | If a Float or Integer size gives the 64-bit name, every size at least as large gives the same name. |
| ElasticsearchMapping.NarrowIsMonotone | elasticsearch.py:21-32 | If a Float or Integer size gives the 32-bit name, every size no larger gives the same name. |
| ElasticsearchMapping.OnlyKindAndSizeMatter | elasticsearch.py:19-32 | Two fields of the same kind get the same answer, provided their sizes agree when the kind is Float or Integer. For Enum, List, Map and SubRecord this means the enumeration values, element type, value type and record class are never read; the other kinds carry nothing besides `size`. |
| ElasticsearchMapping.EveryNameIsUsed | elasticsearch.py:11-37 | Each of the eight names is the answer for some field. |
| ElasticsearchMapping.RangeIsEsNames | elasticsearch.py:11-37 | A name is in the eight-name set if and only if some field maps to it. |
| ElasticsearchMapping.SourceKind | elasticsearch.py:11-37 | The inverse table gives a kind exactly for the eight names, and never Enum, List or Map. |
| ElasticsearchMapping.SourceKindInvertsEsType | elasticsearch.py:11-37 | Round trip: the name given to a field leads back, through the inverse table, to that field's kind. |
| ElasticsearchMapping.SourceKindIsRealised | elasticsearch.py:11-37 | Round trip the other way: for each name, the kind the inverse table gives produces that name for some payload. |
| ElasticsearchMapping.DistinctKindsDistinctNames | elasticsearch.py:11-37 | Two fields that get the same name are of the same kind. |

Repeating a call gives the same answer, because `EsType` is a function of its
argument. Nothing in the model is mutable, so the one-time attribute
assignment at load time has nothing left to model.

## Left out

- `luigi_format.py`: the Avro output and input processors and the Luigi
  format only forward to Avro's `DataFileWriter`/`DataFileReader` and to
  PySchema's JSON conversion. None of that code is part of this model, so
  write/read round trips would be claims about a foreign codec.
- The `__main__` demo in `luigi_format.py`: filesystem I/O, the Luigi
  scheduler and wall-clock timing.
- The context-manager close behaviour of the processors: resource handling
  over foreign pipe and writer objects, with no logic of its own.
- Loading the module as a whole: the model describes the attributes that
  lines 11-37 install, not a successful import. The module cannot finish
  loading as written, for the two reasons below.
- `FieldMixin` (elasticsearch.py:39-41): even with line 44 completed, line
  41 runs inside the class body while the module loads. It calls `simplified_elasticsearch_schema()`,
  which the file neither defines nor imports, so it raises `NameError`,
  after lines 11-37 have already attached their attributes. No later
  definition could prevent this, because line 41 runs first.
- `get_schema_dict` (elasticsearch.py:44): the file ends with this `def`
  and no body, so the file as it stands does not compile and none of its
  lines run. No whole-record
  mapping walk and no element-type policy for List or Map is invented.
- The mixin and class-attribute mechanism, and PySchema's default `size`
  values: these belong to the PySchema library. `size` is a parameter of the
  model, an unbounded integer. A missing or non-numeric size is not
  modelled: in Python the comparison with 4 would raise an error or depend on
  the interpreter version.
