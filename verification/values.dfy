/** Values shared by the stamper store and the stamped records. */
module Values {
  import opened Wrappers

  /** A Ruby value as it appears in a stamper slot or in a record attribute:
      `nil`, an integer primary key, or a string. */
  datatype Value = Nil | Int(i: int) | Str(s: string)

  type FieldName = string

  /** The attributes of an ActiveRecord instance. A key is an attribute the instance
      can both read and write; an instance with a reader and no writer is not modelled. */
  type Record = map<FieldName, Value>

  /** The attribute `f` of `rec`, or `None` when the record has no such attribute. */
  function Attribute(rec: Record, f: FieldName): Option<Value>
  {
    if f in rec then Some(rec[f]) else None
  }

  /** `after` is `before` with exactly the attribute `field` set to `v`: the same
      attributes exist, and every other attribute keeps its value. */
  ghost predicate Stamped(before: Record, after: Record, field: FieldName, v: Value)
  {
    && after.Keys == before.Keys
    && Attribute(after, field) == Some(v)
    && forall f :: f != field ==> Attribute(after, f) == Attribute(before, f)
  }
}
