/**
 * The part of the script-layer value machinery that an analyzer touches:
 * an `AnalyzerArgs` record, seen as a map from field name to value, and
 * its reference count. The real `Val`/`RecordVal` classes are not part of
 * this model; only what the analyzer base class relies on is kept.
 */
module Values {

  /** A script-layer value that can sit in a record field. Only enum values are read by the core. */
  datatype Val = EnumVal(ordinal: int) | CountVal(count: nat) | StringVal(text: string)

  /** The name of the record field that carries the analyzer type. */
  const TagField: string := "tag"

  /**
   * A reference-counted record. A fresh record starts with one reference,
   * held by whoever created it.
   */
  class RecordVal {
    var fields: map<string, Val>
    var refcount: nat

    constructor (fields: map<string, Val>)
      ensures this.fields == fields && refcount == 1
    {
      this.fields := fields;
      refcount := 1;
    }

    /** Takes one more reference and hands back the record itself. */
    method Ref() returns (self: RecordVal)
      modifies this`refcount
      ensures self == this
      ensures refcount == old(refcount) + 1
      ensures fields == old(fields)
    {
      refcount := refcount + 1;
      self := this;
    }
  }

  /**
   * Drops one reference. The caller must own one, so the count is positive
   * beforehand; reclaiming a record whose count reaches zero is not modelled.
   */
  method Unref(r: RecordVal)
    requires r.refcount >= 1
    modifies r`refcount
    ensures r.refcount == old(r.refcount) - 1
    ensures r.fields == old(r.fields)
  {
    r.refcount := r.refcount - 1;
  }
}
