/**
 * `parkour.hadoop.ClojureAvroKeyValueRecordReader`: an Avro record reader
 * whose records are Clojure indexed values `[key value]`. It reads with the
 * key-value pair schema of its two schemas (or with the writer's schema
 * when either is missing) and hands out the SAME two holder objects on
 * every call, refilling them in place on each `nextKeyValue`.
 */
module AvroKeyValueReaders {
  import opened Host
  import opened Edn

  /** An Avro schema, as far as the reader inspects one. */
  datatype Schema = Named(name: string) | KeyValuePair(key: Schema, value: Schema)

  /** The reader schema passed to the base reader: the pair schema, or null when either part is null. */
  function ReaderSchema(ks: Option<Schema>, vs: Option<Schema>): (r: Option<Schema>)
    ensures r.None? <==> ks.None? || vs.None?
    ensures r.Some? ==> r.value.KeyValuePair? && r.value.key == ks.value && r.value.value == vs.value
  {
    if vs.None? || ks.None? then None else Some(KeyValuePair(ks.value, vs.value))
  }

  /** An `AvroKey` or `AvroValue`: a mutable holder of one datum, null to begin with. */
  class Datum {
    var datum: Value

    constructor ()
      ensures datum == Nil
    {
      datum := Nil;
    }
  }

  class ClojureAvroKeyValueRecordReader {
    const schema: Option<Schema>
    const key: Datum
    const val: Datum
    /** The records the base reader has still to deliver, each an indexed value. */
    var records: seq<seq<Value>>
    /** The base reader's current record. */
    var current: Option<seq<Value>>

    /** The two holders are distinct objects. */
    ghost predicate Valid()
      reads this
    {
      key != val
    }

    constructor (ks: Option<Schema>, vs: Option<Schema>, records: seq<seq<Value>>)
      ensures schema == ReaderSchema(ks, vs) && this.records == records && current.None?
      ensures fresh(key) && fresh(val) && key.datum == Nil && val.datum == Nil && Valid()
    {
      schema := ReaderSchema(ks, vs);
      key := new Datum();
      val := new Datum();
      this.records := records;
      current := None;
    }

    /**
     * `nextKeyValue`: when the base reader has a record, its elements 0 and
     * 1 are stored into the key and the value holders, in that order (so a
     * record with one element updates the key and then fails); when it has
     * none, both holders are cleared.
     */
    method NextKeyValue() returns (r: Result<bool>)
      requires Valid()
      modifies this, key, val
      ensures Valid()
      ensures old(records) == [] ==>
        r == Success(false) && records == old(records) && current == old(current) &&
        key.datum == Nil && val.datum == Nil
      ensures old(records) != [] ==>
        var kv := old(records)[0];
        records == old(records)[1..] && current == Some(kv) &&
        (|kv| >= 2 ==> r == Success(true) && key.datum == kv[0] && val.datum == kv[1]) &&
        (|kv| == 1 ==> r == Failure(IndexOutOfBounds(1)) && key.datum == kv[0] && val.datum == old(val.datum)) &&
        (|kv| == 0 ==> r == Failure(IndexOutOfBounds(0)) && key.datum == old(key.datum) && val.datum == old(val.datum))
    {
      if records == [] {
        key.datum := Nil;
        val.datum := Nil;
        return Success(false);
      }
      var kv := records[0];
      records := records[1..];
      current := Some(kv);
      if |kv| == 0 {
        return Failure(IndexOutOfBounds(0));
      }
      key.datum := kv[0];
      if |kv| == 1 {
        return Failure(IndexOutOfBounds(1));
      }
      val.datum := kv[1];
      r := Success(true);
    }

    method GetCurrentKey() returns (k: Datum)
      ensures k == key
    {
      k := key;
    }

    method GetCurrentValue() returns (v: Datum)
      ensures v == val
    {
      v := val;
    }
  }

  /**
   * The holders are shared, not copied: a key holder obtained before two
   * reads shows the key of the second record, and the value holder that
   * of the second record too.
   */
  method HoldersReused(ks: Option<Schema>, vs: Option<Schema>, first: seq<Value>, second: seq<Value>)
    returns (earlyKey: Value, earlyVal: Value)
    requires |first| >= 2 && |second| >= 2
    ensures earlyKey == second[0] && earlyVal == second[1]
  {
    var reader := new ClojureAvroKeyValueRecordReader(ks, vs, [first, second]);
    var k := reader.GetCurrentKey();
    var v := reader.GetCurrentValue();
    var _ := reader.NextKeyValue();
    var _ := reader.NextKeyValue();
    earlyKey := k.datum;
    earlyVal := v.datum;
  }

  /** After the last record, the shared holders read as null. */
  method ClearedAtEnd(ks: Option<Schema>, vs: Option<Schema>, only: seq<Value>) returns (more: Result<bool>, k: Value, v: Value)
    requires |only| >= 2
    ensures more == Success(false) && k == Nil && v == Nil
  {
    var reader := new ClojureAvroKeyValueRecordReader(ks, vs, [only]);
    var _ := reader.NextKeyValue();
    more := reader.NextKeyValue();
    var kh := reader.GetCurrentKey();
    var vh := reader.GetCurrentValue();
    k := kh.datum;
    v := vh.datum;
  }
}
