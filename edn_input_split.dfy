/**
 * `parkour.hadoop.EdnInputSplit`: an input split whose whole content is one
 * Clojure value. Its length and locations are read out of the value under
 * `:parkour.mapreduce/length` and `:parkour.mapreduce/locations`; it is
 * serialised as the EDN text of the value WITHOUT its locations, printed
 * and read with the split's configuration.
 */
module EdnInputSplits {
  import opened Host
  import opened Edn

  const KeywordNs: string := "parkour.mapreduce"
  const LengthKey: Value := Kw(Keyword(KeywordNs, "length"))
  const LocationsKey: Value := Kw(Keyword(KeywordNs, "locations"))

  /**
   * `getLength`: 0 when the value has no length (including a value that
   * is not a map at all), otherwise the length as a `long`.
   */
  function Length(v: Value): (r: Result<int>)
    ensures Get(v, LengthKey).Nil? ==> r == Success(0)
    ensures r.Success? ==> LongMin <= r.value <= LongMax
    ensures Get(v, LengthKey).Int? ==>
      (r.Success? <==> LongMin <= Get(v, LengthKey).i <= LongMax) &&
      (r.Success? ==> r.value == Get(v, LengthKey).i)
    ensures r.Failure? ==> !Get(v, LengthKey).Nil? && LongCast(Get(v, LengthKey)).Failure?
  {
    var length := Get(v, LengthKey);
    if length.Nil? then Success(0) else LongCast(length)
  }

  /**
   * `getLocations`: a `String[]` is returned as it is; anything else is
   * read as a sequence and copied into a new `String[]`, so nil and empty
   * collections give no locations and a non-string element is refused.
   */
  function Locations(v: Value): (r: Result<seq<string>>)
    ensures Get(v, LocationsKey).StrArray? ==> r == Success(Get(v, LocationsKey).strs)
    ensures Get(v, LocationsKey).Nil? ==> r == Success([])
    ensures Get(v, LocationsKey).Vec? ==>
      var items := Get(v, LocationsKey).items;
      (r.Success? <==> forall i :: 0 <= i < |items| ==> items[i].Str?) &&
      (r.Success? ==> |r.value| == |items| && forall i :: 0 <= i < |items| ==> r.value[i] == items[i].s)
    ensures r.Success? ==> var l := Get(v, LocationsKey); !(l.Int? || l.Chr? || l.Kw? || l.Obj?)
  {
    var locations := Get(v, LocationsKey);
    if locations.StrArray? then Success(locations.strs)
    else
      var items :- SeqOf(locations);
      AsStrings(items)
  }

  /** What `write` prints: the value without its locations; only nil and maps can be dissociated. */
  function WireValue(v: Value): (r: Result<Value>)
    ensures r.Success? <==> v.Nil? || v.Dict?
    ensures r.Failure? ==> r.error == ClassCast
  {
    Dissoc(v, LocationsKey)
  }

  /** The wire value has no locations and agrees with the value under every other key. */
  lemma WireValueKeys(v: Value, key: Value)
    requires WireValue(v).Success?
    ensures Get(WireValue(v).value, LocationsKey) == Nil
    ensures key != LocationsKey ==> Get(WireValue(v).value, key) == Get(v, key)
  {
    DissocGet(v, LocationsKey, key);
  }

  /**
   * When the codec reads back what it prints (for the writer's and the
   * reader's configurations), a split read from what another wrote has the
   * same length, no locations, and the same entry under every other key.
   */
  lemma RoundTrip(codec: Codec, writer: Option<Conf>, reader: Option<Conf>, v: Value, key: Value)
    requires Inverts(codec, writer, reader)
    requires v.Nil? || v.Dict?
    ensures var w := codec.readString(reader, codec.prStr(writer, WireValue(v).value));
      w == WireValue(v) &&
      Length(w.value) == Length(v) && Locations(w.value) == Success([]) &&
      (key != LocationsKey ==> Get(w.value, key) == Get(v, key))
  {
    WireValueKeys(v, key);
    WireValueKeys(v, LengthKey);
    assert LengthKey != LocationsKey;
  }

  class EdnInputSplit {
    /** `parkour.cser/pr-str` and `parkour.cser/read-string`. */
    const codec: Codec
    var conf: Option<Conf>
    var value: Value

    /** The no-argument constructor Hadoop uses before `readFields`. */
    constructor Empty(codec: Codec)
      ensures this.codec == codec && conf.None? && value == Nil
    {
      this.codec := codec;
      conf := None;
      value := Nil;
    }

    constructor OfValue(codec: Codec, value: Value)
      ensures this.codec == codec && conf.None? && this.value == value
    {
      this.codec := codec;
      conf := None;
      this.value := value;
    }

    constructor OfConfValue(codec: Codec, c: Conf, value: Value)
      ensures this.codec == codec && conf == Some(c) && this.value == value
    {
      this.codec := codec;
      conf := Some(c);
      this.value := value;
    }

    method GetLength() returns (r: Result<int>)
      ensures r == Length(value)
    {
      var length := Get(value, LengthKey);
      if length.Nil? {
        r := Success(0);
      } else {
        r := LongCast(length);
      }
    }

    method GetLocations() returns (r: Result<seq<string>>)
      ensures r == Locations(value)
    {
      var locations := Get(value, LocationsKey);
      if locations.StrArray? {
        r := Success(locations.strs);
      } else {
        var items := SeqOf(locations);
        if items.Failure? {
          r := Failure(items.error);
        } else {
          r := AsStrings(items.value);
        }
      }
    }

    /**
     * `readFields`: the next string on the stream is read with the
     * current configuration and becomes the value; on any failure the
     * value stays as it was.
     */
    method ReadFields(input: DataChannel) returns (e: Option<Error>)
      modifies this, input
      ensures conf == old(conf)
      ensures old(input.items) == [] ==>
        e == Some(EndOfStream) && value == old(value) && input.items == old(input.items)
      ensures old(input.items) != [] ==>
        input.items == old(input.items)[1..] &&
        var read := codec.readString(conf, old(input.items)[0]);
        (read.Success? ==> e.None? && value == read.value) &&
        (read.Failure? ==> e == Some(read.error) && value == old(value))
    {
      var text := input.ReadString();
      if text.Failure? {
        return Some(text.error);
      }
      var read := codec.readString(conf, text.value);
      if read.Failure? {
        return Some(read.error);
      }
      value := read.value;
      e := None;
    }

    /** `write`: prints the value without its locations; the split's own value is left as it is. */
    method Write(output: DataChannel) returns (e: Option<Error>)
      modifies output
      ensures WireValue(value).Failure? ==> e == Some(ClassCast) && output.items == old(output.items)
      ensures WireValue(value).Success? ==>
        e.None? && output.items == old(output.items) + [codec.prStr(conf, WireValue(value).value)]
    {
      var value1 := Dissoc(value, LocationsKey);
      if value1.Failure? {
        return Some(value1.error);
      }
      output.WriteString(codec.prStr(conf, value1.value));
      e := None;
    }

    method SetConf(c: Conf)
      modifies this
      ensures conf == Some(c) && value == old(value)
    {
      conf := Some(c);
    }

    method GetConf() returns (r: Option<Conf>)
      ensures r == conf
    {
      r := conf;
    }

    method Deref() returns (r: Value)
      ensures r == value
    {
      r := value;
    }
  }

  /**
   * A split shipped to a task (written on one side; constructed empty,
   * configured and read on the other) arrives as its wire value, with the
   * sender's length and no locations, while the sender keeps its locations.
   */
  method Ship(codec: Codec, writer: Option<Conf>, v: Value, taskConf: Conf)
    returns (sent: Value, received: Value, length: Result<int>, locations: Result<seq<string>>)
    requires Inverts(codec, writer, Some(taskConf))
    requires v.Nil? || v.Dict?
    ensures sent == v
    ensures Success(received) == WireValue(v)
    ensures length == Length(v) && locations == Success([])
  {
    var a: EdnInputSplit;
    if writer.None? {
      a := new EdnInputSplit.OfValue(codec, v);
    } else {
      a := new EdnInputSplit.OfConfValue(codec, writer.value, v);
    }
    var stream := new DataChannel([]);
    var _ := a.Write(stream);
    var b := new EdnInputSplit.Empty(codec);
    b.SetConf(taskConf);
    var _ := b.ReadFields(stream);
    RoundTrip(codec, writer, Some(taskConf), v, LengthKey);
    sent := a.Deref();
    received := b.Deref();
    length := b.GetLength();
    locations := b.GetLocations();
  }
}
