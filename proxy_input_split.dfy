/**
 * `parkour.hadoop.ProxyInputSplit`: a Hadoop input split that holds a
 * configuration and a handle on an inner split implemented in Clojure
 * (`IInputSplit`), binds the handle through `Binding`, and forwards the
 * split operations to it. Calling any forwarding operation while no handle
 * is bound raises a `NullPointerException`.
 */
module ProxyInputSplits {
  import opened Host
  import opened Edn
  import Binding

  /**
   * The inner split's operations. Its serialised form is one string on the
   * stream; `readSplit` is called on the current handle and returns the
   * handle read back.
   */
  datatype SplitOps<!H> = SplitOps(
    create: (Conf, seq<Value>) -> H,   // the subclass's `createSplit(conf, args...)`
    length: H -> int,
    locations: H -> seq<string>,
    deref: H -> Value,
    write: H -> string,
    readSplit: (H, string) -> H)

  /** What one inner split writes, any inner split reads back as that split. */
  ghost predicate RoundTrips<H(!new)>(ops: SplitOps<H>) {
    forall h, h0 :: ops.readSplit(h0, ops.write(h)) == h
  }

  class ProxyInputSplit<H> {
    const ops: SplitOps<H>
    var conf: Option<Conf>
    var iis: Option<H>

    /** The two fields, as `Binding` describes them. */
    function State(): Binding.Bound<H>
      reads this
    {
      Binding.Bound(conf, iis)
    }

    /** The no-argument constructor Hadoop uses before `readFields`: nothing is bound. */
    constructor Lazy(ops: SplitOps<H>)
      ensures this.ops == ops && State() == Binding.Unbound()
    {
      this.ops := ops;
      conf := None;
      iis := None;
    }

    /** `ProxyInputSplit(conf, args...)`: the inner split is created at once. */
    constructor Eager(ops: SplitOps<H>, c: Conf, args: seq<Value>)
      ensures this.ops == ops && State() == Binding.Eager(c, args, ops.create)
    {
      this.ops := ops;
      conf := Some(c);
      iis := Some(ops.create(c, args));
    }

    /** `setConf`: records the configuration and binds a no-argument split only if none is bound. */
    method SetConf(c: Conf)
      modifies this
      ensures State() == Binding.SetConf(old(State()), c, ops.create)
    {
      conf := Some(c);
      if iis.None? {
        iis := Some(ops.create(c, []));
      }
    }

    method GetConf() returns (r: Option<Conf>)
      ensures r == conf
    {
      r := conf;
    }

    method GetLength() returns (r: Result<int>)
      ensures iis.None? ==> r == Failure(NullReference)
      ensures iis.Some? ==> r == Success(ops.length(iis.value))
    {
      if iis.None? {
        r := Failure(NullReference);
      } else {
        r := Success(ops.length(iis.value));
      }
    }

    method GetLocations() returns (r: Result<seq<string>>)
      ensures iis.None? ==> r == Failure(NullReference)
      ensures iis.Some? ==> r == Success(ops.locations(iis.value))
    {
      if iis.None? {
        r := Failure(NullReference);
      } else {
        r := Success(ops.locations(iis.value));
      }
    }

    method Deref() returns (r: Result<Value>)
      ensures iis.None? ==> r == Failure(NullReference)
      ensures iis.Some? ==> r == Success(ops.deref(iis.value))
    {
      if iis.None? {
        r := Failure(NullReference);
      } else {
        r := Success(ops.deref(iis.value));
      }
    }

    /**
     * `readFields`: the bound handle reads the next string and the handle
     * it returns REPLACES the bound one; with nothing bound the call fails
     * before reading anything.
     */
    method ReadFields(input: DataChannel) returns (e: Option<Error>)
      modifies this, input
      ensures conf == old(conf)
      ensures old(iis).None? ==> e == Some(NullReference) && iis == old(iis) && input.items == old(input.items)
      ensures old(iis).Some? && old(input.items) == [] ==>
        e == Some(EndOfStream) && iis == old(iis) && input.items == old(input.items)
      ensures old(iis).Some? && old(input.items) != [] ==>
        e.None? && iis == Some(ops.readSplit(old(iis).value, old(input.items)[0])) &&
        input.items == old(input.items)[1..]
    {
      if iis.None? {
        return Some(NullReference);
      }
      var s := input.ReadString();
      if s.Failure? {
        return Some(s.error);
      }
      iis := Some(ops.readSplit(iis.value, s.value));
      e := None;
    }

    /** `write`: the bound handle writes itself; the proxy's own fields are not written. */
    method Write(output: DataChannel) returns (e: Option<Error>)
      modifies output
      ensures iis.None? ==> e == Some(NullReference) && output.items == old(output.items)
      ensures iis.Some? ==> e.None? && output.items == old(output.items) + [ops.write(iis.value)]
    {
      if iis.None? {
        return Some(NullReference);
      }
      output.WriteString(ops.write(iis.value));
      e := None;
    }
  }

  /**
   * How Hadoop ships a split to a task: an eagerly built split is written;
   * on the other side a fresh split is made with the no-argument
   * constructor, configured (which binds a placeholder handle) and then
   * read. The value read back is the value of the split that was written.
   */
  method Ship<H(!new)>(ops: SplitOps<H>, c: Conf, args: seq<Value>, taskConf: Conf) returns (r: Result<Value>)
    requires RoundTrips(ops)
    ensures r == Success(ops.deref(ops.create(c, args)))
  {
    var sent := new ProxyInputSplit.Eager(ops, c, args);
    var stream := new DataChannel([]);
    var _ := sent.Write(stream);
    var received := new ProxyInputSplit.Lazy(ops);
    received.SetConf(taskConf);
    var _ := received.ReadFields(stream);
    r := received.Deref();
  }

  /** Without the `setConf` step, reading a shipped split fails: there is no handle to read with. */
  method ShipUnconfigured<H>(ops: SplitOps<H>, c: Conf, args: seq<Value>) returns (e: Option<Error>, r: Result<Value>)
    ensures e == Some(NullReference) && r == Failure(NullReference)
  {
    var sent := new ProxyInputSplit.Eager(ops, c, args);
    var stream := new DataChannel([]);
    var _ := sent.Write(stream);
    var received := new ProxyInputSplit.Lazy(ops);
    e := received.ReadFields(stream);
    r := received.Deref();
  }
}
