/**
 * `parkour.hadoop.ProxyOutputFormat`: a Hadoop output format that holds a
 * configuration and a handle on an inner output format implemented in
 * Clojure (`IOutputFormat`), binds the handle through `Binding` exactly as
 * `ProxyInputSplit` does, and forwards the three output-format operations.
 */
module ProxyOutputFormats {
  import opened Host
  import opened Edn
  import Binding

  /**
   * The inner output format's operations; a record writer and an output
   * committer are opaque host objects, and `checkOutputSpecs` either
   * returns or raises.
   */
  datatype FormatOps<!H> = FormatOps(
    create: (Conf, seq<Value>) -> H,   // the subclass's `createOutputFormat(conf, args...)`
    recordWriter: (H, Context) -> Value,
    checkOutputSpecs: (H, Context) -> Option<Error>,
    outputCommitter: (H, Context) -> Value)

  class ProxyOutputFormat<H> {
    const ops: FormatOps<H>
    var conf: Option<Conf>
    var iof: Option<H>

    function State(): Binding.Bound<H>
      reads this
    {
      Binding.Bound(conf, iof)
    }

    /** The no-argument constructor: both fields null. */
    constructor Lazy(ops: FormatOps<H>)
      ensures this.ops == ops && State() == Binding.Unbound()
    {
      this.ops := ops;
      conf := None;
      iof := None;
    }

    /** `ProxyOutputFormat(conf, args...)`: the inner format is created at once. */
    constructor Eager(ops: FormatOps<H>, c: Conf, args: seq<Value>)
      ensures this.ops == ops && State() == Binding.Eager(c, args, ops.create)
    {
      this.ops := ops;
      conf := Some(c);
      iof := Some(ops.create(c, args));
    }

    /** `setConf`: records the configuration and binds a no-argument format only if none is bound. */
    method SetConf(c: Conf)
      modifies this
      ensures State() == Binding.SetConf(old(State()), c, ops.create)
    {
      conf := Some(c);
      if iof.None? {
        iof := Some(ops.create(c, []));
      }
    }

    method GetConf() returns (r: Option<Conf>)
      ensures r == conf
    {
      r := conf;
    }

    method GetRecordWriter(ctx: Context) returns (r: Result<Value>)
      ensures iof.None? ==> r == Failure(NullReference)
      ensures iof.Some? ==> r == Success(ops.recordWriter(iof.value, ctx))
    {
      if iof.None? {
        r := Failure(NullReference);
      } else {
        r := Success(ops.recordWriter(iof.value, ctx));
      }
    }

    /** `checkOutputSpecs`: the inner format's verdict, or a null dereference when unbound. */
    method CheckOutputSpecs(ctx: Context) returns (e: Option<Error>)
      ensures iof.None? ==> e == Some(NullReference)
      ensures iof.Some? ==> e == ops.checkOutputSpecs(iof.value, ctx)
    {
      if iof.None? {
        e := Some(NullReference);
      } else {
        e := ops.checkOutputSpecs(iof.value, ctx);
      }
    }

    method GetOutputCommitter(ctx: Context) returns (r: Result<Value>)
      ensures iof.None? ==> r == Failure(NullReference)
      ensures iof.Some? ==> r == Success(ops.outputCommitter(iof.value, ctx))
    {
      if iof.None? {
        r := Failure(NullReference);
      } else {
        r := Success(ops.outputCommitter(iof.value, ctx));
      }
    }
  }

  /**
   * A format made by reflection and configured by the job, then again by
   * the task, writes through the inner format made from the job's
   * configuration with no arguments.
   */
  method ConfiguredTwice<H>(ops: FormatOps<H>, jobConf: Conf, taskConf: Conf, ctx: Context)
    returns (conf: Option<Conf>, w: Result<Value>)
    ensures conf == Some(taskConf)
    ensures w == Success(ops.recordWriter(ops.create(jobConf, []), ctx))
  {
    var f := new ProxyOutputFormat.Lazy(ops);
    f.SetConf(jobConf);
    f.SetConf(taskConf);
    conf := f.GetConf();
    w := f.GetRecordWriter(ctx);
  }
}
