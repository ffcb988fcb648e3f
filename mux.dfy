/**
 * `parkour.hadoop.Mux`: the multiplexing input format, split, record reader
 * and mapper, each a thin Java shell over a var of `parkour.remote.mux`.
 * A multiplexed split derefs to an indexed value whose element 1 is the
 * real split; the record reader unwraps it before initialising the reader
 * it wraps.
 */
module Mux {
  import opened Host
  import opened Edn
  import Dispatch
  import Binding
  import ProxyInputSplits

  const MuxNs: string := "parkour.remote.mux"

  // ---------------------------------------------------------------------
  // Mux.InputFormat

  /**
   * `Mux.InputFormat`: its inner format is obtained once, in the
   * constructor, by calling `input-format` with no arguments; nothing
   * later replaces it.
   */
  class InputFormat {
    const iif: Dispatch.Action

    constructor ()
      ensures iif == Dispatch.Invoke(MuxNs, "input-format", [])
    {
      iif := Dispatch.Invoke(MuxNs, "input-format", []);
    }
  }

  // ---------------------------------------------------------------------
  // Mux.InputSplit

  /** `createSplit(conf, args...)`: `input-split*` applied to the configuration consed onto the arguments. */
  function CreateSplitCall(conf: Conf, args: seq<Value>): (a: Dispatch.Action)
    ensures a.Invoke? && a.ns == MuxNs && a.sym == "input-split*"
    ensures |a.args| == |args| + 1 && a.args[0] == Dispatch.ConfArg(conf)
    ensures forall i :: 0 <= i < |args| ==> a.args[i + 1] == Dispatch.ValueArg(args[i])
  {
    Dispatch.Invoke(MuxNs, "input-split*", [Dispatch.ConfArg(conf)] + Dispatch.ValueArgs(args))
  }

  /**
   * A `Mux.InputSplit` is a `ProxyInputSplit` whose inner split is the one
   * `input-split*` returned; the handle is identified by that call. The
   * inner split's own operations are parameters.
   */
  function SplitOps(length: Dispatch.Action -> int, locations: Dispatch.Action -> seq<string>,
                    deref: Dispatch.Action -> Value, write: Dispatch.Action -> string,
                    readSplit: (Dispatch.Action, string) -> Dispatch.Action): (ops: ProxyInputSplits.SplitOps<Dispatch.Action>)
    ensures ops.create == CreateSplitCall
    ensures ops.length == length && ops.locations == locations && ops.deref == deref
    ensures ops.write == write && ops.readSplit == readSplit
  {
    ProxyInputSplits.SplitOps(CreateSplitCall, length, locations, deref, write, readSplit)
  }

  /** `setConf`'s call passes no arguments: the configuration is the only one. */
  lemma CreateSplitNoArgs(c: Conf)
    ensures CreateSplitCall(c, []) == Dispatch.Invoke(MuxNs, "input-split*", [Dispatch.ConfArg(c)])
  {
    assert [Dispatch.ConfArg(c)] + Dispatch.ValueArgs([]) == [Dispatch.ConfArg(c)];
  }

  /** A split bound by `setConf` was created from that configuration alone, whatever configurations followed. */
  lemma LazySplitGetsConfOnly(cs: seq<Conf>)
    requires cs != []
    ensures Binding.SetConfAll(Binding.Unbound(), cs, CreateSplitCall).handle ==
            Some(Dispatch.Invoke(MuxNs, "input-split*", [Dispatch.ConfArg(cs[0])]))
  {
    Binding.LazyBindsFirst(cs, CreateSplitCall);
    CreateSplitNoArgs(cs[0]);
  }

  /** The same through the class: a reflectively built, configured split holds the `input-split*` call on that configuration. */
  method ConfiguredSplit(ops: ProxyInputSplits.SplitOps<Dispatch.Action>, c: Conf) returns (h: Option<Dispatch.Action>)
    requires ops.create == CreateSplitCall
    ensures h == Some(Dispatch.Invoke(MuxNs, "input-split*", [Dispatch.ConfArg(c)]))
  {
    var split := new ProxyInputSplits.ProxyInputSplit.Lazy(ops);
    split.SetConf(c);
    CreateSplitNoArgs(c);
    h := split.iis;
  }

  // ---------------------------------------------------------------------
  // Mux.RecordReader

  /** The split a record reader is initialised with: one that can be dereferenced, or any other split. */
  datatype SplitObject = Derefable(value: Value) | Plain(id: nat)

  /**
   * The unwrapping in `initialize`: the split is cast to `IDeref`, its
   * value indexed at 1, and the element cast back to an input split.
   * An opaque host object `Obj` stands for an `InputSplit` here: the model
   * does not tell host object types apart, so every such object is taken
   * to pass the cast.
   */
  function InnerSplit(split: SplitObject): (r: Result<Value>)
    ensures split.Plain? ==> r == Failure(ClassCast)
    ensures split.Derefable? && split.value.Vec? && |split.value.items| < 2 ==> r == Failure(IndexOutOfBounds(1))
    ensures split.Derefable? && split.value.Vec? && |split.value.items| >= 2 ==>
      var x := split.value.items[1];
      (x.Obj? || x.Nil? ==> r == Success(x)) && (!(x.Obj? || x.Nil?) ==> r == Failure(ClassCast))
    ensures r.Success? ==> r.value.Obj? || r.value.Nil?
  {
    match split
    case Plain(_) => Failure(ClassCast)
    case Derefable(v) =>
      var x :- Nth(v, 1);
      if x.Obj? || x.Nil? then Success(x) else Failure(ClassCast)
  }

  /** The wrapped reader, reduced to the calls of `initialize` it receives. */
  class InnerReader {
    var inits: seq<(Value, Context)>

    constructor ()
      ensures inits == []
    {
      inits := [];
    }

    method Initialize(split: Value, ctx: Context)
      modifies this
      ensures inits == old(inits) + [(split, ctx)]
    {
      inits := inits + [(split, ctx)];
    }
  }

  class RecordReader {
    const rr: InnerReader

    constructor (rr: InnerReader)
      ensures this.rr == rr
    {
      this.rr := rr;
    }

    /** `initialize`: the wrapped reader is initialised once, with the unwrapped split, or not at all. */
    method Initialize(split: SplitObject, ctx: Context) returns (e: Option<Error>)
      modifies rr
      ensures InnerSplit(split).Failure? ==> e == Some(InnerSplit(split).error) && rr.inits == old(rr.inits)
      ensures InnerSplit(split).Success? ==> e.None? && rr.inits == old(rr.inits) + [(InnerSplit(split).value, ctx)]
    {
      var inner := InnerSplit(split);
      if inner.Failure? {
        return Some(inner.error);
      }
      rr.Initialize(inner.value, ctx);
      e := None;
    }
  }

  /** A multiplexed split's element 0 (its tag) never reaches the wrapped reader; element 1 does. */
  lemma TagNeverHandedOn(tag: Value, n: nat, rest: seq<Value>)
    ensures InnerSplit(Derefable(Vec([tag, Obj(n)] + rest))) == Success(Obj(n))
  {
    assert ([tag, Obj(n)] + rest)[1] == Obj(n);
  }

  /** Initialising a mux reader on `[tag split]` initialises the wrapped reader exactly once, on `split`. */
  method InitializeOnce(tag: Value, n: nat, ctx: Context) returns (inits: seq<(Value, Context)>)
    ensures inits == [(Obj(n), ctx)]
  {
    var inner := new InnerReader();
    var reader := new RecordReader(inner);
    TagNeverHandedOn(tag, n, []);
    assert [tag, Obj(n)] + [] == [tag, Obj(n)];
    var _ := reader.Initialize(Derefable(Vec([tag, Obj(n)])), ctx);
    inits := inner.inits;
  }

  // ---------------------------------------------------------------------
  // Mux.Mapper

  /**
   * `Mux.Mapper.run`: `mapper` is invoked with the task's configuration
   * alone and the function it returns runs the context once; no user-named
   * namespace is required (the trace holds no `Require`) and the Java side raises nothing of its own.
   */
  function MapperRun(ctx: Context): (o: Dispatch.Outcome)
    ensures o.failure.None?
    ensures |o.trace| == 2 && o.trace[0] == Dispatch.Invoke(MuxNs, "mapper", [Dispatch.ConfArg(ctx.conf)])
    ensures Dispatch.Runs(o.trace) == 1 && o.trace[|o.trace| - 1] == Dispatch.RunTask(ctx)
    ensures forall a :: a in o.trace ==> !a.Require?
  {
    var t := [Dispatch.Invoke(MuxNs, "mapper", [Dispatch.ConfArg(ctx.conf)]), Dispatch.RunTask(ctx)];
    assert t[1..][1..] == [] && Dispatch.Runs(t[1..]) == 1;
    Dispatch.Outcome(t, None)
  }
}
