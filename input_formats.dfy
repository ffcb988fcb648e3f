/**
 * `parkour.hadoop.InputFormats`: ten numbered input-format classes
 * `_0`..`_9`, each carrying the id parsed from its class name and
 * forwarding both input-format operations, with that id first, to the vars
 * of `parkour.remote.input`.
 */
module InputFormats {
  import opened Host
  import opened Edn
  import Text
  import Dispatch

  const RemoteNs: string := "parkour.remote.input"
  const OuterClass: string := "parkour.hadoop.InputFormats"

  /** The slot classes, in declaration order (`_5` is declared before `_4`). */
  const Slots: seq<string> := ["_0", "_1", "_2", "_3", "_5", "_4", "_6", "_7", "_8", "_9"]

  function ClassName(slot: string): string {
    OuterClass + "$" + slot
  }

  /** An input-format instance: only its id. */
  datatype Base = Base(id: int)

  /** The constructor: the id is `Long.parseLong` of the text after `$_`; construction fails without one. */
  function NewBase(className: string): (r: Result<Base>)
    ensures r.Success? <==> Dispatch.SlotId(className).Success?
    ensures r.Success? ==> r.value.id == Dispatch.SlotId(className).value && LongMin <= r.value.id <= LongMax
    ensures r.Failure? ==> r == Failure(Dispatch.SlotId(className).error)
  {
    var id :- Dispatch.SlotId(className);
    Success(Base(id))
  }

  /** `getSplits`: the remote `get-splits` applied to the id and the job context. */
  function GetSplits(b: Base, ctx: Context): (a: Dispatch.Action)
    ensures a.Invoke? && a.ns == RemoteNs && a.sym == "get-splits"
    ensures |a.args| == 2 && a.args[0] == Dispatch.IdArg(b.id) && a.args[1] == Dispatch.CtxArg(ctx)
  {
    Dispatch.Invoke(RemoteNs, "get-splits", [Dispatch.IdArg(b.id), Dispatch.CtxArg(ctx)])
  }

  /** `createRecordReader`: the remote `create-record-reader` applied to the id, the split and the context. */
  function CreateRecordReader(b: Base, split: Value, ctx: Context): (a: Dispatch.Action)
    ensures a.Invoke? && a.ns == RemoteNs && a.sym == "create-record-reader"
    ensures |a.args| == 3 && a.args[0] == Dispatch.IdArg(b.id)
    ensures a.args[1] == Dispatch.SplitArg(split) && a.args[2] == Dispatch.CtxArg(ctx)
  {
    Dispatch.Invoke(RemoteNs, "create-record-reader", [Dispatch.IdArg(b.id), Dispatch.SplitArg(split), Dispatch.CtxArg(ctx)])
  }

  /** Instances with different ids make different remote calls. */
  lemma CallsDifferById(b1: Base, b2: Base, split: Value, ctx: Context)
    requires b1.id != b2.id
    ensures GetSplits(b1, ctx) != GetSplits(b2, ctx)
    ensures CreateRecordReader(b1, split, ctx) != CreateRecordReader(b2, split, ctx)
  {
    assert GetSplits(b1, ctx).args[0] != GetSplits(b2, ctx).args[0];
    assert CreateRecordReader(b1, split, ctx).args[0] != CreateRecordReader(b2, split, ctx).args[0];
  }

  /** A slot class `_d` has the id `d`. */
  lemma SlotClassId(slot: string)
    requires |slot| == 2 && slot[0] == '_' && Text.IsDigit(slot[1])
    ensures NewBase(ClassName(slot)).Success?
    ensures NewBase(ClassName(slot)).value.id == slot[1] as int - '0' as int
  {
    OuterClassPlain();
    Dispatch.SlotIdOfSlot(OuterClass, slot);
  }

  lemma OuterClassPlain()
    ensures '$' !in OuterClass
  {
  }

  /** The ten names are `_` followed by ten different digits. */
  lemma SlotShapes()
    ensures Dispatch.WellFormedSlots(Slots)
  {
  }

  /**
   * Each of the ten declared slot classes has the digit of its own name as
   * its slot id (and so, by `NewBase`, as its id), not its position (`_5`
   * is declared before `_4`); those digits differ, so no two slot classes
   * share an id.
   */
  lemma SlotIds()
    ensures Dispatch.WellFormedSlots(Slots)
    ensures Dispatch.SlotIdsAreDigits(OuterClass, Slots)
  {
    SlotShapes();
    OuterClassPlain();
    Dispatch.SlotIdsOfDigits(OuterClass, Slots);
  }
}
