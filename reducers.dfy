/**
 * `parkour.hadoop.Reducers`: nine numbered reducer classes `_1`..`_9`. Each
 * takes its configuration key from the raw text after `$_` in its own class
 * name (no number is parsed), and at run time dispatches to the var named
 * under that key with the configuration as its only argument.
 */
module Reducers {
  import opened Host
  import Text
  import Dispatch

  const ConfKeyBase: string := "parkour.reducer."
  const OuterClass: string := "parkour.hadoop.Reducers"

  /** The slot classes, in declaration order: there is no `_0`, and `_5` precedes `_4`. */
  const Slots: seq<string> := ["_1", "_2", "_3", "_5", "_4", "_6", "_7", "_8", "_9"]

  function ClassName(slot: string): string {
    OuterClass + "$" + slot
  }

  /**
   * `getConfKey`: the key is the base followed by the class name's text
   * after the first `$_`, character for character; a name without `$_` has
   * no key.
   */
  function ConfKey(className: string): (r: Result<string>)
    ensures r.Success? <==> Dispatch.SlotText(className).Success?
    ensures r.Success? ==>
      Text.StartsWith(r.value, ConfKeyBase) && r.value[|ConfKeyBase|..] == Dispatch.SlotText(className).value
  {
    var t :- Dispatch.SlotText(className);
    assert (ConfKeyBase + t)[..|ConfKeyBase|] == ConfKeyBase;
    Success(ConfKeyBase + t)
  }

  /**
   * `Base.run`: the key is computed, the name under it split at the first
   * `/` (no `#'` is stripped), the namespace required, and the var invoked
   * with the configuration alone; the function it returns is run on the
   * context.
   */
  function Run(className: string, ctx: Context): (o: Dispatch.Outcome)
    ensures ConfKey(className).Failure? ==> o == Dispatch.Outcome([], Some(IndexOutOfBounds(1)))
    ensures ConfKey(className).Success? ==>
      var key := ConfKey(className).value;
      (o.failure.None? <==> key in ctx.conf && '/' in ctx.conf[key]) &&
      (key !in ctx.conf ==> o == Dispatch.Outcome([], Some(ConfigurationMissing(key)))) &&
      (o.failure.None? ==> Dispatch.Runs(o.trace) == 1 && o.trace[|o.trace| - 1] == Dispatch.RunTask(ctx))
    ensures forall a :: a in o.trace && a.Invoke? ==> a.args == [Dispatch.ConfArg(ctx.conf)]
  {
    match ConfKey(className)
    case Failure(e) => Dispatch.Outcome([], Some(e))
    case Success(key) =>
      Dispatch.ResolveSucceedsIff(ctx, key, false, Dispatch.NoArgs);
      Dispatch.NoArgsPassesConfOnly(ctx, key, false);
      Dispatch.Resolve(ctx, key, false, Dispatch.NoArgs)
  }

  /** The slot text of a class nested in `Reducers` is what follows `$_`. */
  lemma ConfKeyOfText(t: string)
    ensures ConfKey(OuterClass + "$_" + t) == Success(ConfKeyBase + t)
  {
    assert '$' !in OuterClass;
    Dispatch.SlotTextOf(OuterClass, t);
  }

  /**
   * Each slot class reads the key of its own digit, so the nine keys are
   * distinct, and none of them is the key of slot 0.
   */
  lemma SlotKeys()
    ensures forall i :: 0 <= i < |Slots| ==>
      ConfKey(ClassName(Slots[i])) == Success(ConfKeyBase + [Slots[i][1]])
    ensures forall i, j :: 0 <= i < j < |Slots| ==>
      ConfKey(ClassName(Slots[i])).value != ConfKey(ClassName(Slots[j])).value
    ensures forall i :: 0 <= i < |Slots| ==> ConfKey(ClassName(Slots[i])).value != ConfKeyBase + "0"
  {
    assert forall i :: 0 <= i < |Slots| ==> |Slots[i]| == 2 && Slots[i][0] == '_' && Slots[i][1] != '0';
    assert forall i, j :: 0 <= i < j < |Slots| ==> Slots[i][1] != Slots[j][1];
    forall i | 0 <= i < |Slots|
      ensures ConfKey(ClassName(Slots[i])) == Success(ConfKeyBase + [Slots[i][1]])
    {
      assert ClassName(Slots[i]) == OuterClass + "$_" + [Slots[i][1]];
      ConfKeyOfText([Slots[i][1]]);
    }
    forall i, j | 0 <= i < j < |Slots|
      ensures ConfKey(ClassName(Slots[i])).value != ConfKey(ClassName(Slots[j])).value
    {
      assert (ConfKeyBase + [Slots[i][1]])[|ConfKeyBase|] == Slots[i][1];
      assert (ConfKeyBase + [Slots[j][1]])[|ConfKeyBase|] == Slots[j][1];
    }
    forall i | 0 <= i < |Slots|
      ensures ConfKey(ClassName(Slots[i])).value != ConfKeyBase + "0"
    {
      assert (ConfKeyBase + [Slots[i][1]])[|ConfKeyBase|] == Slots[i][1];
      assert (ConfKeyBase + "0")[|ConfKeyBase|] == '0';
    }
  }

  /**
   * Unlike the mapper slots, the text is not normalised through a number:
   * a class `_03` reads `parkour.reducer.03`, not `parkour.reducer.3`.
   */
  lemma KeyIsRawText()
    ensures ConfKey(OuterClass + "$_" + "03") == Success(ConfKeyBase + "03")
    ensures ConfKey(OuterClass + "$_" + "03").value != ConfKeyBase + "3"
  {
    ConfKeyOfText("03");
    assert |ConfKeyBase + "03"| != |ConfKeyBase + "3"|;
  }

  /** Unlike the mapper slots, no `#'` is stripped: `#'my.ns/f` requires `#'my.ns`. */
  lemma MarkerKept(className: string, ctx: Context)
    requires ConfKey(className).Success?
    requires ConfKey(className).value in ctx.conf && ctx.conf[ConfKey(className).value] == "#'my.ns/f"
    ensures Run(className, ctx) ==
      Dispatch.Outcome([Dispatch.Require("#'my.ns"), Dispatch.Invoke("#'my.ns", "f", [Dispatch.ConfArg(ctx.conf)]),
                        Dispatch.RunTask(ctx)], None)
  {
    var key := ConfKey(className).value;
    assert "#'my.ns/f" == "#'my.ns" + "/" + "f";
    assert '/' !in "#'my.ns";
    Dispatch.ResolveSplitsAtFirstSlash(ctx, key, false, Dispatch.NoArgs, "#'my.ns", "f");
  }
}
