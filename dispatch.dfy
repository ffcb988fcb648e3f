/**
 * What the task classes do with the configuration, shared by `Mappers`,
 * `Reducers`, `ParkourMapper` and `ParkourReducer`: read a qualified name
 * `namespace/symbol` from a configuration key, require the namespace,
 * invoke the var with the configuration (and possibly decoded arguments),
 * and run the function it returns on the task context.
 *
 * The Clojure runtime is not modelled; what is modelled is the sequence of
 * calls the Java code makes into it, as a trace of actions.
 */
module Dispatch {
  import opened Host
  import opened Edn
  import Text

  /** An argument handed to a Clojure function. */
  datatype Arg =
    | ConfArg(conf: Conf)
    | ValueArg(value: Value)
    | IdArg(id: int)
    | CtxArg(ctx: Context)
    | SplitArg(split: Value)

  /** One call from the Java code into the Clojure runtime. */
  datatype Action =
    | Require(ns: string)                           // `(require 'ns)`
    | Invoke(ns: string, sym: string, args: seq<Arg>) // the var `ns/sym` applied to `args`
    | RunTask(ctx: Context)                          // the returned function applied to the context

  /** The calls made, and the exception that ended the run, if any. */
  datatype Outcome = Outcome(trace: seq<Action>, failure: Option<Error>)

  /** Where a target's extra arguments come from: nowhere, or an EDN text under a configuration key. */
  datatype ArgsSource = NoArgs | ArgsKey(key: string, read: string -> Result<Value>)

  /** The marker `#'` that a var reference prints with. */
  const RefMarker: string := "#'"

  /** Removes one leading `#'`, and only when it is present. */
  function StripMarker(ns: string): (r: string)
    ensures Text.StartsWith(ns, RefMarker) ==> ns == RefMarker + r
    ensures !Text.StartsWith(ns, RefMarker) ==> r == ns
  {
    if Text.StartsWith(ns, RefMarker) then ns[2..] else ns
  }

  function ValueArgs(vs: seq<Value>): (r: seq<Arg>)
    ensures |r| == |vs| && forall i :: 0 <= i < |vs| ==> r[i] == ValueArg(vs[i])
  {
    seq(|vs|, i requires 0 <= i < |vs| => ValueArg(vs[i]))
  }

  /**
   * The arguments a target receives: the configuration alone, or the
   * configuration consed onto the decoded arguments.
   */
  function TargetArgs(conf: Conf, args: Option<seq<Value>>): (r: seq<Arg>)
    ensures |r| >= 1 && r[0] == ConfArg(conf)
    ensures args.None? ==> |r| == 1
    ensures args.Some? ==> r[1..] == ValueArgs(args.value)
  {
    match args
    case None => [ConfArg(conf)]
    case Some(vs) => [ConfArg(conf)] + ValueArgs(vs)
  }

  /**
   * The optional arguments: none when there is no arguments key or the key
   * is absent; otherwise the elements of the value its text reads as.
   */
  function DecodeArgs(conf: Conf, src: ArgsSource): (r: Result<Option<seq<Value>>>)
    ensures (src.NoArgs? || src.key !in conf) ==> r == Success(None)
    ensures src.ArgsKey? && src.key in conf ==>
      (r.Success? <==> src.read(conf[src.key]).Success? && SeqOf(src.read(conf[src.key]).value).Success?)
    ensures src.ArgsKey? && src.key in conf && r.Success? ==>
      r.value == Some(SeqOf(src.read(conf[src.key]).value).value)
  {
    match src
    case NoArgs => Success(None)
    case ArgsKey(key, read) =>
      if key !in conf then Success(None)
      else
        var v :- read(conf[key]);
        var items :- SeqOf(v);
        Success(Some(items))
  }

  /**
   * A task's `run`: look the name up under `varKey`, split it at the first
   * `/`, optionally strip `#'` from the namespace, require the namespace,
   * then invoke `namespace/symbol` and run its result on the context.
   */
  function Resolve(ctx: Context, varKey: string, strip: bool, src: ArgsSource): (o: Outcome)
    ensures varKey !in ctx.conf ==> o == Outcome([], Some(ConfigurationMissing(varKey)))
    ensures varKey in ctx.conf ==>
      |o.trace| == (if o.failure.None? then 3 else 1) && o.trace[0].Require?
    ensures o.failure.None? ==>
      o.trace[1].Invoke? && o.trace[1].ns == o.trace[0].ns &&
      |o.trace[1].args| >= 1 && o.trace[1].args[0] == ConfArg(ctx.conf) && o.trace[2] == RunTask(ctx)
  {
    var conf := ctx.conf;
    if varKey !in conf then Outcome([], Some(ConfigurationMissing(varKey)))
    else
      var parts := Text.SplitFirst(conf[varKey], "/");
      var ns := if strip then StripMarker(parts[0]) else parts[0];
      if |parts| == 1 then Outcome([Require(ns)], Some(IndexOutOfBounds(1)))
      else match DecodeArgs(conf, src)
        case Failure(e) => Outcome([Require(ns)], Some(e))
        case Success(args) =>
          Outcome([Require(ns), Invoke(ns, parts[1], TargetArgs(conf, args)), RunTask(ctx)], None)
  }

  /** The number of times the returned function is run on a context. */
  function Runs(trace: seq<Action>): nat {
    if trace == [] then 0 else (if trace[0].RunTask? then 1 else 0) + Runs(trace[1..])
  }

  /**
   * A run succeeds exactly when the key is present, the name contains `/`
   * and the arguments decode; a failed run invokes no target and runs
   * nothing, and a successful one runs the context exactly once, last.
   */
  lemma ResolveSucceedsIff(ctx: Context, varKey: string, strip: bool, src: ArgsSource)
    ensures var o := Resolve(ctx, varKey, strip, src);
      o.failure.None? <==>
        varKey in ctx.conf && '/' in ctx.conf[varKey] && DecodeArgs(ctx.conf, src).Success?
    ensures var o := Resolve(ctx, varKey, strip, src);
      o.failure.Some? ==> Runs(o.trace) == 0 && forall a :: a in o.trace ==> a.Require?
    ensures var o := Resolve(ctx, varKey, strip, src);
      o.failure.None? ==> Runs(o.trace) == 1 && o.trace[|o.trace| - 1] == RunTask(ctx)
  {
    var o := Resolve(ctx, varKey, strip, src);
    if varKey in ctx.conf {
      SplitsIffSlash(ctx.conf[varKey]);
    }
    if o.failure.None? {
      var t := o.trace;
      assert |t| == 3 && t[2] == RunTask(ctx) && !t[0].RunTask? && !t[1].RunTask?;
      assert t[2..][1..] == [] && Runs(t[2..]) == 1;
      assert t[1..][1..] == t[2..] && Runs(t[1..]) == 1;
    }
  }

  /** `split("/", 2)` gives two parts exactly when the text contains a `/`. */
  lemma SplitsIffSlash(s: string)
    ensures |Text.SplitFirst(s, "/")| == 2 <==> '/' in s
  {
    Text.OccursCharIff(s, '/');
    var parts := Text.SplitFirst(s, "/");
    if |parts| == 2 {
      assert s[|parts[0]|..|parts[0]| + 1] == "/";
      assert Text.OccursAt(s, ['/'], |parts[0]|);
    }
  }

  /**
   * The name is split at the FIRST `/` only: the namespace is the text
   * before it (marker stripped when asked) and the symbol everything after,
   * further slashes included.
   */
  lemma ResolveSplitsAtFirstSlash(ctx: Context, varKey: string, strip: bool, src: ArgsSource,
                                  nsText: string, sym: string)
    requires varKey in ctx.conf && ctx.conf[varKey] == nsText + "/" + sym && '/' !in nsText
    requires DecodeArgs(ctx.conf, src).Success?
    ensures var ns := if strip then StripMarker(nsText) else nsText;
      Resolve(ctx, varKey, strip, src) ==
        Outcome([Require(ns), Invoke(ns, sym, TargetArgs(ctx.conf, DecodeArgs(ctx.conf, src).value)),
                 RunTask(ctx)], None)
  {
    Text.NotBefore(nsText, "/", sym);
    Text.SplitAt(nsText, "/", sym);
  }

  /** A name without `/` still has its whole text required as a namespace before the lookup fails. */
  lemma ResolveWithoutSlash(ctx: Context, varKey: string, strip: bool, src: ArgsSource)
    requires varKey in ctx.conf && '/' !in ctx.conf[varKey]
    ensures var name := ctx.conf[varKey];
      Resolve(ctx, varKey, strip, src) ==
        Outcome([Require(if strip then StripMarker(name) else name)], Some(IndexOutOfBounds(1)))
  {
    SplitsIffSlash(ctx.conf[varKey]);
  }

  /** Without an arguments source, the one var invoked receives the configuration and nothing else. */
  lemma NoArgsPassesConfOnly(ctx: Context, varKey: string, strip: bool)
    ensures forall a :: a in Resolve(ctx, varKey, strip, NoArgs).trace && a.Invoke? ==>
      a.args == [ConfArg(ctx.conf)]
  {
  }

  // ---------------------------------------------------------------------
  // Numbered slot classes

  /** `className.split("\\$_", 2)[1]`: the text after the first `$_`. */
  function SlotText(className: string): (r: Result<string>)
    ensures r.Failure? <==> Text.IndexFrom(className, "$_", 0).None?
    ensures r.Failure? ==> r.error == IndexOutOfBounds(1)
    ensures r.Success? ==> var k := Text.IndexFrom(className, "$_", 0).value;
      k + 2 <= |className| && r.value == className[k + 2..]
  {
    var parts := Text.SplitFirst(className, "$_");
    if |parts| == 1 then Failure(IndexOutOfBounds(1))
    else
      var k := |parts[0]|;
      assert Text.OccursAt(className, "$_", k) && className[k + 2..] == parts[1] by {
        assert className[k..k + 2] == "$_";
      }
      Success(parts[1])
  }

  /** `Long.parseLong` of the slot text: the id a numbered subclass reads from its own name. */
  function SlotId(className: string): (r: Result<int>)
    ensures r.Success? ==> SlotText(className).Success? &&
                           Text.ParseLong(SlotText(className).value) == r
    ensures SlotText(className).Failure? ==> r == Failure(IndexOutOfBounds(1))
    ensures SlotText(className).Success? ==> r == Text.ParseLong(SlotText(className).value)
  {
    var t :- SlotText(className);
    Text.ParseLong(t)
  }

  /** The slot text of `prefix$_text` is `text`, for an outer class name without `$`. */
  lemma SlotTextOf(prefix: string, text: string)
    requires '$' !in prefix
    ensures SlotText(prefix + "$_" + text) == Success(text)
  {
    Text.NotBefore(prefix, "$_", text);
    Text.SplitAt(prefix, "$_", text);
  }

  /** A one-digit slot name gives that digit as its id. */
  lemma SlotIdOfDigit(prefix: string, d: char)
    requires '$' !in prefix && Text.IsDigit(d)
    ensures SlotId(prefix + "$_" + [d]) == Success(d as int - '0' as int)
  {
    SlotTextOf(prefix, [d]);
    assert Text.AllDigits([d]) && [d][..0] == [];
    assert Text.DigitsValue([d]) == d as int - '0' as int;
  }

  /** The same for a slot name `_d` as the class declares it: the id of `prefix$_d` is `d`. */
  lemma SlotIdOfSlot(prefix: string, slot: string)
    requires '$' !in prefix && |slot| == 2 && slot[0] == '_' && Text.IsDigit(slot[1])
    ensures SlotId(prefix + "$" + slot) == Success(slot[1] as int - '0' as int)
  {
    var d := slot[1];
    assert slot == "_" + [d];
    assert prefix + "$" + slot == prefix + "$_" + [d] by {
      assert "$" + ("_" + [d]) == "$_" + [d];
    }
    SlotIdOfDigit(prefix, d);
  }

  /** Slot names of the form `_` and one digit. */
  ghost predicate DigitSlots(slots: seq<string>) {
    forall i :: 0 <= i < |slots| ==> |slots[i]| == 2 && slots[i][0] == '_' && Text.IsDigit(slots[i][1])
  }

  /** The slot names a numbered family declares: `_` and a digit each, no digit twice. */
  ghost predicate WellFormedSlots(slots: seq<string>) {
    DigitSlots(slots) && forall i, j :: 0 <= i < j < |slots| ==> slots[i][1] != slots[j][1]
  }

  /** The class `outer$slot` has the digit of `slot` as its slot id. */
  ghost predicate DigitSlotId(outer: string, slot: string)
    requires |slot| == 2
  {
    SlotId(outer + "$" + slot) == Success(slot[1] as int - '0' as int)
  }

  /** Every class `outer$s`, for `s` in `slots`, has the digit of `s` as its slot id. */
  ghost predicate SlotIdsAreDigits(outer: string, slots: seq<string>)
    requires forall i :: 0 <= i < |slots| ==> |slots[i]| == 2
  {
    forall i :: 0 <= i < |slots| ==> DigitSlotId(outer, slots[i])
  }

  lemma SlotIdsOfDigits(outer: string, slots: seq<string>)
    requires '$' !in outer && DigitSlots(slots)
    ensures SlotIdsAreDigits(outer, slots)
  {
    forall i | 0 <= i < |slots|
      ensures DigitSlotId(outer, slots[i])
    {
      DigitSlotIdOf(outer, slots[i]);
    }
  }

  lemma DigitSlotIdOf(outer: string, slot: string)
    requires '$' !in outer && |slot| == 2 && slot[0] == '_' && Text.IsDigit(slot[1])
    ensures DigitSlotId(outer, slot)
  {
    SlotIdOfSlot(outer, slot);
  }
}
