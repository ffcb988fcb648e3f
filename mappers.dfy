/**
 * `parkour.hadoop.Mappers`: ten numbered mapper classes `_0`..`_9`. Each
 * reads its slot id from its own class name, builds the configuration keys
 * `parkour.mapper.<id>.var` and `parkour.mapper.<id>.args` from it, and at
 * run time dispatches to the var named under the first key, with the
 * arguments under the second when there are any.
 */
module Mappers {
  import opened Host
  import opened Edn
  import Text
  import Dispatch

  const ConfKeyBase: string := "parkour.mapper."
  const OuterClass: string := "parkour.hadoop.Mappers"

  /** The slot classes, in declaration order (`_5` is declared before `_4`). */
  const Slots: seq<string> := ["_0", "_1", "_2", "_3", "_5", "_4", "_6", "_7", "_8", "_9"]

  /** The runtime name of the slot class `slot`. */
  function ClassName(slot: string): string {
    OuterClass + "$" + slot
  }

  /** What the `Base` constructor computes once: the id and the two keys. */
  datatype Base = Base(id: int, varKey: string, argsKey: string)

  /**
   * The `Base` constructor for a class named `className`: the id is the
   * number after the first `$_`, and both keys carry its decimal rendering
   * (what that means for the keys is `NewBaseKeys`).
   */
  function NewBase(className: string): (r: Result<Base>)
    ensures r.Success? <==> Dispatch.SlotId(className).Success?
    ensures r.Success? ==> r.value.id == Dispatch.SlotId(className).value
    ensures r.Failure? ==> r == Failure(Dispatch.SlotId(className).error)
  {
    var id :- Dispatch.SlotId(className);
    var confKey := ConfKeyBase + Text.LongToString(id);
    Success(Base(id, confKey + ".var", confKey + ".args"))
  }

  /**
   * Both keys start with the configuration prefix, end in `.var` and
   * `.args`, differ only in that suffix, and the id can be read back out of
   * either key.
   */
  lemma NewBaseKeys(className: string)
    requires NewBase(className).Success?
    ensures var b := NewBase(className).value;
      |ConfKeyBase| + 4 <= |b.varKey| && |ConfKeyBase| + 5 <= |b.argsKey| &&
      b.varKey[..|ConfKeyBase|] == ConfKeyBase &&
      b.varKey[|b.varKey| - 4..] == ".var" && b.argsKey[|b.argsKey| - 5..] == ".args" &&
      b.varKey[..|b.varKey| - 4] == b.argsKey[..|b.argsKey| - 5] &&
      Text.ParseLong(b.varKey[|ConfKeyBase|..|b.varKey| - 4]) == Success(b.id)
  {
    var b := NewBase(className).value;
    var confKey := ConfKeyBase + Text.LongToString(b.id);
    assert b.varKey[..|b.varKey| - 4] == confKey == b.argsKey[..|b.argsKey| - 5];
    assert b.varKey[|ConfKeyBase|..|b.varKey| - 4] == Text.LongToString(b.id);
    Text.ParseLongToString(b.id);
  }

  /** The keys of a class whose slot id parses are those of the id's decimal rendering. */
  lemma NewBaseOfId(className: string, id: int)
    requires Dispatch.SlotId(className) == Success(id)
    ensures NewBase(className) ==
            Success(Base(id, ConfKeyBase + Text.LongToString(id) + ".var", ConfKeyBase + Text.LongToString(id) + ".args"))
  {
  }

  /** The same, with the rendering of the id given. */
  lemma NewBaseKeysOf(className: string, id: int, text: string)
    requires Dispatch.SlotId(className) == Success(id) && Text.LongToString(id) == text
    ensures NewBase(className) == Success(Base(id, ConfKeyBase + text + ".var", ConfKeyBase + text + ".args"))
  {
  }

  /** The slot text of a class nested in `Mappers` is what follows `$_`. */
  lemma SlotIdOfText(t: string)
    ensures Dispatch.SlotId(OuterClass + "$_" + t) == Text.ParseLong(t)
  {
    OuterClassPlain();
    Dispatch.SlotTextOf(OuterClass, t);
  }

  /** A slot class `_d` parses to the digit `d`. */
  lemma SlotClassId(slot: string)
    requires |slot| == 2 && slot[0] == '_' && Text.IsDigit(slot[1])
    ensures NewBase(ClassName(slot)).Success?
    ensures NewBase(ClassName(slot)).value.id == slot[1] as int - '0' as int
  {
    SlotIdOfClass(slot);
  }

  lemma SlotIdOfClass(slot: string)
    requires |slot| == 2 && slot[0] == '_' && Text.IsDigit(slot[1])
    ensures Dispatch.SlotId(ClassName(slot)) == Success(slot[1] as int - '0' as int)
  {
    OuterClassPlain();
    Dispatch.SlotIdOfSlot(OuterClass, slot);
  }

  lemma OuterClassPlain()
    ensures '$' !in OuterClass
  {
  }

  /** The ten names are `_` followed by ten different digits. */
  lemma SlotShapes()
    ensures Dispatch.WellFormedSlots(Slots)
  {
  }

  /**
   * Each of the ten declared slot classes has the digit of its own name as
   * its slot id (and so, by `NewBase`, as its id), not its position (`_5`
   * is declared before `_4`); those digits differ, so no two slot classes
   * share an id.
   */
  lemma SlotIds()
    ensures Dispatch.WellFormedSlots(Slots)
    ensures Dispatch.SlotIdsAreDigits(OuterClass, Slots)
  {
    SlotShapes();
    OuterClassPlain();
    Dispatch.SlotIdsOfDigits(OuterClass, Slots);
  }

  /** The id is re-rendered, not copied: a slot text without leading zeros reappears as is in the keys. */
  lemma KeysRenderId(t: string)
    requires |t| > 0 && Text.AllDigits(t) && (|t| == 1 || t[0] != '0')
    requires Text.DigitsValue(t) <= LongMax
    ensures NewBase(OuterClass + "$_" + t) ==
            Success(Base(Text.DigitsValue(t), ConfKeyBase + t + ".var", ConfKeyBase + t + ".args"))
  {
    SlotIdOfText(t);
    assert Text.IsDigit(t[0]);
    assert Text.ParseLong(t) == Success(Text.DigitsValue(t));
    NewBaseOfId(OuterClass + "$_" + t, Text.DigitsValue(t));
    Text.CanonicalDigits(t);
  }

  /** ... while a slot text with a leading zero does not: `_03` reads the keys of slot 3. */
  lemma LeadingZeroKeys()
    ensures NewBase(OuterClass + "$_" + "03") ==
            Success(Base(3, ConfKeyBase + "3" + ".var", ConfKeyBase + "3" + ".args"))
  {
    SlotIdOfText("03");
    LeadingZeroParses();
    NewBaseKeysOf(OuterClass + "$_" + "03", 3, "3");
  }

  /** `"03"` parses to 3, which renders as `"3"`. */
  lemma LeadingZeroParses()
    ensures Text.ParseLong("03") == Success(3) && Text.LongToString(3) == "3"
  {
    assert "03"[..1] == "0" && "0"[..0] == [];
    assert Text.DigitsValue("03") == 3;
  }

  /**
   * The arguments under the args key: none when the key is absent, else
   * the elements of the value `read` makes of its text, whose failures
   * propagate.
   */
  method ReadArgs(conf: Conf, argsKey: string, read: string -> Result<Value>)
    returns (r: Result<Option<seq<Value>>>)
    ensures r == Dispatch.DecodeArgs(conf, Dispatch.ArgsKey(argsKey, read))
  {
    if argsKey !in conf {
      return Success(None);
    }
    var decoded := read(conf[argsKey]);
    if decoded.Failure? {
      return Failure(decoded.error);
    }
    var items := SeqOf(decoded.value);
    if items.Failure? {
      return Failure(items.error);
    }
    r := Success(Some(items.value));
  }

  /**
   * `Base.run`: the name under the var key is split at the first `/` into an
   * array whose element 0 is overwritten without its `#'`; the namespace
   * is required, the var invoked with the configuration alone when the args
   * key is absent and with the configuration consed onto the decoded
   * arguments otherwise, and the function it returns is run on the context.
   */
  method Run(base: Base, ctx: Context, read: string -> Result<Value>) returns (o: Dispatch.Outcome)
    ensures o == Dispatch.Resolve(ctx, base.varKey, true, Dispatch.ArgsKey(base.argsKey, read))
  {
    var conf := ctx.conf;
    if base.varKey !in conf {
      return Dispatch.Outcome([], Some(ConfigurationMissing(base.varKey)));
    }
    var parts := Text.SplitFirst(conf[base.varKey], "/");
    var fqname := new string[|parts|](i requires 0 <= i < |parts| => parts[i]);
    if Text.StartsWith(fqname[0], Dispatch.RefMarker) {
      fqname[0] := fqname[0][2..];
    }
    assert fqname[0] == Dispatch.StripMarker(parts[0]);
    var required := [Dispatch.Require(fqname[0])];
    if fqname.Length < 2 {
      return Dispatch.Outcome(required, Some(IndexOutOfBounds(1)));
    }
    var args := ReadArgs(conf, base.argsKey, read);
    if args.Failure? {
      return Dispatch.Outcome(required, Some(args.error));
    }
    assert fqname[1] == parts[1];
    var call := Dispatch.Invoke(fqname[0], fqname[1], Dispatch.TargetArgs(conf, args.value));
    o := Dispatch.Outcome(required + [call, Dispatch.RunTask(ctx)], None);
  }

  /**
   * With no args key the target gets exactly the configuration; with one it
   * gets the configuration followed by the decoded arguments, in order.
   */
  lemma ArgsConvention(base: Base, ctx: Context, read: string -> Result<Value>, nsText: string, sym: string,
                       items: seq<Value>)
    requires base.varKey in ctx.conf && ctx.conf[base.varKey] == nsText + "/" + sym && '/' !in nsText
    ensures var ns := Dispatch.StripMarker(nsText);
      base.argsKey !in ctx.conf ==>
      Dispatch.Resolve(ctx, base.varKey, true, Dispatch.ArgsKey(base.argsKey, read)) ==
        Dispatch.Outcome([Dispatch.Require(ns), Dispatch.Invoke(ns, sym, [Dispatch.ConfArg(ctx.conf)]),
                          Dispatch.RunTask(ctx)], None)
    ensures var ns := Dispatch.StripMarker(nsText);
      base.argsKey in ctx.conf && read(ctx.conf[base.argsKey]) == Success(Vec(items)) ==>
      Dispatch.Resolve(ctx, base.varKey, true, Dispatch.ArgsKey(base.argsKey, read)) ==
        Dispatch.Outcome([Dispatch.Require(ns),
                          Dispatch.Invoke(ns, sym, [Dispatch.ConfArg(ctx.conf)] + Dispatch.ValueArgs(items)),
                          Dispatch.RunTask(ctx)], None)
  {
    var src := Dispatch.ArgsKey(base.argsKey, read);
    if Dispatch.DecodeArgs(ctx.conf, src).Success? {
      Dispatch.ResolveSplitsAtFirstSlash(ctx, base.varKey, true, src, nsText, sym);
      var r := Dispatch.TargetArgs(ctx.conf, Dispatch.DecodeArgs(ctx.conf, src).value);
      assert r == [r[0]] + r[1..];
    }
  }

  /** Only the namespace loses its `#'`: `#'my.ns/#'f` requires `my.ns` and invokes `my.ns/#'f`. */
  lemma MarkerStrippedFromNamespaceOnly(base: Base, ctx: Context, read: string -> Result<Value>)
    requires base.varKey in ctx.conf && ctx.conf[base.varKey] == "#'my.ns/#'f"
    requires base.argsKey !in ctx.conf
    ensures Dispatch.Resolve(ctx, base.varKey, true, Dispatch.ArgsKey(base.argsKey, read)) ==
      Dispatch.Outcome([Dispatch.Require("my.ns"), Dispatch.Invoke("my.ns", "#'f", [Dispatch.ConfArg(ctx.conf)]),
                        Dispatch.RunTask(ctx)], None)
  {
    assert "#'my.ns/#'f" == "#'my.ns" + "/" + "#'f";
    assert '/' !in "#'my.ns";
    Dispatch.ResolveSplitsAtFirstSlash(ctx, base.varKey, true, Dispatch.ArgsKey(base.argsKey, read), "#'my.ns", "#'f");
    assert Text.StartsWith("#'my.ns", Dispatch.RefMarker);
  }
}
