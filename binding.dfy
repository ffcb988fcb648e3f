/**
 * How the proxy classes bind their inner implementation. `ProxyInputSplit`
 * and `ProxyOutputFormat` keep a configuration and a handle: the eager
 * constructor creates the handle from a configuration and arguments, the
 * no-argument one leaves it unbound, and `setConf` always records the
 * configuration but creates a handle (with no arguments) only while none is
 * bound. `Partitioner`, by contrast, recomputes its function on every
 * `setConf`.
 */
module Binding {
  import opened Host
  import opened Edn

  /** The two fields of a proxy; `None` stands for Java `null`. */
  datatype Bound<H> = Bound(conf: Option<Conf>, handle: Option<H>)

  /** The no-argument constructor. */
  function Unbound<H>(): (b: Bound<H>)
    ensures b.conf.None? && b.handle.None?
  {
    Bound(None, None)
  }

  /** The `(conf, args...)` constructor: the handle is created at once from both. */
  function Eager<H>(c: Conf, args: seq<Value>, create: (Conf, seq<Value>) -> H): (b: Bound<H>)
    ensures b.conf == Some(c) && b.handle == Some(create(c, args))
  {
    Bound(Some(c), Some(create(c, args)))
  }

  /** `setConf(c)`: the configuration is replaced; a handle is created only when there is none. */
  function SetConf<H>(b: Bound<H>, c: Conf, create: (Conf, seq<Value>) -> H): (r: Bound<H>)
    ensures r.conf == Some(c)
    ensures b.handle.Some? ==> r.handle == b.handle
    ensures b.handle.None? ==> r.handle == Some(create(c, []))
  {
    Bound(Some(c), if b.handle.None? then Some(create(c, [])) else b.handle)
  }

  /** A sequence of `setConf` calls, in order. */
  function SetConfAll<H>(b: Bound<H>, cs: seq<Conf>, create: (Conf, seq<Value>) -> H): Bound<H>
    decreases |cs|
  {
    if cs == [] then b else SetConfAll(SetConf(b, cs[0], create), cs[1..], create)
  }

  /** Once bound, a handle survives any number of `setConf` calls; the last configuration is the one kept. */
  lemma {:induction false} BoundHandleKept<H>(b: Bound<H>, cs: seq<Conf>, create: (Conf, seq<Value>) -> H)
    requires b.handle.Some?
    ensures SetConfAll(b, cs, create).handle == b.handle
    ensures cs != [] ==> SetConfAll(b, cs, create).conf == Some(cs[|cs| - 1])
    ensures cs == [] ==> SetConfAll(b, cs, create) == b
    decreases |cs|
  {
    if cs != [] {
      var b1 := SetConf(b, cs[0], create);
      BoundHandleKept(b1, cs[1..], create);
      if |cs| > 1 {
        assert cs[1..][|cs[1..]| - 1] == cs[|cs| - 1];
      }
    }
  }

  /**
   * A lazily constructed proxy configured several times holds the handle
   * created from the FIRST configuration, with no arguments, while
   * recording the LAST configuration.
   */
  lemma LazyBindsFirst<H>(cs: seq<Conf>, create: (Conf, seq<Value>) -> H)
    requires cs != []
    ensures SetConfAll(Unbound(), cs, create) == Bound(Some(cs[|cs| - 1]), Some(create(cs[0], [])))
  {
    var b1 := SetConf(Unbound(), cs[0], create);
    BoundHandleKept(b1, cs[1..], create);
    if |cs| > 1 {
      assert cs[1..][|cs[1..]| - 1] == cs[|cs| - 1];
    }
  }

  /** `setConf` twice with the same configuration is `setConf` once. */
  lemma SetConfIdempotent<H>(b: Bound<H>, c: Conf, create: (Conf, seq<Value>) -> H)
    ensures SetConf(SetConf(b, c, create), c, create) == SetConf(b, c, create)
  {
  }

  /** Configuring a lazily constructed proxy is the same as constructing it eagerly with no arguments. */
  lemma LazyMatchesEager<H>(c: Conf, create: (Conf, seq<Value>) -> H)
    ensures SetConf(Unbound(), c, create) == Eager(c, [], create)
  {
  }

  /** An eagerly constructed proxy keeps its arguments' handle whatever configurations follow. */
  lemma EagerIgnoresLaterConf<H>(c: Conf, args: seq<Value>, cs: seq<Conf>, create: (Conf, seq<Value>) -> H)
    ensures SetConfAll(Eager(c, args, create), cs, create).handle == Some(create(c, args))
  {
    BoundHandleKept(Eager(c, args, create), cs, create);
  }

  // ---------------------------------------------------------------------
  // Rebinding on every call

  /** `Partitioner.setConf(c)`: both fields are replaced every time. */
  function Rebind<F>(c: Conf, resolve: Conf -> F): (r: Bound<F>)
    ensures r.conf == Some(c) && r.handle == Some(resolve(c))
  {
    Bound(Some(c), Some(resolve(c)))
  }

  function RebindAll<F>(b: Bound<F>, cs: seq<Conf>, resolve: Conf -> F): Bound<F>
    decreases |cs|
  {
    if cs == [] then b else RebindAll(Rebind(cs[0], resolve), cs[1..], resolve)
  }

  /** After any non-empty sequence of calls, only the last configuration matters. */
  lemma {:induction false} RebindLastWins<F>(b: Bound<F>, cs: seq<Conf>, resolve: Conf -> F)
    requires cs != []
    ensures RebindAll(b, cs, resolve) == Rebind(cs[|cs| - 1], resolve)
    decreases |cs|
  {
    if |cs| > 1 {
      RebindLastWins(Rebind(cs[0], resolve), cs[1..], resolve);
      assert cs[1..][|cs[1..]| - 1] == cs[|cs| - 1];
    }
  }

  /**
   * The contrast: configured with `c1` then `c2`, a lazy proxy holds the
   * handle made from `c1` while a partitioner holds the function made from
   * `c2`; both keep `c2` as their configuration.
   */
  lemma GuardedVersusRebound<H, F>(c1: Conf, c2: Conf, create: (Conf, seq<Value>) -> H, resolve: Conf -> F)
    ensures SetConfAll(Unbound(), [c1, c2], create) == Bound(Some(c2), Some(create(c1, [])))
    ensures RebindAll(Unbound(), [c1, c2], resolve) == Bound(Some(c2), Some(resolve(c2)))
  {
    LazyBindsFirst([c1, c2], create);
    RebindLastWins(Unbound(), [c1, c2], resolve);
  }
}
