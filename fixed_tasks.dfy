/**
 * `parkour.hadoop.ParkourMapper`: the task class whose target is named under
 * the fixed key `parkour.mapper`; no arguments, no `#'` stripping.
 */
module ParkourMapper {
  import opened Host
  import Dispatch

  const Key: string := "parkour.mapper"

  /**
   * `run`: succeeds exactly when the key is present and names
   * `namespace/symbol`; the target receives the configuration alone and
   * its result is run on the context once.
   */
  function Run(ctx: Context): (o: Dispatch.Outcome)
    ensures o.failure.None? <==> Key in ctx.conf && '/' in ctx.conf[Key]
    ensures Key !in ctx.conf ==> o == Dispatch.Outcome([], Some(ConfigurationMissing(Key)))
    ensures o.failure.None? ==> Dispatch.Runs(o.trace) == 1 && o.trace[|o.trace| - 1] == Dispatch.RunTask(ctx)
    ensures o.failure.Some? ==> Dispatch.Runs(o.trace) == 0
    ensures forall a :: a in o.trace && a.Invoke? ==> a.args == [Dispatch.ConfArg(ctx.conf)]
  {
    Dispatch.ResolveSucceedsIff(ctx, Key, false, Dispatch.NoArgs);
    Dispatch.NoArgsPassesConfOnly(ctx, Key, false);
    Dispatch.Resolve(ctx, Key, false, Dispatch.NoArgs)
  }
}

/**
 * `parkour.hadoop.ParkourReducer`: the same dispatch under the fixed key
 * `parkour.reducer`.
 */
module ParkourReducer {
  import opened Host
  import Dispatch

  const Key: string := "parkour.reducer"

  /** `run`, as for the mapper, under the reducer's key. */
  function Run(ctx: Context): (o: Dispatch.Outcome)
    ensures o.failure.None? <==> Key in ctx.conf && '/' in ctx.conf[Key]
    ensures Key !in ctx.conf ==> o == Dispatch.Outcome([], Some(ConfigurationMissing(Key)))
    ensures o.failure.None? ==> Dispatch.Runs(o.trace) == 1 && o.trace[|o.trace| - 1] == Dispatch.RunTask(ctx)
    ensures o.failure.Some? ==> Dispatch.Runs(o.trace) == 0
    ensures forall a :: a in o.trace && a.Invoke? ==> a.args == [Dispatch.ConfArg(ctx.conf)]
  {
    Dispatch.ResolveSucceedsIff(ctx, Key, false, Dispatch.NoArgs);
    Dispatch.NoArgsPassesConfOnly(ctx, Key, false);
    Dispatch.Resolve(ctx, Key, false, Dispatch.NoArgs)
  }
}
