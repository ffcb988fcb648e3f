/**
 * `parkour.hadoop.Partitioner`: a Hadoop partitioner whose function is
 * obtained from `parkour.mapreduce.tasks/partitioner-set-conf` on EVERY
 * `setConf`, and called with the key, the value and the partition count.
 * A function with a primitive `long` signature has its result truncated to
 * 32 bits; any other function's boxed result goes through `RT.intCast`,
 * which refuses values outside the `int` range.
 */
module Partitioners {
  import opened Host
  import opened Edn
  import Binding

  const TwoTo32: int := 0x1_0000_0000

  /** The function `partitioner-set-conf` returns: an `IFn.OOLL` or a plain `IFn`. */
  datatype PartitionFn =
    | Prim(g: (Value, Value, int) -> int)     // `invokePrim`, returning a `long`
    | Boxed(h: (Value, Value, int) -> Value)  // `invoke`, returning an object

  /** Java's `(int)` cast: the low 32 bits, read as a two's-complement number. */
  function WrapInt32(x: int): (r: int)
    ensures IntMin <= r <= IntMax
    ensures (r - x) % TwoTo32 == 0
  {
    (x - IntMin) % TwoTo32 + IntMin
  }

  /** The cast is characterised by its range and its congruence: any `int` congruent to `x` is the cast of `x`. */
  lemma WrapUnique(x: int, y: int)
    requires IntMin <= y <= IntMax && (y - x) % TwoTo32 == 0
    ensures WrapInt32(x) == y
  {
    var r := WrapInt32(x);
    var d := r - y;
    assert d % TwoTo32 == 0 by {
      assert (r - x) % TwoTo32 == 0;
      assert r - y == (r - x) - (y - x);
    }
    assert -TwoTo32 < d < TwoTo32;
  }

  /** The cast changes nothing inside the `int` range. */
  lemma WrapInRange(x: int)
    requires IntMin <= x <= IntMax
    ensures WrapInt32(x) == x
  {
    WrapUnique(x, x);
  }

  /** `getPartition` with a bound function. */
  function Partition(f: PartitionFn, key: Value, val: Value, n: int): (r: Result<int>)
    ensures r.Success? ==> IntMin <= r.value <= IntMax
    ensures f.Prim? ==> r == Success(WrapInt32(f.g(key, val, n)))
    ensures f.Boxed? ==> r == IntCast(f.h(key, val, n))
  {
    match f
    case Prim(g) => Success(WrapInt32(g(key, val, n)))
    case Boxed(h) => IntCast(h(key, val, n))
  }

  /**
   * The two paths disagree outside the `int` range: a primitive function
   * returning 2^31 yields the most negative `int`, while a boxed function
   * returning the same number raises.
   */
  lemma PrimWrapsBoxedRefuses(key: Value, val: Value, n: int)
    ensures Partition(Prim((k, v, m) => 0x8000_0000), key, val, n) == Success(IntMin)
    ensures Partition(Boxed((k, v, m) => Int(0x8000_0000)), key, val, n) == Failure(IllegalArgument)
  {
    WrapUnique(0x8000_0000, IntMin);
  }

  /** Inside the `int` range the two paths agree. */
  lemma PathsAgreeInRange(g: (Value, Value, int) -> int, key: Value, val: Value, n: int)
    requires IntMin <= g(key, val, n) <= IntMax
    ensures Partition(Prim(g), key, val, n) == Partition(Boxed((k, v, m) => Int(g(k, v, m))), key, val, n)
  {
    WrapInRange(g(key, val, n));
  }

  class Partitioner {
    /** `partitioner-set-conf`. */
    const resolve: Conf -> PartitionFn
    var conf: Option<Conf>
    var f: Option<PartitionFn>

    function State(): Binding.Bound<PartitionFn>
      reads this
    {
      Binding.Bound(conf, f)
    }

    /** Hadoop's reflective construction: both fields start null. */
    constructor (resolve: Conf -> PartitionFn)
      ensures this.resolve == resolve && State() == Binding.Unbound()
    {
      this.resolve := resolve;
      conf := None;
      f := None;
    }

    /** `setConf`: the configuration is recorded and the function recomputed from it, bound or not. */
    method SetConf(c: Conf)
      modifies this
      ensures State() == Binding.Rebind(c, resolve)
    {
      conf := Some(c);
      f := Some(resolve(c));
    }

    method GetConf() returns (r: Option<Conf>)
      ensures r == conf
    {
      r := conf;
    }

    /** `getPartition`: with no function bound, the call dereferences null. */
    method GetPartition(key: Value, val: Value, n: int) returns (r: Result<int>)
      ensures f.None? ==> r == Failure(NullReference)
      ensures f.Some? ==> r == Partition(f.value, key, val, n)
    {
      if f.None? {
        r := Failure(NullReference);
      } else {
        match f.value
        case Prim(g) =>
          r := Success(WrapInt32(g(key, val, n)));
        case Boxed(h) =>
          r := IntCast(h(key, val, n));
      }
    }
  }

  /** A partitioner used before any `setConf` fails on its first call. */
  method NeverConfigured(resolve: Conf -> PartitionFn, key: Value, val: Value, n: int) returns (r: Result<int>)
    ensures r == Failure(NullReference)
  {
    var p := new Partitioner(resolve);
    r := p.GetPartition(key, val, n);
  }

  /** Configured twice, a partitioner partitions with the function of the second configuration. */
  method Reconfigured(resolve: Conf -> PartitionFn, c1: Conf, c2: Conf, key: Value, val: Value, n: int)
    returns (r: Result<int>)
    ensures r == Partition(resolve(c2), key, val, n)
  {
    var p := new Partitioner(resolve);
    p.SetConf(c1);
    p.SetConf(c2);
    r := p.GetPartition(key, val, n);
  }
}
