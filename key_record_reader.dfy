/**
 * `parkour.hadoop.KeyRecordSeqableRecordReader`: a record reader over the
 * collection a Clojure function returns for a split and a context. Each
 * record's key is the next element; the value is always the `NullWritable`
 * instance. The collection is closed on `close` when it is closeable.
 */
module KeyRecordReaders {
  import opened Host
  import opened Edn

  /** What the function returns: the elements in order, and whether it is `Closeable`. */
  datatype Records<K> = Records(items: seq<K>, closeable: bool)

  /** Hadoop's `NullWritable`, of which there is one instance. */
  datatype NullWritable = NullWritable

  /**
   * The reader's fields. `coll` is the remaining sequence; Clojure's `seq`
   * and `next` return null for an empty one, modelled as `[]`.
   */
  datatype ReaderState<K> = ReaderState(rs: Option<Records<K>>, coll: seq<K>, key: Option<K>, total: int, current: int)

  /** The fields right after construction: everything null or zero. */
  function Initial<K>(): (s: ReaderState<K>)
    ensures s.rs.None? && s.coll == [] && s.key.None? && s.total == 0 && s.current == 0
  {
    ReaderState(None, [], None, 0, 0)
  }

  /** The reader is positioned `current` elements into `items`, with `total` its size. */
  ghost predicate Tracks<K>(s: ReaderState<K>, items: seq<K>) {
    s.total == |items| && 0 <= s.current <= |items| && s.coll == items[s.current..]
  }

  /** `initialize`, given the collection the function returned: nothing read yet, no key. */
  function Start<K>(rs: Records<K>): (s: ReaderState<K>)
    ensures s.rs == Some(rs) && s.key.None? && s.current == 0
    ensures Tracks(s, rs.items)
  {
    ReaderState(Some(rs), rs.items, None, |rs.items|, 0)
  }

  /**
   * `nextKeyValue`: false, changing nothing, once the sequence is
   * exhausted (the last key stays current); otherwise the next element
   * becomes the key.
   */
  function Next<K>(s: ReaderState<K>): (r: (ReaderState<K>, bool))
    ensures r.1 <==> s.coll != []
    ensures !r.1 ==> r.0 == s
    ensures r.1 ==> r.0.key == Some(s.coll[0]) && r.0.coll == s.coll[1..] &&
                    r.0.current == s.current + 1 && r.0.total == s.total && r.0.rs == s.rs
  {
    if s.coll == [] then (s, false)
    else (s.(key := Some(s.coll[0]), current := s.current + 1, coll := s.coll[1..]), true)
  }

  /** `n` calls of `nextKeyValue`: the final state and the results, in order. */
  function Advance<K>(s: ReaderState<K>, n: nat): (ReaderState<K>, seq<bool>)
    decreases n
  {
    if n == 0 then (s, [])
    else
      var step := Next(s);
      var rest := Advance(step.0, n - 1);
      (rest.0, [step.1] + rest.1)
  }

  function Min(a: int, b: int): int {
    if a <= b then a else b
  }

  /** One call keeps the reader tracking its elements, and the key is the one just passed. */
  lemma NextTracks<K>(s: ReaderState<K>, items: seq<K>)
    requires Tracks(s, items)
    ensures Tracks(Next(s).0, items)
    ensures Next(s).1 <==> s.current < |items|
    ensures Next(s).1 ==> Next(s).0.key == Some(items[s.current])
  {
    if s.current < |items| {
      assert items[s.current..][1..] == items[s.current + 1..];
    }
  }

  /**
   * From any tracking state, `n` calls answer true exactly for the
   * elements that remain, advance to the end at most, and leave the key at
   * the last element passed (or where it was, if none was passed).
   */
  lemma {:induction false} AdvanceTracks<K>(s: ReaderState<K>, items: seq<K>, n: nat)
    requires Tracks(s, items)
    ensures Tracks(Advance(s, n).0, items)
    ensures var bs := Advance(s, n).1;
      |bs| == n && forall i :: 0 <= i < n ==> (bs[i] <==> s.current + i < |items|)
    ensures Advance(s, n).0.current == Min(s.current + n, |items|)
    ensures var t := Advance(s, n).0;
      (t.current > s.current ==> t.key == Some(items[t.current - 1])) &&
      (t.current == s.current ==> t.key == s.key)
    decreases n
  {
    if n > 0 {
      var step := Next(s);
      NextTracks(s, items);
      AdvanceTracks(step.0, items, n - 1);
      var bs := Advance(s, n).1;
      var rest := Advance(step.0, n - 1).1;
      assert bs == [step.1] + rest;
      forall i | 0 <= i < n
        ensures bs[i] <==> s.current + i < |items|
      {
        if i > 0 {
          assert bs[i] == rest[i - 1];
          if step.1 {
            assert step.0.current == s.current + 1;
          } else {
            assert step.0 == s;
          }
        }
      }
    }
  }

  /**
   * After `initialize`, the reader yields every element exactly once, in
   * order (true as many times as there are elements, then false), and the
   * key after the end is still the last element.
   */
  lemma ReadsEachKeyOnce<K>(rs: Records<K>, n: nat)
    ensures var bs := Advance(Start(rs), n).1;
      |bs| == n && forall i :: 0 <= i < n ==> (bs[i] <==> i < |rs.items|)
    ensures var t := Advance(Start(rs), n).0;
      forall i :: 0 <= i < |rs.items| && i + 1 == Min(n, |rs.items|) ==> t.key == Some(rs.items[i])
    ensures n == 0 || rs.items == [] ==> Advance(Start(rs), n).0.key.None?
  {
    AdvanceTracks(Start(rs), rs.items, n);
  }

  // ---------------------------------------------------------------------
  // Progress

  function MaxReal(a: real, b: real): real {
    if a >= b then a else b
  }

  function MinReal(a: real, b: real): real {
    if a <= b then a else b
  }

  /**
   * `getProgress` as written: 1 when the sequence is exhausted, otherwise
   * the LARGER of the fraction read and 1.
   */
  function ProgressAsWritten<K>(s: ReaderState<K>): (p: real)
    requires s.coll == [] || s.total > 0
    ensures p >= 1.0
  {
    if s.coll == [] then 1.0 else MaxReal(s.current as real / s.total as real, 1.0)
  }

  /** As written, the reported progress is 1 in every reachable state. */
  lemma ProgressAsWrittenAlwaysOne<K>(s: ReaderState<K>, items: seq<K>)
    requires Tracks(s, items)
    ensures s.coll == [] || s.total > 0
    ensures ProgressAsWritten(s) == 1.0
  {
    if s.coll != [] {
      assert s.current as real / s.total as real <= 1.0;
    }
  }

  /** So a reader that has read none of four keys already reports that it is done. */
  lemma ProgressAsWrittenAtStart(a: Value, b: Value, c: Value, d: Value)
    ensures var s := Start(Records([a, b, c, d], false));
      s.current == 0 && |s.coll| == 4 && ProgressAsWritten(s) == 1.0
  {
    var s := Start(Records([a, b, c, d], false));
    assert s.current as real / s.total as real == 0.0;
  }

  /** The evident intent: the SMALLER of the fraction read and 1. */
  function Progress<K>(s: ReaderState<K>): (p: real)
    requires s.coll == [] || s.total > 0
    ensures p <= 1.0
    ensures s.coll == [] ==> p == 1.0
  {
    if s.coll == [] then 1.0 else MinReal(s.current as real / s.total as real, 1.0)
  }

  /** Corrected, progress is the fraction of elements read: 0 at the start of a non-empty collection, 1 at the end. */
  lemma ProgressIsFraction<K>(s: ReaderState<K>, items: seq<K>)
    requires Tracks(s, items)
    ensures s.coll == [] || s.total > 0
    ensures 0.0 <= Progress(s) <= 1.0
    ensures s.coll != [] ==> Progress(s) == s.current as real / |items| as real
    ensures s.current == 0 && items != [] ==> Progress(s) == 0.0
    ensures s.current == |items| ==> Progress(s) == 1.0
  {
    if s.coll != [] {
      assert s.current as real / s.total as real <= 1.0;
    }
    if s.current == |items| {
      assert s.coll == [];
    }
  }

  /** Corrected progress never goes backwards as records are read. */
  lemma ProgressMonotone<K>(s: ReaderState<K>, items: seq<K>)
    requires Tracks(s, items)
    ensures s.coll == [] || s.total > 0
    ensures Tracks(Next(s).0, items)
    ensures Progress(Next(s).0) >= Progress(s)
  {
    NextTracks(s, items);
    var t := Next(s).0;
    ProgressIsFraction(s, items);
    ProgressIsFraction(t, items);
    if s.coll != [] && t.coll != [] {
      assert t.current == s.current + 1;
      assert (s.current as real) / (|items| as real) <= (t.current as real) / (|items| as real);
    }
  }

  // ---------------------------------------------------------------------
  // The reader

  class KeyRecordSeqableRecordReader<K> {
    /** The function from a split and a context to the records. */
    const f: (Value, Context) -> Records<K>
    var rs: Option<Records<K>>
    var coll: seq<K>
    var key: Option<K>
    var total: int
    var current: int
    /** How many times the records have been closed. */
    var closes: nat

    function State(): ReaderState<K>
      reads this
    {
      ReaderState(rs, coll, key, total, current)
    }

    /** Before `initialize` nothing is held; afterwards the reader tracks the records' elements. */
    ghost predicate Valid()
      reads this
    {
      (rs.None? ==> coll == [] && total == 0) &&
      (rs.Some? ==> Tracks(State(), rs.value.items))
    }

    constructor (f: (Value, Context) -> Records<K>)
      ensures this.f == f && State() == Initial() && closes == 0 && Valid()
    {
      this.f := f;
      rs := None;
      coll := [];
      key := None;
      total := 0;
      current := 0;
      closes := 0;
    }

    method Initialize(split: Value, ctx: Context)
      modifies this
      ensures State() == Start(f(split, ctx)) && closes == old(closes) && Valid()
    {
      rs := Some(f(split, ctx));
      coll := rs.value.items;
      key := None;
      total := |rs.value.items|;
      current := 0;
    }

    method NextKeyValue() returns (b: bool)
      requires Valid()
      modifies this
      ensures (State(), b) == Next(old(State())) && closes == old(closes) && Valid()
    {
      if rs.Some? {
        NextTracks(State(), rs.value.items);
      }
      if coll == [] {
        return false;
      }
      key := Some(coll[0]);
      current := current + 1;
      coll := coll[1..];
      b := true;
    }

    method GetCurrentKey() returns (k: Option<K>)
      ensures k == key
    {
      k := key;
    }

    /** `getCurrentValue`: the one `NullWritable`, in every state. */
    method GetCurrentValue() returns (v: NullWritable)
      ensures v == NullWritable
    {
      v := NullWritable;
    }

    /** `getProgress`, with the comparison the corrected definition uses. */
    method GetProgress() returns (p: real)
      requires Valid()
      ensures 0.0 <= p <= 1.0
      ensures rs.None? ==> p == 1.0
      ensures rs.Some? ==> p == Progress(State())
    {
      if rs.Some? {
        ProgressIsFraction(State(), rs.value.items);
      }
      if coll == [] {
        p := 1.0;
      } else {
        p := MinReal(current as real / total as real, 1.0);
      }
    }

    /** `close`: closes the records only when they are closeable; the fields are not reset. */
    method Close()
      modifies this
      ensures State() == old(State())
      ensures closes == if rs.Some? && rs.value.closeable then old(closes) + 1 else old(closes)
    {
      if rs.Some? && rs.value.closeable {
        closes := closes + 1;
      }
    }
  }
}
