# parkour's Java layer, modelled in Dafny

parkour runs Clojure functions as Hadoop MapReduce jobs. Its Java classes are
an indirection layer between Hadoop and Clojure:

- The numbered mapper and reducer classes (`Mappers$_0`…, `Reducers$_1`…) and the two fixed
  ones (`ParkourMapper`, `ParkourReducer`) find their Clojure target through the job
  configuration. Each reads a qualified name `namespace/symbol` from a configuration key: one
  derived from its own class name for the numbered classes, the fixed key `parkour.mapper` or
  `parkour.reducer` for the fixed ones. It then loads the namespace, invokes the var with the
  configuration (and, for `Mappers$_N` only, the arguments decoded from the configuration), and
  runs the returned function on the task context.
- The numbered input formats (`InputFormats$_0`…) read no configuration key. They parse their id
  from their class name and pass it, with the job or task context, to the fixed vars
  `get-splits` and `create-record-reader` of `parkour.remote.input`.
- The proxies (`ProxyInputSplit`, `ProxyOutputFormat`) hold a handle on an implementation written
  in Clojure. The handle is bound eagerly in a constructor or lazily on the first `setConf`, and is
  never replaced by a later `setConf`. `Partitioner` is the contrast: it re-resolves its function on
  every `setConf`.
- `EdnInputSplit` is a split whose content is one Clojure value. Its length and locations are read
  from that value, and it is serialised as EDN text without the locations.
- The record readers (`KeyRecordSeqableRecordReader`, `ClojureAvroKeyValueRecordReader`,
  `Mux.RecordReader`) are small state machines over a sequence of records.

The Clojure runtime is not modelled. A call from Java into Clojure is recorded as an action in a
trace (`Dispatch.Require`, `Dispatch.Invoke`, `Dispatch.RunTask`). The functions the Clojure side
supplies (split constructors, the EDN codec, the partition function, the record source) are
parameters of the model. A Java `null` is `None` in an `Option`, or `Edn.Nil` where it stands for a Clojure value (the value of an `EdnInputSplit`, the datum of an Avro key or value holder). Java exceptions are the constructors of
`Host.Error`. The Hadoop byte streams are a queue of strings (`Host.DataChannel`).

Layout: `host.dfy` (configuration, contexts, errors, streams); `text.dfy` (`String.split(sep, 2)`,
`Long.parseLong`, `Long.toString`); `edn.dfy` (Clojure values and the `RT` operations the classes
call); `dispatch.dfy` (the shared name-resolution logic of the task classes); `binding.dfy`
(guarded binding and rebinding as pure steps). There is also one file per Java class or group of
classes.

Only `Mappers` strips a leading `#'` from the namespace (src/java/parkour/hadoop/Mappers.java:30);
`Reducers`, `ParkourMapper` and `ParkourReducer` pass the namespace text on unchanged
(`Reducers.MarkerKept`).

## Model

| member | source | states |
|---|---|---|
| Host.DataChannel.constructor | src/java/parkour/hadoop/EdnInputSplit.java:68-69 | a stream that holds exactly the given strings, oldest first |
| Host.DataChannel.WriteString | src/java/parkour/hadoop/EdnInputSplit.java:75 | `Text.writeString` appends the string to the stream and changes nothing else |
| Host.DataChannel.ReadString | src/java/parkour/hadoop/EdnInputSplit.java:69 | `Text.readString` on an exhausted stream is an end-of-stream failure that leaves it as it was; otherwise it yields the oldest string written and removes exactly that one |
| Text.SplitFirst | src/java/parkour/hadoop/Mappers.java:29 | `split(sep, 2)`: one part exactly when `sep` does not occur; otherwise the text before the first occurrence and everything after it, rejoining to the input |
| Text.SplitAt | src/java/parkour/hadoop/Mappers.java:29 | when `sep` cannot start inside `a`, `a + sep + b` splits into exactly `[a, b]` |
| Text.ParseLong | src/java/parkour/hadoop/Mappers.java:20 | `Long.parseLong` succeeds only on non-empty ASCII digits, optionally after one `+` or `-`, so text such as `abc` fails; a digit string (signed or not) yields its decimal value with the sign applied, exactly when that value is inside the 64-bit range; every failure is a `NumberFormatException` on that text |
| Text.ParseLongToString | src/java/parkour/hadoop/Mappers.java:20-21 | parsing `Long.toString(n)` gives `n` back, for every `long` |
| Text.CanonicalDigits | src/java/parkour/hadoop/Mappers.java:21 | a digit string without leading zeros is exactly what `Long.toString` prints for its value |
| Text.LongToString | src/java/parkour/hadoop/Mappers.java:21 | `Long.toString`: non-empty, starting with `-` exactly for negative numbers, then decimal digits with no leading zero whose value is the magnitude |
| Edn.Dissoc | src/java/parkour/hadoop/EdnInputSplit.java:74 | `RT.dissoc` succeeds exactly on nil and maps |
| Edn.DissocGet | src/java/parkour/hadoop/EdnInputSplit.java:74 | after `dissoc` the key reads as nil and every other key reads as before |
| Edn.SeqOf | src/java/parkour/hadoop/EdnInputSplit.java:64 | `RT.seq`: nil gives no elements, a vector its elements; scalars cannot be sequences |
| Edn.AsStrings | src/java/parkour/hadoop/EdnInputSplit.java:64 | copying into a `String[]` succeeds exactly when every element is a string, keeping order and contents |
| Edn.Nth | src/java/parkour/hadoop/Mux.java:57 | `RT.nth` on a vector gives the element when in range and an index error otherwise |
| Edn.LongCast | src/java/parkour/hadoop/EdnInputSplit.java:57 | `RT.longCast` of an integer is that integer exactly when it is in the `long` range and an illegal-argument failure otherwise; a character gives its code; nil is a null dereference and any other value a cast failure |
| Edn.IntCast | src/java/parkour/hadoop/Partitioner.java:39 | `RT.intCast` of an integer is that integer exactly when it is in the `int` range and an illegal-argument failure otherwise; a character gives its code; nil is a null dereference and any other value a cast failure |
| Edn.Lookup | src/java/parkour/hadoop/EdnInputSplit.java:55 | nil when no entry has the key; when some entry has it, the value of the first such entry |
| Edn.Get | src/java/parkour/hadoop/EdnInputSplit.java:55-64 | a keyword applied to a non-map, or to a map without that key, is nil; applied to a map holding the key, it is the value of the first entry with that key |
| Dispatch.StripMarker | src/java/parkour/hadoop/Mappers.java:30 | a leading `#'` is removed when present, and the text is unchanged otherwise |
| Dispatch.TargetArgs | src/java/parkour/hadoop/Mappers.java:33-36 | the target receives the configuration first, alone when there are no arguments, and then the arguments in order |
| Dispatch.DecodeArgs | src/java/parkour/hadoop/Mappers.java:33-36 | no arguments when the key is absent; otherwise decoding succeeds exactly when the text reads and the value is a sequence, and the arguments are its elements |
| Dispatch.Resolve | src/java/parkour/hadoop/Mappers.java:26-38 | a missing name key fails before any call; otherwise the namespace is required first, a failure stops right after that one `require`, and a success then invokes `namespace/symbol` in that same namespace with the configuration as first argument and runs the context, three actions in all |
| Dispatch.ResolveSucceedsIff | src/java/parkour/hadoop/Mappers.java:27-37 | a run succeeds exactly when the key is present, the name contains `/` and the arguments decode; a failed run invokes nothing and runs nothing; a successful run runs the context exactly once, last |
| Dispatch.SplitsIffSlash | src/java/parkour/hadoop/Mappers.java:29 | the name has a second component exactly when it contains `/` |
| Dispatch.ResolveSplitsAtFirstSlash | src/java/parkour/hadoop/Mappers.java:29-37 | the namespace is the text before the first `/` and the symbol is everything after it, further slashes included; the whole trace is require, invoke, run |
| Dispatch.ResolveWithoutSlash | src/java/parkour/hadoop/Mappers.java:29-32 | without `/`, the whole name is still required as a namespace before the missing second component fails the run |
| Dispatch.NoArgsPassesConfOnly | src/java/parkour/hadoop/Reducers.java:23 | with no arguments source, every invocation receives just the configuration |
| Dispatch.SlotText | src/java/parkour/hadoop/Mappers.java:20 | `split("\\$_", 2)[1]` fails with index 1 out of bounds exactly when the class name has no `$_`; otherwise it is the whole text after the first `$_` |
| Dispatch.SlotId | src/java/parkour/hadoop/Mappers.java:20 | when the class name has a `$_`, the id is exactly `Long.parseLong` of the slot text, failures included; a name without `$_` fails with the out-of-bounds error before any parse |
| Dispatch.SlotIdsOfDigits | src/java/parkour/hadoop/Mappers.java:20-50 | for any outer class name without `$`, each class `outer$_d` whose slot names are `_` and a digit has that digit as its id |
| Dispatch.SlotTextOf | src/java/parkour/hadoop/Mappers.java:20 | the slot text of `Outer$_text` is `text` |
| Dispatch.SlotIdOfDigit | src/java/parkour/hadoop/Mappers.java:20 | a one-digit slot name gives that digit as its id |
| Mappers.NewBase | src/java/parkour/hadoop/Mappers.java:19-24 | construction succeeds exactly when the slot id parses, with that `long` as the id; otherwise it fails as the parse does |
| Mappers.NewBaseKeys | src/java/parkour/hadoop/Mappers.java:21-23 | both keys start with `parkour.mapper.`, end in `.var` and `.args`, differ only in that suffix, and the id reads back from the key |
| Mappers.SlotClassId | src/java/parkour/hadoop/Mappers.java:20 | the class `_d` constructs with id `d` |
| Mappers.SlotIds | src/java/parkour/hadoop/Mappers.java:41-50 | the ten declared slot names are `_` and a digit, the ten digits differ, and each slot class has the digit of its own name as its slot id, hence by `NewBase` as its id (not its position, though `_5` precedes `_4`) |
| Mappers.KeysRenderId | src/java/parkour/hadoop/Mappers.java:20-23 | a slot text without leading zeros appears unchanged in both keys |
| Mappers.LeadingZeroKeys | src/java/parkour/hadoop/Mappers.java:20-23 | the id is re-rendered: the class `_03` reads the keys of slot `3` |
| Mappers.ReadArgs | src/java/parkour/hadoop/Mappers.java:33-36 | reading the args key gives exactly what `Dispatch.DecodeArgs` specifies: no arguments when the key is absent, otherwise the elements of the value read from its text, with a read or `RT.seq` failure propagated |
| Mappers.Run | src/java/parkour/hadoop/Mappers.java:26-38 | splitting into an array and overwriting element 0 without its `#'` matches the resolution with marker stripping and the args key |
| Mappers.ArgsConvention | src/java/parkour/hadoop/Mappers.java:33-37 | with the args key absent the target gets exactly the configuration; with it present, the configuration followed by the decoded arguments in order; the result runs once on the context |
| Mappers.MarkerStrippedFromNamespaceOnly | src/java/parkour/hadoop/Mappers.java:30 | `#'my.ns/#'f` requires `my.ns` and invokes `my.ns/#'f`: only the namespace loses its marker |
| Reducers.ConfKey | src/java/parkour/hadoop/Reducers.java:13-16 | the key exists exactly when the class name contains `$_`, and is `parkour.reducer.` followed by the raw text after it |
| Reducers.Run | src/java/parkour/hadoop/Reducers.java:18-24 | succeeds exactly when the key is present and names `namespace/symbol`; every invocation receives only the configuration; a success runs the context once |
| Reducers.SlotKeys | src/java/parkour/hadoop/Reducers.java:27-35 | the nine slots read the keys of their own digits, no two alike, and none reads the key of slot 0 |
| Reducers.KeyIsRawText | src/java/parkour/hadoop/Reducers.java:15 | the text is not normalised: `_03` reads `parkour.reducer.03`, not `parkour.reducer.3` |
| Reducers.MarkerKept | src/java/parkour/hadoop/Reducers.java:21-23 | no `#'` is stripped: `#'my.ns/f` requires and invokes in `#'my.ns` |
| ParkourMapper.Run | src/java/parkour/hadoop/ParkourMapper.java:11-17 | reads the fixed key `parkour.mapper`; succeeds exactly when it is present and contains `/`; a missing key fails before any action; the target gets only the configuration and a success runs the context once |
| ParkourReducer.Run | src/java/parkour/hadoop/ParkourReducer.java:11-17 | the same under the fixed key `parkour.reducer` |
| InputFormats.NewBase | src/java/parkour/hadoop/InputFormats.java:29-32 | construction succeeds exactly when the slot id parses, and the id is that `long` |
| InputFormats.GetSplits | src/java/parkour/hadoop/InputFormats.java:34-38 | `get-splits` of `parkour.remote.input` is invoked with exactly the id and the context |
| InputFormats.CreateRecordReader | src/java/parkour/hadoop/InputFormats.java:40-45 | `create-record-reader` is invoked with exactly the id, the split and the context |
| InputFormats.CallsDifferById | src/java/parkour/hadoop/InputFormats.java:36-45 | formats with different ids never make the same remote call |
| InputFormats.SlotClassId | src/java/parkour/hadoop/InputFormats.java:31 | the class `_d` constructs with id `d` |
| InputFormats.SlotIds | src/java/parkour/hadoop/InputFormats.java:48-57 | the ten slot names are `_` and a digit, the ten digits differ, and each slot class has the digit of its own name as its slot id, hence by `NewBase` as its id, so by `CallsDifferById` no two slots make the same call |
| Binding.Unbound | src/java/parkour/hadoop/ProxyInputSplit.java:19-21 | the no-argument constructor leaves both the configuration and the handle null |
| Binding.Eager | src/java/parkour/hadoop/ProxyInputSplit.java:23-26 | the `(conf, args...)` constructor records the configuration and a handle created from that configuration and those arguments |
| Binding.SetConf | src/java/parkour/hadoop/ProxyInputSplit.java:48-53 | the configuration is always replaced; a handle is created with no arguments only when none is bound, and a bound handle is kept |
| Binding.BoundHandleKept | src/java/parkour/hadoop/ProxyInputSplit.java:51 | once bound, the handle survives any number of `setConf` calls, and the last configuration is the one recorded |
| Binding.LazyBindsFirst | src/java/parkour/hadoop/ProxyInputSplit.java:19-21 | a lazily constructed proxy configured several times holds the handle made from the first configuration, while recording the last one |
| Binding.SetConfIdempotent | src/java/parkour/hadoop/ProxyOutputFormat.java:28-32 | `setConf(c)` twice is `setConf(c)` once |
| Binding.LazyMatchesEager | src/java/parkour/hadoop/ProxyInputSplit.java:23-26 | configuring a lazily constructed proxy equals constructing it eagerly with no arguments |
| Binding.EagerIgnoresLaterConf | src/java/parkour/hadoop/ProxyInputSplit.java:23-26 | an eagerly built proxy keeps the handle made from its arguments whatever configurations follow |
| Binding.Rebind | src/java/parkour/hadoop/Partitioner.java:30-33 | `setConf` records the new configuration and the function resolved from it, whatever was bound before |
| Binding.RebindLastWins | src/java/parkour/hadoop/Partitioner.java:30-33 | after any non-empty sequence of `setConf` calls, only the last configuration matters |
| Binding.GuardedVersusRebound | src/java/parkour/hadoop/Partitioner.java:30-33 | configured with `c1` then `c2`, a lazy proxy holds the handle of `c1` while a partitioner holds the function of `c2` |
| ProxyInputSplits.ProxyInputSplit.Lazy | src/java/parkour/hadoop/ProxyInputSplit.java:19-21 | the no-argument constructor leaves the handle unbound |
| ProxyInputSplits.ProxyInputSplit.Eager | src/java/parkour/hadoop/ProxyInputSplit.java:23-26 | the eager constructor stores the configuration and binds `createSplit(conf, args)` |
| ProxyInputSplits.ProxyInputSplit.SetConf | src/java/parkour/hadoop/ProxyInputSplit.java:48-53 | the new fields are the guarded binding step applied to the old ones |
| ProxyInputSplits.ProxyInputSplit.GetConf | src/java/parkour/hadoop/ProxyInputSplit.java:55-58 | returns the stored configuration |
| ProxyInputSplits.ProxyInputSplit.GetLength | src/java/parkour/hadoop/ProxyInputSplit.java:28-31 | the bound handle's length, or a null dereference when unbound |
| ProxyInputSplits.ProxyInputSplit.GetLocations | src/java/parkour/hadoop/ProxyInputSplit.java:33-36 | the bound handle's locations, or a null dereference when unbound |
| ProxyInputSplits.ProxyInputSplit.Deref | src/java/parkour/hadoop/ProxyInputSplit.java:60-63 | the bound handle's value, or a null dereference when unbound |
| ProxyInputSplits.ProxyInputSplit.ReadFields | src/java/parkour/hadoop/ProxyInputSplit.java:38-41 | the handle is replaced by what the current handle reads from the stream; unbound, the call fails before reading |
| ProxyInputSplits.ProxyInputSplit.Write | src/java/parkour/hadoop/ProxyInputSplit.java:43-46 | the bound handle writes itself and no proxy field changes; unbound, nothing is written |
| ProxyInputSplits.Ship | src/java/parkour/hadoop/ProxyInputSplit.java:19-53 | written eagerly, then rebuilt with the no-argument constructor, configured and read, a split has the value of the split that was written, given that the inner codec round-trips |
| ProxyInputSplits.ShipUnconfigured | src/java/parkour/hadoop/ProxyInputSplit.java:39-41 | reading into a split that was never configured fails with a null dereference |
| ProxyOutputFormats.ProxyOutputFormat.Lazy | src/java/parkour/hadoop/ProxyOutputFormat.java:17-20 | the no-argument constructor leaves configuration and handle null |
| ProxyOutputFormats.ProxyOutputFormat.Eager | src/java/parkour/hadoop/ProxyOutputFormat.java:22-25 | the eager constructor stores the configuration and binds `createOutputFormat(conf, args)` |
| ProxyOutputFormats.ProxyOutputFormat.SetConf | src/java/parkour/hadoop/ProxyOutputFormat.java:27-32 | the new fields are the guarded binding step applied to the old ones |
| ProxyOutputFormats.ProxyOutputFormat.GetConf | src/java/parkour/hadoop/ProxyOutputFormat.java:34-37 | returns the stored configuration |
| ProxyOutputFormats.ProxyOutputFormat.GetRecordWriter | src/java/parkour/hadoop/ProxyOutputFormat.java:39-42 | forwards the context unchanged to the bound handle, or fails with a null dereference |
| ProxyOutputFormats.ProxyOutputFormat.CheckOutputSpecs | src/java/parkour/hadoop/ProxyOutputFormat.java:44-47 | the bound handle's verdict on the context, or a null dereference |
| ProxyOutputFormats.ProxyOutputFormat.GetOutputCommitter | src/java/parkour/hadoop/ProxyOutputFormat.java:49-52 | forwards the context unchanged to the bound handle, or fails with a null dereference |
| ProxyOutputFormats.ConfiguredTwice | src/java/parkour/hadoop/ProxyOutputFormat.java:27-42 | configured by the job and then by the task, a reflectively built format keeps the task's configuration but writes through the format made from the job's |
| Partitioners.WrapInt32 | src/java/parkour/hadoop/Partitioner.java:38 | the `(int)` cast lands in the `int` range and is congruent to its argument modulo 2^32 |
| Partitioners.WrapUnique | src/java/parkour/hadoop/Partitioner.java:38 | any `int` congruent to `x` modulo 2^32 is the cast of `x` |
| Partitioners.WrapInRange | src/java/parkour/hadoop/Partitioner.java:38 | the cast changes nothing inside the `int` range |
| Partitioners.PrimWrapsBoxedRefuses | src/java/parkour/hadoop/Partitioner.java:37-39 | a primitive result of 2^31 wraps to the most negative `int`, while the same boxed result raises |
| Partitioners.PathsAgreeInRange | src/java/parkour/hadoop/Partitioner.java:37-39 | inside the `int` range, the primitive and boxed paths give the same partition |
| Partitioners.Partition | src/java/parkour/hadoop/Partitioner.java:35-40 | a primitive function's `long` result is cast to `int` with wrap-around; a boxed result goes through `RT.intCast`, which refuses values outside the `int` range; any success is an `int` |
| Partitioners.Partitioner.constructor | src/java/parkour/hadoop/Partitioner.java:23-24 | a new partitioner has a null configuration and a null function |
| Partitioners.Partitioner.SetConf | src/java/parkour/hadoop/Partitioner.java:30-33 | configuration and function are both replaced on every call |
| Partitioners.Partitioner.GetConf | src/java/parkour/hadoop/Partitioner.java:26-28 | returns the stored configuration |
| Partitioners.Partitioner.GetPartition | src/java/parkour/hadoop/Partitioner.java:36-40 | key, value and count are passed unchanged to the bound function; with no function bound the call is a null dereference |
| Partitioners.NeverConfigured | src/java/parkour/hadoop/Partitioner.java:23-24 | a partitioner used before any `setConf` fails on its first call |
| Partitioners.Reconfigured | src/java/parkour/hadoop/Partitioner.java:30-40 | configured twice, a partitioner partitions with the function of the second configuration |
| EdnInputSplits.Length | src/java/parkour/hadoop/EdnInputSplit.java:53-58 | 0 when the length entry is absent (or the value is not a map); otherwise the entry as a `long`, failing outside that range |
| EdnInputSplits.Locations | src/java/parkour/hadoop/EdnInputSplit.java:60-65 | a stored `String[]` is returned as it is, an absent entry gives none, and a vector gives its string elements in order, with any other element refused |
| EdnInputSplits.WireValue | src/java/parkour/hadoop/EdnInputSplit.java:74 | only nil and maps can be written; anything else is a cast failure |
| EdnInputSplits.WireValueKeys | src/java/parkour/hadoop/EdnInputSplit.java:74 | the written value has no locations and agrees with the split's value under every other key |
| EdnInputSplits.RoundTrip | src/java/parkour/hadoop/EdnInputSplit.java:67-76 | when decoding inverts encoding, the value read back is the value without locations, with the same length and no locations |
| EdnInputSplits.EdnInputSplit.Empty | src/java/parkour/hadoop/EdnInputSplit.java:38-41 | configuration and value start null |
| EdnInputSplits.EdnInputSplit.OfValue | src/java/parkour/hadoop/EdnInputSplit.java:43-46 | holds the value, with no configuration |
| EdnInputSplits.EdnInputSplit.OfConfValue | src/java/parkour/hadoop/EdnInputSplit.java:48-51 | holds the configuration and the value |
| EdnInputSplits.EdnInputSplit.GetLength | src/java/parkour/hadoop/EdnInputSplit.java:53-58 | the length of the held value |
| EdnInputSplits.EdnInputSplit.GetLocations | src/java/parkour/hadoop/EdnInputSplit.java:60-65 | the locations of the held value |
| EdnInputSplits.EdnInputSplit.ReadFields | src/java/parkour/hadoop/EdnInputSplit.java:67-70 | the next string, read with the held configuration, becomes the value; on any failure the value is kept |
| EdnInputSplits.EdnInputSplit.Write | src/java/parkour/hadoop/EdnInputSplit.java:72-76 | the value without locations is printed with the held configuration; the split's own value is not changed |
| EdnInputSplits.EdnInputSplit.SetConf | src/java/parkour/hadoop/EdnInputSplit.java:78-81 | replaces the configuration and keeps the value |
| EdnInputSplits.EdnInputSplit.GetConf | src/java/parkour/hadoop/EdnInputSplit.java:83-86 | returns the held configuration |
| EdnInputSplits.EdnInputSplit.Deref | src/java/parkour/hadoop/EdnInputSplit.java:88-91 | returns the held value |
| EdnInputSplits.Ship | src/java/parkour/hadoop/EdnInputSplit.java:38-91 | a split shipped to a task arrives as its value without locations, with the sender's length and no locations, and the sender's value is left as it was |
| KeyRecordReaders.Initial | src/java/parkour/hadoop/KeyRecordSeqableRecordReader.java:18-27 | after construction every field is null or zero |
| KeyRecordReaders.Start | src/java/parkour/hadoop/KeyRecordSeqableRecordReader.java:51-59 | `initialize` clears the key, sets `current` to 0 and `total` to the element count, and positions at the first element |
| KeyRecordReaders.Next | src/java/parkour/hadoop/KeyRecordSeqableRecordReader.java:61-68 | false, changing nothing, exactly when the sequence is exhausted; otherwise the next element becomes the key and `current` grows by one |
| KeyRecordReaders.NextTracks | src/java/parkour/hadoop/KeyRecordSeqableRecordReader.java:61-68 | one step keeps the reader tracking its elements, and succeeds exactly while elements remain |
| KeyRecordReaders.AdvanceTracks | src/java/parkour/hadoop/KeyRecordSeqableRecordReader.java:61-68 | `n` steps answer true exactly for the remaining elements, stop at the end, and leave the key at the last element passed |
| KeyRecordReaders.ReadsEachKeyOnce | src/java/parkour/hadoop/KeyRecordSeqableRecordReader.java:51-68 | after `initialize` the reader answers true exactly `total` times and then false, and the key stays at the last element after the end |
| KeyRecordReaders.ProgressAsWritten | src/java/parkour/hadoop/KeyRecordSeqableRecordReader.java:45-49 | as written, progress is never below 1 |
| KeyRecordReaders.ProgressAsWrittenAlwaysOne | src/java/parkour/hadoop/KeyRecordSeqableRecordReader.java:48 | as written, progress is exactly 1 in every reachable state |
| KeyRecordReaders.ProgressAsWrittenAtStart | src/java/parkour/hadoop/KeyRecordSeqableRecordReader.java:48 | a reader that has read none of four keys reports progress 1 |
| KeyRecordReaders.Progress | src/java/parkour/hadoop/KeyRecordSeqableRecordReader.java:45-49 | corrected progress is at most 1, and 1 once the sequence is exhausted |
| KeyRecordReaders.ProgressIsFraction | src/java/parkour/hadoop/KeyRecordSeqableRecordReader.java:48 | corrected progress is the fraction read: between 0 and 1, 0 at the start of a non-empty collection, 1 at the end |
| KeyRecordReaders.ProgressMonotone | src/java/parkour/hadoop/KeyRecordSeqableRecordReader.java:48 | corrected progress never decreases as records are read |
| KeyRecordReaders.KeyRecordSeqableRecordReader.constructor | src/java/parkour/hadoop/KeyRecordSeqableRecordReader.java:25-27 | only the function is set; every other field is null or zero |
| KeyRecordReaders.KeyRecordSeqableRecordReader.Initialize | src/java/parkour/hadoop/KeyRecordSeqableRecordReader.java:51-59 | the fields become the initial state for the collection the function returns for the split and context |
| KeyRecordReaders.KeyRecordSeqableRecordReader.NextKeyValue | src/java/parkour/hadoop/KeyRecordSeqableRecordReader.java:61-68 | the fields and the result are one step of the reader, and the tracking invariant is kept |
| KeyRecordReaders.KeyRecordSeqableRecordReader.GetCurrentKey | src/java/parkour/hadoop/KeyRecordSeqableRecordReader.java:34-37 | returns the current key |
| KeyRecordReaders.KeyRecordSeqableRecordReader.GetCurrentValue | src/java/parkour/hadoop/KeyRecordSeqableRecordReader.java:39-43 | the value is always the one `NullWritable`, in every state |
| KeyRecordReaders.KeyRecordSeqableRecordReader.GetProgress | src/java/parkour/hadoop/KeyRecordSeqableRecordReader.java:45-49 | a progress between 0 and 1: 1 before `initialize`, the corrected fraction afterwards |
| KeyRecordReaders.KeyRecordSeqableRecordReader.Close | src/java/parkour/hadoop/KeyRecordSeqableRecordReader.java:29-32 | closes the records exactly when they are closeable, and changes no reader field |
| AvroKeyValueReaders.ReaderSchema | src/java/parkour/hadoop/ClojureAvroKeyValueRecordReader.java:18-19 | null exactly when either schema is null; otherwise the key-value pair of the two |
| AvroKeyValueReaders.Datum.constructor | src/java/parkour/hadoop/ClojureAvroKeyValueRecordReader.java:20-21 | a new `AvroKey`/`AvroValue` holder holds null |
| AvroKeyValueReaders.ClojureAvroKeyValueRecordReader.constructor | src/java/parkour/hadoop/ClojureAvroKeyValueRecordReader.java:18-22 | the reader schema is selected as above, and two distinct new holders start null |
| AvroKeyValueReaders.ClojureAvroKeyValueRecordReader.NextKeyValue | src/java/parkour/hadoop/ClojureAvroKeyValueRecordReader.java:24-37 | returns the base reader's answer; on a record, its elements 0 and 1 go into the key and value holders in that order; at the end, both holders are cleared |
| AvroKeyValueReaders.ClojureAvroKeyValueRecordReader.GetCurrentKey | src/java/parkour/hadoop/ClojureAvroKeyValueRecordReader.java:39-42 | always the same key holder |
| AvroKeyValueReaders.ClojureAvroKeyValueRecordReader.GetCurrentValue | src/java/parkour/hadoop/ClojureAvroKeyValueRecordReader.java:44-48 | always the same value holder |
| AvroKeyValueReaders.HoldersReused | src/java/parkour/hadoop/ClojureAvroKeyValueRecordReader.java:15-48 | holders obtained before two reads show the key and value of the second record |
| AvroKeyValueReaders.ClearedAtEnd | src/java/parkour/hadoop/ClojureAvroKeyValueRecordReader.java:32-35 | after the last record, the answer is false and both holders read as null |
| Mux.InputFormat.constructor | src/java/parkour/hadoop/Mux.java:25-30 | the inner format is the result of calling `input-format` with no arguments, bound once |
| Mux.CreateSplitCall | src/java/parkour/hadoop/Mux.java:41-43 | `input-split*` receives the configuration followed by the caller's arguments, in order |
| Mux.CreateSplitNoArgs | src/java/parkour/hadoop/Mux.java:41-43 | with no arguments, the configuration is the only one passed |
| Mux.LazySplitGetsConfOnly | src/java/parkour/hadoop/Mux.java:33-43 | a split bound by `setConf` was created from the first configuration alone |
| Mux.ConfiguredSplit | src/java/parkour/hadoop/Mux.java:33-43 | a reflectively built, configured mux split holds the `input-split*` call on that configuration |
| Mux.InnerSplit | src/java/parkour/hadoop/Mux.java:56-57 | element 1 of the dereferenced value, when it is a split or null; a non-dereferenceable split or another element is a cast failure; a shorter vector is an index failure |
| Mux.TagNeverHandedOn | src/java/parkour/hadoop/Mux.java:56-57 | for `[tag split ...]` the unwrapped split is `split`, never the tag |
| Mux.RecordReader.constructor | src/java/parkour/hadoop/Mux.java:46-49 | the reader wraps exactly the given inner reader |
| Mux.RecordReader.Initialize | src/java/parkour/hadoop/Mux.java:51-59 | the wrapped reader is initialised once, with the unwrapped split and the same context, or not at all |
| Mux.InitializeOnce | src/java/parkour/hadoop/Mux.java:51-59 | initialising on `[tag split]` initialises the wrapped reader exactly once, on `split` |
| Mux.MapperRun | src/java/parkour/hadoop/Mux.java:64-66 | `mapper` is invoked with the task configuration alone, no user-named namespace is required, and the context is run once, last |

## Left out

- The Clojure runtime. `require` is a `Dispatch.Require` action, and a var looked up with `RT.var` and then called with `invoke` or `applyTo` is one `Dispatch.Invoke` action. Loading a namespace or invoking a var is taken to succeed. What the namespaces `parkour.remote.input`, `parkour.remote.mux`, `parkour.mapreduce.tasks` and `parkour.cser` do is not modelled.
- The one-time `require` in each nested `Vars` class's static initialiser is not in the traces. The JVM runs it once, when one of that `Vars` class's own static fields is first used (src/java/parkour/hadoop/InputFormats.java:17-24, 37).
- The casts of values returned by Clojure (to `IFn`, `List`, `RecordReader`, `IInputSplit`, `IOutputFormat`) are not modelled. The Clojure side is trusted to return the right kind of object. The same goes for exceptions that Clojure functions raise.
- Text.ParseLong: accepts ASCII digits only. Java's `Long.parseLong` also accepts other Unicode decimal digits.
- EdnInputSplits.Locations: refuses a nil element as not a string. Java would store `null` in the `String[]`, which the model's locations cannot express.
- Edn.LongCast: the value model has no floating-point or ratio numbers, so `RT.longCast` truncating a double is not modelled. An `Int` outside the `long` range stands for a `BigInt`, which `RT.longCast` refuses.
- KeyRecordReaders.KeyRecordSeqableRecordReader.GetProgress: progress is a real number, so the rounding of the `(float)` cast is not modelled. The method uses the corrected comparison (see Findings).
- KeyRecordReaders.Start: `total` and `current` are Java `int`s. Their overflow past 2^31 - 1 elements is not modelled.
- The inner split's serialised form is one string on the stream (`ProxyInputSplits.SplitOps.readSplit`). An inner split that reads several strings, or fails while reading, is not modelled.
- Hadoop's `DataInput`/`DataOutput` and `Text.writeString` are a queue of whole strings (`Host.DataChannel`). The length-prefixed byte encoding is not modelled.
- Avro file reading, sync points and the reader/writer schema resolution of `AvroRecordReaderBase` are not modelled. The base reader is a queue of decoded records.
- ClojureAvroKeyValueInputFormat.java is not part of this model. It passes the input key schema for both halves of the pair (src/java/parkour/hadoop/ClojureAvroKeyValueInputFormat.java:26), so the record reader it builds is given the key schema in place of the value schema.
- ProxyRecordReader.java is not part of this model. The forwarding methods `Mux.RecordReader` inherits from it are left out; only its `initialize` override is modelled.
- ProxyInputFormat.java is not part of this model beyond the handle `Mux.InputFormat` passes it. Its forwarding of `getSplits` and `createRecordReader` is left out.
- Dux, Mem, Sample, the `input/Multiplex*` classes, WrapperRecordReader, ProxyRecordWriter, ProxyOutputCommitter, the `I*` interfaces, AvroKeyGroupingComparator and ClojureDatumMapping are not part of this model. They delegate one-to-one to Clojure or Avro code.
- Task contexts carry only an id and a configuration. Hadoop's scheduling, counters and the rest of the context are left out, and so is concurrency.
- A `null` configuration passed to a constructor or to `setConf` is not modelled. Only the fields' initial `null` is.

## Findings

| source | as written | input that shows it | evidently intended | confidence | as-written member | corrected member |
|---|---|---|---|---|---|---|
| src/java/parkour/hadoop/KeyRecordSeqableRecordReader.java:48 | `Math.max((double) current / (double) total, 1.0)` | a reader initialised on four keys, none read yet, reports progress 1.0 | `Math.min`, so progress is the fraction of keys read, from 0 to 1 | not executed | KeyRecordReaders.ProgressAsWrittenAtStart | KeyRecordReaders.ProgressIsFraction |
