/**
 * The host environment the Java layer runs in, reduced to values: the job
 * configuration, task contexts, the exceptions the code can raise, and the
 * Hadoop byte streams seen as a channel of length-prefixed strings.
 */
module Host {

  /** The ranges of Java's `int` and `long`. */
  const IntMin: int := -0x8000_0000
  const IntMax: int := 0x7fff_ffff
  const LongMin: int := -0x8000_0000_0000_0000
  const LongMax: int := 0x7fff_ffff_ffff_ffff

  /** A Hadoop `Configuration`: a flat string-to-string map. */
  type Conf = map<string, string>

  /** A Hadoop job or task context; only its configuration is looked at. */
  datatype Context = Context(id: nat, conf: Conf)

  /** The exceptions the modelled code can raise. */
  datatype Error =
    | ConfigurationMissing(key: string)  // `conf.get(key)` returned null and was dereferenced
    | NullReference                      // a method called on a handle that was never bound
    | IndexOutOfBounds(index: int)       // array or vector index past the end
    | NumberFormat(text: string)         // `Long.parseLong` refused its argument
    | ClassCast                          // a value of the wrong runtime class
    | IllegalArgument                    // a value that cannot be made a sequence, or out of range
    | UnsupportedOperation               // `nth` on a value that is not indexed
    | ArrayStore                         // a non-string stored into a `String[]`
    | EndOfStream                        // reading past the end of the input stream
    | Decode(reason: string)             // the textual codec failed

  datatype Option<+T> = None | Some(value: T)

  datatype Result<+T> = Success(value: T) | Failure(error: Error) {
    predicate IsFailure() { Failure? }
    function PropagateFailure<U>(): Result<U>
      requires Failure?
    {
      Failure(error)
    }
    function Extract(): T
      requires Success?
    {
      value
    }
  }

  /**
   * A Hadoop `DataInput`/`DataOutput` as seen through `Text.writeString` and
   * `Text.readString`: a queue of strings, each written and read whole.
   */
  class DataChannel {
    var items: seq<string>

    constructor (items: seq<string>)
      ensures this.items == items
    {
      this.items := items;
    }

    method WriteString(s: string)
      modifies this
      ensures items == old(items) + [s]
    {
      items := items + [s];
    }

    method ReadString() returns (r: Result<string>)
      modifies this
      ensures old(items) == [] ==> r == Failure(EndOfStream) && items == old(items)
      ensures old(items) != [] ==> r == Success(old(items)[0]) && items == old(items)[1..]
    {
      if items == [] {
        r := Failure(EndOfStream);
      } else {
        r := Success(items[0]);
        items := items[1..];
      }
    }
  }
}
