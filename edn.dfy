/**
 * The Clojure values the Java classes handle, and the few runtime
 * operations they apply to them (`RT.get` through a keyword, `RT.dissoc`,
 * `RT.seq`, `RT.nth`, `RT.longCast`, `RT.intCast`). The textual EDN codec
 * itself (`pr-str` / `read-string`) is a pair of opaque functions.
 */
module Edn {
  import opened Host

  datatype Keyword = Keyword(ns: string, name: string)

  datatype Value =
    | Nil
    | Int(i: int)                          // an integral number of any width
    | Chr(c: char)
    | Str(s: string)
    | Kw(k: Keyword)
    | Vec(items: seq<Value>)               // a vector, list or seq
    | StrArray(strs: seq<string>)          // a Java `String[]`
    | Dict(entries: seq<(Value, Value)>)   // a map, entries in iteration order
    | Obj(id: nat)                         // an opaque host object, e.g. an `InputSplit`

  /** Entry `i` is the first one whose key is `key`. */
  predicate FirstWithKey(entries: seq<(Value, Value)>, key: Value, i: nat)
    requires i < |entries|
  {
    entries[i].0 == key && forall j :: 0 <= j < i ==> entries[j].0 != key
  }

  /** The value stored under `key` in a map's entries (the first match), or nil. */
  function Lookup(entries: seq<(Value, Value)>, key: Value): (r: Value)
    ensures (forall e :: e in entries ==> e.0 != key) ==> r == Nil
    ensures forall i :: 0 <= i < |entries| && FirstWithKey(entries, key, i) ==> r == entries[i].1
    ensures r != Nil ==> exists i :: 0 <= i < |entries| && entries[i] == (key, r) &&
                                     forall j :: 0 <= j < i ==> entries[j].0 != key
  {
    if entries == [] then Nil
    else if entries[0].0 == key then entries[0].1
    else Lookup(entries[1..], key)
  }

  /** `(key v)` for a keyword `key`: a map lookup, nil for anything that is not a map. */
  function Get(v: Value, key: Value): (r: Value)
    ensures !v.Dict? ==> r == Nil
    ensures v.Dict? && (forall e :: e in v.entries ==> e.0 != key) ==> r == Nil
    ensures r != Nil ==> v.Dict? && (key, r) in v.entries
    ensures v.Dict? ==> forall i :: 0 <= i < |v.entries| && FirstWithKey(v.entries, key, i) ==> r == v.entries[i].1
  {
    if v.Dict? then Lookup(v.entries, key) else Nil
  }

  /** The entries without any entry for `key`, order kept. */
  function Without(entries: seq<(Value, Value)>, key: Value): (r: seq<(Value, Value)>)
    ensures forall e :: e in r ==> e in entries && e.0 != key
  {
    if entries == [] then []
    else if entries[0].0 == key then Without(entries[1..], key)
    else [entries[0]] + Without(entries[1..], key)
  }

  /** `RT.dissoc(v, key)`: nil stays nil, a map loses `key`, anything else is not a map. */
  function Dissoc(v: Value, key: Value): (r: Result<Value>)
    ensures r.Success? <==> v.Nil? || v.Dict?
  {
    match v
    case Nil => Success(Nil)
    case Dict(es) => Success(Dict(Without(es, key)))
    case _ => Failure(ClassCast)
  }

  lemma {:induction false} LookupWithout(entries: seq<(Value, Value)>, key: Value, other: Value)
    ensures Lookup(Without(entries, key), key) == Nil
    ensures other != key ==> Lookup(Without(entries, key), other) == Lookup(entries, other)
  {
    if entries != [] {
      LookupWithout(entries[1..], key, other);
    }
  }

  /** After `dissoc`, the key is absent and every other key reads as before. */
  lemma DissocGet(v: Value, key: Value, other: Value)
    requires Dissoc(v, key).Success?
    ensures Get(Dissoc(v, key).value, key) == Nil
    ensures other != key ==> Get(Dissoc(v, key).value, other) == Get(v, other)
  {
    if v.Dict? {
      LookupWithout(v.entries, key, other);
    }
  }

  /**
   * `RT.seq(v)` read out completely: nil gives no elements, collections
   * their elements in order (a map its entries as two-element vectors, a
   * string its characters); a scalar cannot be made a sequence.
   */
  function SeqOf(v: Value): (r: Result<seq<Value>>)
    ensures v.Nil? ==> r == Success([])
    ensures v.Vec? ==> r == Success(v.items)
    ensures r.Success? ==> !(v.Int? || v.Chr? || v.Kw? || v.Obj?)
  {
    match v
    case Nil => Success([])
    case Vec(items) => Success(items)
    case StrArray(strs) => Success(seq(|strs|, i requires 0 <= i < |strs| => Str(strs[i])))
    case Str(s) => Success(seq(|s|, i requires 0 <= i < |s| => Chr(s[i])))
    case Dict(es) => Success(seq(|es|, i requires 0 <= i < |es| => Vec([es[i].0, es[i].1])))
    case _ => Failure(IllegalArgument)
  }

  /** Elements stored into a `String[]`: every element must be a string. */
  function AsStrings(vs: seq<Value>): (r: Result<seq<string>>)
    ensures r.Success? <==> forall i :: 0 <= i < |vs| ==> vs[i].Str?
    ensures r.Success? ==> |r.value| == |vs| && forall i :: 0 <= i < |vs| ==> r.value[i] == vs[i].s
  {
    if vs == [] then Success([])
    else if !vs[0].Str? then Failure(ArrayStore)
    else match AsStrings(vs[1..])
      case Failure(e) => Failure(e)
      case Success(rest) => Success([vs[0].s] + rest)
  }

  /** `RT.nth(v, n)`: nil gives nil, indexed values their element, other values refuse. */
  function Nth(v: Value, n: nat): (r: Result<Value>)
    ensures v.Vec? && n < |v.items| ==> r == Success(v.items[n])
    ensures v.Vec? && n >= |v.items| ==> r == Failure(IndexOutOfBounds(n))
  {
    match v
    case Nil => Success(Nil)
    case Vec(items) => if n < |items| then Success(items[n]) else Failure(IndexOutOfBounds(n))
    case StrArray(strs) => if n < |strs| then Success(Str(strs[n])) else Failure(IndexOutOfBounds(n))
    case Str(s) => if n < |s| then Success(Chr(s[n])) else Failure(IndexOutOfBounds(n))
    case _ => Failure(UnsupportedOperation)
  }

  /**
   * `RT.longCast(v)`: integers inside 64 bits, characters by code; nil is
   * dereferenced as a number, and any other value is not a number.
   */
  function LongCast(v: Value): (r: Result<int>)
    ensures r.Success? ==> LongMin <= r.value <= LongMax
    ensures v.Int? ==> (r.Success? <==> LongMin <= v.i <= LongMax)
    ensures v.Int? && r.Success? ==> r.value == v.i
    ensures v.Int? && r.Failure? ==> r.error == IllegalArgument
    ensures v.Chr? ==> r == Success(v.c as int)
    ensures v.Nil? ==> r == Failure(NullReference)
    ensures !(v.Nil? || v.Int? || v.Chr?) ==> r == Failure(ClassCast)
  {
    match v
    case Nil => Failure(NullReference)
    case Int(i) => if LongMin <= i <= LongMax then Success(i) else Failure(IllegalArgument)
    case Chr(c) => Success(c as int)
    case _ => Failure(ClassCast)
  }

  /**
   * `RT.intCast(v)`: integers inside 32 bits, characters by code; nil is
   * unboxed as a character, and any other value is not a number.
   */
  function IntCast(v: Value): (r: Result<int>)
    ensures r.Success? ==> IntMin <= r.value <= IntMax
    ensures v.Int? ==> (r.Success? <==> IntMin <= v.i <= IntMax)
    ensures v.Int? && r.Success? ==> r.value == v.i
    ensures v.Int? && r.Failure? ==> r.error == IllegalArgument
    ensures v.Chr? ==> r == Success(v.c as int)
    ensures v.Nil? ==> r == Failure(NullReference)
    ensures !(v.Nil? || v.Int? || v.Chr?) ==> r == Failure(ClassCast)
  {
    match v
    case Nil => Failure(NullReference)
    case Int(i) => if IntMin <= i <= IntMax then Success(i) else Failure(IllegalArgument)
    case Chr(c) => Success(c as int)
    case _ => Failure(ClassCast)
  }

  /**
   * The textual codec of `parkour.cser`: `pr-str` and `read-string`, each
   * given the configuration in hand (which may be null).
   */
  datatype Codec = Codec(
    prStr: (Option<Conf>, Value) -> string,
    readString: (Option<Conf>, string) -> Result<Value>)

  /** Reading with `reader` what was printed with `writer` gives the value back. */
  ghost predicate Inverts(codec: Codec, writer: Option<Conf>, reader: Option<Conf>) {
    forall v :: codec.readString(reader, codec.prStr(writer, v)) == Success(v)
  }
}
