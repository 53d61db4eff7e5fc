/**
 `proton::map`: a decoded map and an encoded value that take turns being the authority,
 decoding on demand. The encoded form is modelled by what it decodes to; values that are
 not maps make decoding throw.
 */
module PropertyMap {
  import opened Common

  type Key = string
  type Val = int
  type Entries = map<Key, Val>

  const NO_VALUE: Val := 0

  /** An AMQP value: null, an encoded map, or something else. */
  datatype Value = Nothing | MapValue(entries: Entries) | OtherValue

  /** A map object: `map_` and `value_`. */
  datatype Store = Store(cache: Option<Entries>, value: Value)

  datatype Op =
    | Get(key: Key)
    | Put(key: Key, val: Val)
    | Erase(key: Key)
    | Exists(key: Key)
    | Size
    | IsEmpty
    | Clear
    | Assign(entries: Entries)
    | SetValue(value: Value)
    | GetValue

  datatype Result = Unit | Is(val: Val) | Yes(yes: bool) | Count(n: nat) | Encoded(value: Value) | Thrown

  // ---------- The two-representation map ----------

  /** `cache`: make the decoded map current. A value that is not a map throws, and leaves an empty map behind. */
  function Loaded(s: Store): Store {
    if s.cache.Some? then s
    else match s.value
      case Nothing => s.(cache := Some(map[]))
      case MapValue(m) => Store(Some(m), Nothing)
      case OtherValue => s.(cache := Some(map[]))
  }

  /** Loading throws, and so does looking whether the map is empty. */
  predicate LoadThrows(s: Store) {
    s.cache.None? && s.value.OtherValue?
  }

  /** `flush`: make the encoded value current; an empty map is encoded as one. */
  function Flushed(s: Store): Store {
    if s.cache.Some? then Store(None, MapValue(s.cache.value))
    else if s.value.Nothing? then s.(value := MapValue(map[]))
    else s
  }

  /** `empty`: decodes only if there is an encoded value and no decoded map. */
  function Peeked(s: Store): Store {
    if s.cache.None? && s.value != Nothing then Loaded(s) else s
  }

  predicate LooksEmpty(s: Store) {
    var p := Peeked(s);
    p.cache.None? || p.cache.value == map[]
  }

  /** One operation: the new object and the result. */
  function Apply(s: Store, op: Op): (r: (Store, Result)) {
    match op
    case Put(k, v) =>
      if LoadThrows(s) then (Loaded(s), Thrown)
      else var c := Loaded(s); (c.(cache := Some(c.cache.value[k := v])), Unit)
    case Clear => (Store(None, Nothing), Unit)
    case Assign(m) => (s.(cache := Some(m)), Unit)
    case SetValue(x) =>
      if x == Nothing then (Store(None, Nothing), Unit)
      else if x.OtherValue? then (s, Thrown)
      else (Store(Some(x.entries), Nothing), Unit)
    case GetValue => (Flushed(s), Encoded(Flushed(s).value))
    case Erase(k) =>
      if LoadThrows(s) then (Peeked(s), Thrown)
      else if LooksEmpty(s) then (Peeked(s), EmptyResult(op))
      else
        var c := Loaded(Peeked(s));
        var m := c.cache.value;
        (c.(cache := Some(m - {k})), Count(if k in m then 1 else 0))
    case _ =>
      if LoadThrows(s) then (Peeked(s), Thrown)
      else if LooksEmpty(s) then (Peeked(s), EmptyResult(op))
      else var c := Loaded(Peeked(s)); (c, Query(c.cache.value, op))
  }

  /** What the reading operations return without looking into an empty map. */
  function EmptyResult(op: Op): Result {
    match op
    case Get(_) => Is(NO_VALUE)
    case Erase(_) => Count(0)
    case Exists(_) => Yes(false)
    case Size => Count(0)
    case _ => Yes(true)
  }

  function Query(m: Entries, op: Op): Result {
    match op
    case Get(k) => Is(if k in m then m[k] else NO_VALUE)
    case Exists(k) => Yes(k in m)
    case Size => Count(|m|)
    case IsEmpty => Yes(m == map[])
    case _ => Unit
  }

  // ---------- The plain map it stands for ----------

  function PlainApply(m: Entries, op: Op): (r: (Entries, Result)) {
    match op
    case Get(k) => (m, if k in m then Is(m[k]) else Is(NO_VALUE))
    case Exists(k) => (m, Yes(k in m))
    case Size => (m, Count(|m|))
    case IsEmpty => (m, Yes(m == map[]))
    case Put(k, v) => (m[k := v], Unit)
    case Erase(k) => (m - {k}, Count(if k in m then 1 else 0))
    case Clear => (map[], Unit)
    case Assign(n) => (n, Unit)
    case SetValue(x) =>
      (match x
       case Nothing => (map[], Unit)
       case MapValue(n) => (n, Unit)
       case OtherValue => (m, Thrown))
    case GetValue => (m, Encoded(MapValue(m)))
  }

  /** The map an object stands for. */
  function Model(s: Store): Entries {
    if s.cache.Some? then s.cache.value else if s.value.MapValue? then s.value.entries else map[]
  }

  /** The object can be decoded. */
  predicate Ready(s: Store) {
    s.cache.Some? || !s.value.OtherValue?
  }

  lemma EmptyMapSize(m: Entries)
    ensures |m| == 0 <==> m == map[]
  {
    if |m| == 0 {
      assert m.Keys == {};
    }
  }

  lemma AgreesOnce(s: Store, op: Op)
    requires Ready(s)
    ensures Ready(Apply(s, op).0)
    ensures (Model(Apply(s, op).0), Apply(s, op).1) == PlainApply(Model(s), op)
  {
    EmptyMapSize(Model(s));
    if op.Erase? && LooksEmpty(s) {
      assert Model(s) - {op.key} == Model(s);
    }
  }

  function ApplyAll(s: Store, ops: seq<Op>): (r: (Store, seq<Result>)) {
    if ops == [] then (s, [])
    else
      var (t, results) := ApplyAll(s, ops[..|ops| - 1]);
      var (u, result) := Apply(t, ops[|ops| - 1]);
      (u, results + [result])
  }

  function PlainApplyAll(m: Entries, ops: seq<Op>): (r: (Entries, seq<Result>)) {
    if ops == [] then (m, [])
    else
      var (n, results) := PlainApplyAll(m, ops[..|ops| - 1]);
      var (k, result) := PlainApply(n, ops[|ops| - 1]);
      (k, results + [result])
  }

  /** Every sequence of operations returns what one plain map would return. */
  lemma {:induction false} AgreesWithPlainMap(s: Store, ops: seq<Op>)
    requires Ready(s)
    ensures Ready(ApplyAll(s, ops).0)
    ensures Model(ApplyAll(s, ops).0) == PlainApplyAll(Model(s), ops).0
    ensures ApplyAll(s, ops).1 == PlainApplyAll(Model(s), ops).1
  {
    if ops != [] {
      var init := ops[..|ops| - 1];
      AgreesWithPlainMap(s, init);
      AgreesOnce(ApplyAll(s, init).0, ops[|ops| - 1]);
    }
  }

  // ---------- What reading finds ----------

  /** What an operation returns after a history of others. */
  function ResultAfter(s: Store, ops: seq<Op>, op: Op): Result {
    Apply(ApplyAll(s, ops).0, op).1
  }

  function Lookup(m: Entries, k: Key): Option<Val> {
    if k in m then Some(m[k]) else None
  }

  /** What an operation makes of a key: nothing, or its value from then on, if it has one. */
  function WriteOf(op: Op, k: Key): Option<Option<Val>> {
    match op
    case Put(key, v) => if key == k then Some(Some(v)) else None
    case Erase(key) => if key == k then Some(None) else None
    case Clear => Some(None)
    case Assign(m) => Some(Lookup(m, k))
    case SetValue(x) =>
      (match x
       case Nothing => Some(None)
       case MapValue(m) => Some(Lookup(m, k))
       case OtherValue => None)
    case _ => None
  }

  /** The last write to a key in a history, or else what was there before. */
  function LastWrite(before: Option<Val>, ops: seq<Op>, k: Key): Option<Val> {
    if ops == [] then before
    else
      var w := WriteOf(ops[|ops| - 1], k);
      if w.Some? then w.value else LastWrite(before, ops[..|ops| - 1], k)
  }

  lemma WriteIsFound(s: Store, op: Op, k: Key)
    requires Ready(s)
    ensures var w := WriteOf(op, k);
      Lookup(Model(Apply(s, op).0), k) == if w.Some? then w.value else Lookup(Model(s), k)
  {
    AgreesOnce(s, op);
  }

  /** After every history, reading a key finds what was last written to it, whatever was done to other keys. */
  lemma {:induction false} ReadsLastWrite(s: Store, ops: seq<Op>, k: Key)
    requires Ready(s)
    ensures var found := LastWrite(Lookup(Model(s), k), ops, k);
      && Lookup(Model(ApplyAll(s, ops).0), k) == found
      && ResultAfter(s, ops, Get(k)) == Is(if found.Some? then found.value else NO_VALUE)
      && ResultAfter(s, ops, Exists(k)) == Yes(found.Some?)
      && ResultAfter(s, ops, Erase(k)) == Count(if found.Some? then 1 else 0)
  {
    AgreesWithPlainMap(s, ops);
    if ops != [] {
      var init := ops[..|ops| - 1];
      ReadsLastWrite(s, init, k);
      AgreesWithPlainMap(s, init);
      WriteIsFound(ApplyAll(s, init).0, ops[|ops| - 1], k);
    }
    var t := ApplyAll(s, ops).0;
    AgreesOnce(t, Get(k));
    AgreesOnce(t, Exists(k));
    AgreesOnce(t, Erase(k));
  }

  /** After every history, `size` is the number of keys that exist, and `empty` says that there are none. */
  lemma SizeCountsKeys(s: Store, ops: seq<Op>) returns (keys: set<Key>)
    requires Ready(s)
    ensures forall k :: ResultAfter(s, ops, Exists(k)) == Yes(k in keys)
    ensures ResultAfter(s, ops, Size) == Count(|keys|)
    ensures ResultAfter(s, ops, IsEmpty) == Yes(keys == {})
  {
    AgreesWithPlainMap(s, ops);
    var t := ApplyAll(s, ops).0;
    keys := Model(t).Keys;
    forall k ensures ResultAfter(s, ops, Exists(k)) == Yes(k in keys) {
      AgreesOnce(t, Exists(k));
    }
    AgreesOnce(t, Size);
    AgreesOnce(t, IsEmpty);
    assert |Model(t)| == |keys|;
  }

  lemma AddedKey(m: Entries, k: Key, v: Val)
    ensures |m[k := v]| == |m| + (if k in m then 0 else 1)
  {
    assert m[k := v].Keys == m.Keys + {k};
  }

  /** Putting a key makes the map larger by one exactly when the key did not exist. */
  lemma PutGrowsIff(s: Store, ops: seq<Op>, k: Key, v: Val)
    requires Ready(s)
    ensures ResultAfter(s, ops, Size).Count? && ResultAfter(s, ops + [Put(k, v)], Size).Count?
    ensures ResultAfter(s, ops + [Put(k, v)], Size).n ==
      ResultAfter(s, ops, Size).n + (if ResultAfter(s, ops, Exists(k)) == Yes(true) then 0 else 1)
  {
    AgreesWithPlainMap(s, ops);
    var t := ApplyAll(s, ops).0;
    AgreesOnce(t, Size);
    AgreesOnce(t, Exists(k));
    AgreesOnce(t, Put(k, v));
    AgreesOnce(Apply(t, Put(k, v)).0, Size);
    AddedKey(Model(t), k, v);
    assert (ops + [Put(k, v)])[..|ops|] == ops;
  }

  /** What `value()` encodes, given to any other map object, makes it stand for the same map. */
  lemma ValueRoundTrip(s: Store, ops: seq<Op>, other: Store)
    requires Ready(s)
    ensures ResultAfter(s, ops, GetValue).Encoded?
    ensures Model(Apply(other, SetValue(ResultAfter(s, ops, GetValue).value)).0) == Model(ApplyAll(s, ops).0)
    ensures Model(Apply(ApplyAll(s, ops).0, GetValue).0) == Model(ApplyAll(s, ops).0)
  {
    AgreesWithPlainMap(s, ops);
    AgreesOnce(ApplyAll(s, ops).0, GetValue);
  }

  /** A value that is not a map throws once; afterwards the object behaves as an empty map. */
  lemma BadValueThrowsOnce(s: Store, op: Op)
    requires !Ready(s) && !op.Clear? && !op.Assign? && !op.SetValue? && !op.GetValue?
    ensures Apply(s, op).1 == Thrown && Ready(Apply(s, op).0) && Model(Apply(s, op).0) == map[]
    ensures Apply(s, op).0.value == s.value
  {
  }
}
