/**
 The application properties of a message: a `PropertyMap` whose encoded value is, once
 accessed, the message's own data, and the encoder, which turns that data into raw bytes
 and clears it.
 */
module MessageProperties {
  import opened Common
  import opened PropertyMap

  /**
   A message's properties: the map object's decoded map, whether its encoded value is the
   message's own data, its private value if not, that data, and the raw section.
   */
  datatype Msg = Msg(cache: Option<Entries>, linked: bool, own: Value, data: Value, raw: Value)

  const BLANK := Msg(None, false, Nothing, Nothing, Nothing)

  function StoreOf(m: Msg): Store {
    Store(m.cache, if m.linked then m.data else m.own)
  }

  function WithStore(m: Msg, s: Store): Msg {
    if m.linked then m.(cache := s.cache, data := s.value) else m.(cache := s.cache, own := s.value)
  }

  /** `pn_message_properties`: raw bytes, if any, replace the data. */
  function Unpacked(m: Msg): Msg {
    if m.raw == Nothing then m else m.(data := m.raw, raw := Nothing)
  }

  /** `reset`: point the map object at the message's data. */
  function Linked(m: Msg): Msg {
    m.(cache := None, linked := true, own := Nothing)
  }

  /** `empty()` on the map object, which may decode its value. */
  function PeekedAt(m: Msg): Msg {
    WithStore(m, Peeked(StoreOf(m)))
  }

  /** `message::properties()`: an empty map object is pointed at the message's data. */
  function Accessed(m: Msg): Msg {
    if LooksEmpty(StoreOf(m)) then Linked(Unpacked(PeekedAt(m))) else PeekedAt(m)
  }

  /** An operation through the accessor. */
  function Through(m: Msg, op: Op): (r: (Msg, Result)) {
    if LoadThrows(StoreOf(m)) then (PeekedAt(m), Thrown)
    else
      var a := Accessed(m);
      var (s, result) := Apply(StoreOf(a), op);
      (WithStore(a, s), result)
  }

  /** `message::encode`: flush a map that is not empty, pack the data, write the raw section. */
  function Packed(m: Msg): Msg {
    var p := PeekedAt(m);
    var f := if LooksEmpty(StoreOf(m)) then p else WithStore(p, Flushed(StoreOf(p)));
    if f.data == Nothing then f else f.(raw := f.data, data := Nothing)
  }

  function Wire(m: Msg): Value {
    Packed(m).raw
  }

  /** `message::decode`: clear the map object, take the section of the received bytes. */
  function Received(m: Msg, section: Value): Msg {
    WithStore(m, Store(None, Nothing)).(raw := section)
  }

  /** `message::clear`: clear the map object and all that the message holds. */
  function Cleared(m: Msg): Msg {
    WithStore(m, Store(None, Nothing)).(data := Nothing, raw := Nothing)
  }

  /** Copying another map object in: its decoded map, and its value copied into the value of this one. */
  function CopiedIn(m: Msg, s: Store): Msg {
    WithStore(Accessed(m), s)
  }

  /** Moving another map object in: its decoded map, and its value in place of the message's data. */
  function MovedIn(m: Msg, s: Store): Msg {
    Accessed(m).(cache := s.cache, linked := false, own := s.value)
  }

  /** Moving in a map object that refers to the message's own data, as one that was moved from before does. */
  function MovedBack(m: Msg, cache: Option<Entries>): Msg {
    Accessed(m).(cache := cache, linked := true, own := Nothing)
  }

  /** Copying such a map object in: the data is cleared before it is copied from, if it is both source and target. */
  function CopiedBack(m: Msg, cache: Option<Entries>): Msg {
    var a := Accessed(m);
    WithStore(a, Store(cache, if a.linked then Nothing else a.data))
  }

  // ---------- What is shown and what is sent ----------

  function Content(v: Value): Entries {
    if v.MapValue? then v.entries else map[]
  }

  /** The properties the application finds through the accessor. */
  function Seen(m: Msg): Entries {
    Model(StoreOf(Accessed(m)))
  }

  /** The properties a receiver of the encoded message gets. */
  function Sent(m: Msg): Entries {
    Content(Wire(m))
  }

  /** Nothing in the message fails to decode. */
  predicate Decodable(m: Msg) {
    !m.own.OtherValue? && !m.data.OtherValue? && !m.raw.OtherValue?
  }

  /** What the accessor would show of the message alone, without its map object. */
  function Below(m: Msg): Entries {
    if m.raw != Nothing then Content(m.raw) else Content(m.data)
  }

  /** What the encoder would send of the message alone, without its map object. */
  function Base(m: Msg): Entries {
    if m.data != Nothing then Content(m.data) else Content(m.raw)
  }

  /** Nothing of the message's own can come back or go out once its map object is empty. */
  predicate Bare(m: Msg) {
    Content(m.data) == map[] && Content(m.raw) == map[]
  }

  lemma SeenIs(m: Msg)
    requires Decodable(m)
    ensures Model(StoreOf(m)) != map[] ==> Seen(m) == Model(StoreOf(m))
    ensures Model(StoreOf(m)) == map[] ==> Seen(m) == Below(m)
  {
  }

  lemma SentIs(m: Msg)
    requires Decodable(m)
    ensures Model(StoreOf(m)) != map[] && m.linked ==> Sent(m) == Model(StoreOf(m))
    ensures Model(StoreOf(m)) != map[] && !m.linked ==> Sent(m) == Base(m)
    ensures Model(StoreOf(m)) == map[] && m.linked && m.cache.None? ==> Sent(m) == Content(m.raw)
    ensures Model(StoreOf(m)) == map[] && !(m.linked && m.cache.None?) ==> Sent(m) == Base(m)
  {
  }

  lemma AccessKeeps(m: Msg)
    requires Decodable(m)
    ensures Decodable(Accessed(m)) && Ready(StoreOf(Accessed(m))) && !LoadThrows(StoreOf(m))
    ensures Model(StoreOf(m)) == map[] ==>
      Accessed(m).linked && Accessed(m).cache == None && Accessed(m).raw == Nothing
    ensures Model(StoreOf(m)) != map[] ==>
      Accessed(m).cache == Some(Model(StoreOf(m))) && Accessed(m).linked == m.linked && Accessed(m).raw == m.raw
  {
  }

  /** A message sends what it shows, for every message: exactly under this condition. */
  lemma EncodeIsFaithfulIff(m: Msg)
    requires Decodable(m)
    ensures Sent(m) == Seen(m) <==>
      if Model(StoreOf(m)) != map[] then m.linked || Base(m) == Model(StoreOf(m))
      else (m.linked && m.cache.None?) || m.data == Nothing || m.raw == Nothing || Content(m.data) == Content(m.raw)
  {
    SeenIs(m);
    SentIs(m);
  }

  // ---------- Single operations ----------

  /** The operation leaves nothing in the map object's encoded value. */
  predicate Empties(a: Msg, op: Op) {
    op.Clear? || op.SetValue? || (a.cache.None? && !op.Assign?)
  }

  /** What would come back if the operation leaves the map object empty. */
  function ComesBack(a: Msg, op: Op): Entries {
    if a.raw != Nothing then Content(a.raw)
    else if a.linked && Empties(a, op) then map[]
    else Content(a.data)
  }

  /** What the operation leaves in the map object. */
  lemma ApplyLeaves(s: Store, op: Op)
    requires Ready(s) && !s.value.OtherValue?
    ensures var t := Apply(s, op).0;
      && Ready(t) && !t.value.OtherValue?
      && (Model(t) == map[] && (op.Clear? || (op.SetValue? && !op.value.OtherValue?)) ==> t.value == Nothing)
      && (Model(t) == map[] && s.cache.None? && !op.Assign? ==> Content(t.value) == map[])
      && (op.Assign? ==> t.value == s.value)
      && (s.cache.Some? && s.cache.value != map[] && (op.Erase? || op.Put?) ==> t.value == s.value)
  {
  }

  /**
   For every message: an operation through the accessor returns what it would return on one
   plain map, and that map is what the next access finds, exactly unless the operation
   leaves the map object empty with something below it that comes back.
   */
  lemma OperationAgreesIff(m: Msg, op: Op)
    requires Decodable(m)
    ensures Through(m, op).1 == PlainApply(Seen(m), op).1 && Decodable(Through(m, op).0)
    ensures var after := PlainApply(Seen(m), op).0;
      Seen(Through(m, op).0) == after <==> after != map[] || ComesBack(Accessed(m), op) == map[]
  {
    AccessKeeps(m);
    var a := Accessed(m);
    AgreesOnce(StoreOf(a), op);
    ApplyLeaves(StoreOf(a), op);
    SeenIs(Through(m, op).0);
  }

  /**
   For every message: an assigned standard map is shown exactly when it is not empty or nothing
   lies below, and sent exactly when it is not empty and the map object is attached to the
   message's data, or the message holds those entries anyway.
   */
  lemma AssignmentIsFaithfulIff(m: Msg, entries: Entries)
    requires Decodable(m)
    ensures var a, r := Accessed(m), Through(m, Assign(entries)).0;
      && (Seen(r) == entries <==> entries != map[] || Below(a) == map[])
      && (Sent(r) == entries <==> (entries != map[] && a.linked) || Base(a) == entries)
  {
    AccessKeeps(m);
    var r := Through(m, Assign(entries)).0;
    assert r == Accessed(m).(cache := Some(entries));
    SeenIs(r);
    SentIs(r);
  }

  /** A message whose map object is an empty decoded map over an encoded one shows and sends the encoded one. */
  lemma HiddenMapComesBack(m: Msg, hidden: Entries)
    requires m.linked && m.cache == Some(map[]) && m.data == MapValue(hidden) && m.raw == Nothing
    ensures Seen(m) == hidden == Sent(m)
  {
  }

  /**
   A received message with properties, whose properties are then assigned an empty map, shows and
   sends them still.
   */
  lemma AssigningEmptyCanBeLost()
    ensures var section := MapValue(map["a" := 1]);
      var m := Through(Received(BLANK, section), Assign(map[])).0;
      Seen(m) == map["a" := 1] && Wire(m) == section && Through(m, Get("a")).1 == Is(1)
  {
    var section := MapValue(map["a" := 1]);
    var r := Received(BLANK, section);
    assert Accessed(r) == Msg(None, true, Nothing, section, Nothing);
    var m := Through(r, Assign(map[])).0;
    assert m == Msg(Some(map[]), true, Nothing, section, Nothing);
    HiddenMapComesBack(m, map["a" := 1]);
    OperationAgreesIff(m, Get("a"));
  }

  /**
   For every message: a map object copied in is shown exactly when it is not empty or nothing lies
   below, be it copied in along with it or there before. On an attached map object it is sent
   under the like condition, on a detached one only if the message holds the same anyway.
   */
  lemma CopyInIsFaithfulIff(m: Msg, s: Store)
    requires Decodable(m) && !s.value.OtherValue?
    ensures var a, r := Accessed(m), CopiedIn(m, s);
      && (Seen(r) == Model(s) <==>
            || Model(s) != map[]
            || (if a.linked && a.raw == Nothing then Content(s.value) else Below(a)) == map[])
      && (a.linked ==>
            (Sent(r) == Model(s) <==>
               || Model(s) != map[]
               || Content(if s.cache.None? || s.value == Nothing then a.raw else s.value) == map[]))
      && (!a.linked ==> Sent(r) == Base(a))
  {
    AccessKeeps(m);
    SeenIs(CopiedIn(m, s));
    SentIs(CopiedIn(m, s));
  }

  /**
   Moving a map object in cuts the link to the message's data. For every message it is shown
   exactly when it is not empty or nothing lies below; what is sent is what the message holds
   without it.
   */
  lemma MoveIsFaithfulIff(m: Msg, s: Store)
    requires Decodable(m) && !s.value.OtherValue?
    ensures Seen(MovedIn(m, s)) == Model(s) <==> Model(s) != map[] || Below(Accessed(m)) == map[]
    ensures Sent(MovedIn(m, s)) == Base(Accessed(m))
  {
    AccessKeeps(m);
    SeenIs(MovedIn(m, s));
    SentIs(MovedIn(m, s));
  }

  /**
   Moving back in a map object that refers to the message's data restores the link: for
   every message its decoded map, if not empty, is then shown and sent; without one the data
   is, if there is any.
   */
  lemma MoveBackRestores(m: Msg, cache: Option<Entries>)
    requires Decodable(m)
    ensures var r := MovedBack(m, cache);
      && r.linked
      && (cache.Some? && cache.value != map[] ==> Seen(r) == cache.value == Sent(r))
      && (cache.None? && Content(Accessed(m).data) != map[] ==> Seen(r) == Content(Accessed(m).data) == Sent(r))
  {
    AccessKeeps(m);
    SeenIs(MovedBack(m, cache));
    SentIs(MovedBack(m, cache));
  }

  /**
   Copying it in shows what it stood for exactly under this condition. With both map objects
   on the message's data, that is cleared and then copied from itself, so that only a decoded map
   survives.
   */
  lemma CopyBackIff(m: Msg, cache: Option<Entries>)
    requires Decodable(m)
    ensures var a := Accessed(m); var was := Model(Store(cache, a.data));
      Seen(CopiedBack(m, cache)) == was <==>
        if a.linked then (cache.Some? && was != map[]) || Content(a.raw) == was
        else was != map[] || Below(a) == map[]
  {
    AccessKeeps(m);
    SeenIs(CopiedBack(m, cache));
  }

  /** A blank message into which a map with one entry is moved shows the entry and sends none. */
  lemma MovedMapCanBeLost()
    ensures var m := MovedIn(BLANK, Store(Some(map["a" := 1]), Nothing));
      Seen(m) == map["a" := 1] && Sent(m) == map[]
  {
    MoveIsFaithfulIff(BLANK, Store(Some(map["a" := 1]), Nothing));
  }

  /** A message with properties into which an empty map object is moved shows and sends them still. */
  lemma MovedEmptyMapCanBeLost()
    ensures var m := MovedIn(Received(BLANK, MapValue(map["a" := 1])), Store(None, Nothing));
      Seen(m) == map["a" := 1] == Sent(m)
  {
    var r := Received(BLANK, MapValue(map["a" := 1]));
    assert Accessed(r) == Msg(None, true, Nothing, MapValue(map["a" := 1]), Nothing);
    SeenIs(MovedIn(r, Store(None, Nothing)));
    MoveIsFaithfulIff(r, Store(None, Nothing));
  }

  // ---------- Receiving and copying messages ----------

  /** Decoding shows the properties received, and sends them on, for every message: exactly under these conditions. */
  lemma DecodeIsFaithfulIff(m: Msg, section: Value)
    requires Decodable(m) && !section.OtherValue?
    ensures var r := Received(m, section);
      && Decodable(r)
      && (Seen(r) == Content(section) <==> m.linked || section != Nothing || Content(m.data) == map[])
      && (Sent(r) == Content(section) <==> m.linked || m.data == Nothing || Content(m.data) == Content(section))
  {
    SeenIs(Received(m, section));
    SentIs(Received(m, section));
  }

  /**
   The message is cleared before it is decoded into, as the library does between deliveries: then
   nothing survives.
   */
  lemma ReuseIsFaithful(m: Msg, section: Value)
    requires Decodable(m) && !section.OtherValue?
    ensures var r := Received(Cleared(m), section); Seen(r) == Content(section) == Sent(r)
  {
    DecodeIsFaithfulIff(Cleared(m), section);
  }

  /**
   Entries of an earlier message survive decoding when a map object has been moved in: they
   are shown when the new message has no properties, and sent whatever it has.
   */
  lemma StaleEntriesSurvive()
    ensures var m := MovedIn(Received(BLANK, MapValue(map["a" := 1])), Store(Some(map["b" := 2]), Nothing));
      && Seen(Received(m, Nothing)) == map["a" := 1] == Sent(Received(m, Nothing))
      && Sent(Received(m, MapValue(map["c" := 3]))) == map["a" := 1]
  {
    var old1 := MapValue(map["a" := 1]);
    assert Accessed(Received(BLANK, old1)) == Msg(None, true, Nothing, old1, Nothing);
    var m := MovedIn(Received(BLANK, old1), Store(Some(map["b" := 2]), Nothing));
    assert m == Msg(Some(map["b" := 2]), false, Nothing, old1, Nothing);
    SeenIs(Received(m, Nothing));
    SentIs(Received(m, Nothing));
    SentIs(Received(m, MapValue(map["c" := 3])));
  }

  /**
   Copying a message, by encoding it and decoding into another: the copy shows what the
   original sends, and sends it on, exactly under the conditions of decoding on its target.
   */
  lemma MessageCopyIff(m: Msg, into: Msg)
    requires Decodable(m) && Decodable(into)
    ensures Decodable(Packed(m))
    ensures var r := Received(into, Wire(m));
      && (Seen(r) == Sent(m) <==> into.linked || Wire(m) != Nothing || Content(into.data) == map[])
      && (Sent(r) == Sent(m) <==> into.linked || into.data == Nothing || Content(into.data) == Sent(m))
  {
    DecodeIsFaithfulIff(into, Wire(m));
  }

  /** An operation that looks at the entries. */
  predicate Looks(op: Op) {
    op.Get? || op.Exists? || op.Size? || op.IsEmpty? || op.Erase? || op.Put?
  }

  /** Received properties that are not a map throw every time one looks at them, and are sent on as they came. */
  lemma BadPropertiesAreSentOn(first: Op, again: Op)
    requires Looks(first) && Looks(again)
    ensures var m := Accessed(Received(BLANK, OtherValue));
      && Through(m, first).1 == Thrown && Through(Through(m, first).0, again).1 == Thrown
      && Wire(m) == OtherValue == Wire(Through(m, first).0)
  {
  }

  // ---------- The documented invariant ----------

  /**
   The map object and the message's data belong together, and only one of the decoded map,
   the data and the raw section is in use: the decoded map is the authority only while the
   encoded value is empty.
   */
  ghost predicate Aligned(m: Msg) {
    && (m.linked || (m.cache == None && m.own == Nothing && m.data == Nothing))
    && (m.cache.Some? || m.data != Nothing ==> m.raw == Nothing)
    && (m.cache.Some? ==> m.data == Nothing)
    && Decodable(m)
  }

  /** An aligned message serialises exactly its properties, and stays aligned. */
  lemma EncodeIsFaithful(m: Msg)
    requires Aligned(m)
    ensures Sent(m) == Seen(m) == Seen(Packed(m)) && Aligned(Packed(m))
  {
    EncodeIsFaithfulIff(m);
    SeenIs(m);
    SeenIs(Packed(m));
  }

  /** An operation keeps a message aligned exactly unless it assigns a standard map over data not yet decoded. */
  lemma AlignedKeptIff(m: Msg, op: Op)
    requires Aligned(m)
    ensures Aligned(Through(m, op).0) <==> !(op.Assign? && Accessed(m).data != Nothing)
  {
  }

  // ---------- Every history ----------

  datatype Event =
    | Use(op: Op)
    | Send
    | Receive(section: Value)
    | Clear
    | CopyIn(other: Store)
    | MoveIn(other: Store)

  function Happens(m: Msg, e: Event): Msg {
    match e
    case Use(op) => Through(m, op).0
    case Send => Packed(m)
    case Receive(section) => Received(m, section)
    case Clear => Cleared(m)
    case CopyIn(s) => CopiedIn(m, s)
    case MoveIn(s) => MovedIn(m, s)
  }

  function Outcome(m: Msg, e: Event): Result {
    match e
    case Use(op) => Through(m, op).1
    case Send => Encoded(MapValue(Sent(m)))
    case _ => Unit
  }

  function PlainHappens(p: Entries, e: Event): (r: (Entries, Result)) {
    match e
    case Use(op) => PlainApply(p, op)
    case Send => (p, Encoded(MapValue(p)))
    case Receive(section) => (Content(section), Unit)
    case Clear => (map[], Unit)
    case CopyIn(s) => (Model(s), Unit)
    case MoveIn(s) => (Model(s), Unit)
  }

  /** The message shows and sends the plain map, and all of it can be decoded. */
  ghost predicate Faithful(m: Msg, p: Entries) {
    Decodable(m) && Seen(m) == p == Sent(m)
  }

  /**
   When an event keeps the message faithful: entries need a map object that is attached to
   the message's data, or to be what that holds anyway; an empty map needs a message with
   nothing left below; and what comes in must decode.
   */
  predicate Careful(m: Msg, e: Event) {
    var a := Accessed(m);
    match e
    case Use(op) =>
      var after := PlainApply(Seen(m), op).0;
      if after != map[] then a.linked || Base(a) == after
      else Bare(a) || (Content(a.raw) == map[] && a.linked && Empties(a, op))
    case Send => true
    case Receive(section) =>
      !section.OtherValue? && (m.linked || m.data == Nothing || Content(m.data) == Content(section))
    case Clear => true
    case CopyIn(s) =>
      !s.value.OtherValue? &&
      if Model(s) != map[] then a.linked || Base(a) == Model(s)
      else if a.linked then Content(a.raw) == map[] && Content(s.value) == map[]
      else Bare(a)
    case MoveIn(s) =>
      !s.value.OtherValue? && if Model(s) != map[] then Base(a) == Model(s) else Bare(a)
  }

  lemma UseFaithfulIff(m: Msg, op: Op)
    requires Faithful(m, Seen(m))
    ensures Faithful(Through(m, op).0, PlainApply(Seen(m), op).0) <==> Careful(m, Use(op))
  {
    AccessKeeps(m);
    var a, r := Accessed(m), Through(m, op).0;
    OperationAgreesIff(m, op);
    AgreesOnce(StoreOf(a), op);
    ApplyLeaves(StoreOf(a), op);
    SeenIs(r);
    SentIs(r);
  }

  lemma SendFaithful(m: Msg)
    requires Faithful(m, Seen(m))
    ensures Faithful(Packed(m), Seen(m))
  {
    SeenIs(m);
    SentIs(m);
    SeenIs(Packed(m));
    SentIs(Packed(m));
  }

  lemma CopyInFaithfulIff(m: Msg, s: Store)
    requires Decodable(m)
    ensures Faithful(CopiedIn(m, s), Model(s)) <==> Careful(m, CopyIn(s))
  {
    AccessKeeps(m);
    if !s.value.OtherValue? {
      SeenIs(CopiedIn(m, s));
      SentIs(CopiedIn(m, s));
    }
  }

  lemma MoveInFaithfulIff(m: Msg, s: Store)
    requires Decodable(m)
    ensures Faithful(MovedIn(m, s), Model(s)) <==> Careful(m, MoveIn(s))
  {
    AccessKeeps(m);
    if !s.value.OtherValue? {
      SeenIs(MovedIn(m, s));
      SentIs(MovedIn(m, s));
    }
  }

  /** From a faithful message every event has the plain map's result, and stays faithful exactly if it is careful. */
  lemma EventAgreesIff(m: Msg, e: Event)
    requires Faithful(m, Seen(m))
    ensures Outcome(m, e) == PlainHappens(Seen(m), e).1
    ensures Faithful(Happens(m, e), PlainHappens(Seen(m), e).0) <==> Careful(m, e)
  {
    match e
    case Use(op) =>
      OperationAgreesIff(m, op);
      UseFaithfulIff(m, op);
    case Send => SendFaithful(m);
    case Receive(section) =>
      if !section.OtherValue? {
        DecodeIsFaithfulIff(m, section);
      }
    case Clear => ReuseIsFaithful(m, Nothing);
    case CopyIn(s) => CopyInFaithfulIff(m, s);
    case MoveIn(s) => MoveInFaithfulIff(m, s);
  }

  /** The message, and the plain map, after the first n events. */
  function After(m: Msg, es: seq<Event>, n: nat): Msg
    requires n <= |es|
  {
    if n == 0 then m else Happens(After(m, es, n - 1), es[n - 1])
  }

  function PlainAfter(p: Entries, es: seq<Event>, n: nat): Entries
    requires n <= |es|
  {
    if n == 0 then p else PlainHappens(PlainAfter(p, es, n - 1), es[n - 1]).0
  }

  /** Up to here every result, every section sent and every view of the properties is that of the plain map. */
  ghost predicate AgreesUpTo(m: Msg, p: Entries, es: seq<Event>, n: nat)
    requires n <= |es|
  {
    && Faithful(After(m, es, n), PlainAfter(p, es, n))
    && (n > 0 ==>
          && AgreesUpTo(m, p, es, n - 1)
          && Outcome(After(m, es, n - 1), es[n - 1]) == PlainHappens(PlainAfter(p, es, n - 1), es[n - 1]).1)
  }

  ghost predicate CarefulUpTo(m: Msg, es: seq<Event>, n: nat)
    requires n <= |es|
  {
    n > 0 ==> CarefulUpTo(m, es, n - 1) && Careful(After(m, es, n - 1), es[n - 1])
  }

  /**
   A history of uses, sends, receives, clearings, copies and moves agrees throughout with one
   plain map, in every result, every section sent and all that is shown, if and only if every
   event in it is careful.
   */
  lemma {:induction false} HistoryAgreesIff(m: Msg, p: Entries, es: seq<Event>, n: nat)
    requires Faithful(m, p) && n <= |es|
    ensures AgreesUpTo(m, p, es, n) <==> CarefulUpTo(m, es, n)
  {
    if n > 0 {
      HistoryAgreesIff(m, p, es, n - 1);
      if AgreesUpTo(m, p, es, n - 1) {
        EventAgreesIff(After(m, es, n - 1), es[n - 1]);
      }
    }
  }

  ghost predicate OrdinaryUpTo(m: Msg, es: seq<Event>, n: nat)
    requires n <= |es|
  {
    n > 0 ==> OrdinaryUpTo(m, es, n - 1) && Ordinary(After(m, es, n - 1), es[n - 1])
  }

  /**
   In particular from a blank message, as long as no standard map is assigned over undecoded data and
   nothing is moved in.
   */
  lemma {:induction false} OrdinaryHistoryAgrees(es: seq<Event>, n: nat)
    requires n <= |es|
    requires OrdinaryUpTo(BLANK, es, n)
    ensures AgreesUpTo(BLANK, map[], es, n) && Aligned(After(BLANK, es, n))
  {
    if n > 0 {
      OrdinaryHistoryAgrees(es, n - 1);
      var m := After(BLANK, es, n - 1);
      OrdinaryIsCareful(m, es[n - 1]);
      EventAgreesIff(m, es[n - 1]);
    }
  }

  predicate Ordinary(m: Msg, e: Event) {
    match e
    case Use(op) => !(op.Assign? && Accessed(m).data != Nothing)
    case Receive(section) => !section.OtherValue?
    case CopyIn(s) => !s.value.OtherValue? && (s.cache.Some? ==> s.value == Nothing)
    case MoveIn(_) => false
    case _ => true
  }

  lemma OrdinaryIsCareful(m: Msg, e: Event)
    requires Aligned(m) && Ordinary(m, e)
    ensures Careful(m, e) && Aligned(Happens(m, e))
  {
    AccessKeeps(m);
    match e
    case Use(op) => AlignedKeptIff(m, op);
    case Send => EncodeIsFaithful(m);
    case _ =>
  }
}
