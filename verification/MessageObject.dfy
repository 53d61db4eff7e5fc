/**
 The map and message objects as they share one piece of encoded data: the map holds a
 reference to it, and both sides write through their own reference. Every method takes
 the step of the value-level functions that it stands for.
 */
module MessageObject {
  import opened Common
  import opened PropertyMap
  import opened MessageProperties

  /** `pn_data_t`: encoded data that several owners may refer to. */
  class Data {
    var v: Value

    constructor ()
      ensures v == Nothing
    {
      v := Nothing;
    }
  }

  class Map {
    var cache: Option<Entries>
    var data: Data?

    ghost function View(): Store
      reads this, data
    {
      Store(cache, if data == null then Nothing else data.v)
    }

    constructor ()
      ensures View() == Store(None, Nothing) && data == null
    {
      cache, data := None, null;
    }

    /** `cache()` */
    method Load() returns (ok: bool)
      modifies this`cache, data
      ensures data == old(data)
      ensures View() == Loaded(old(View()))
      ensures ok <==> !LoadThrows(old(View()))
    {
      ok := true;
      if cache.None? {
        cache := Some(map[]);
        if data != null && data.v != Nothing {
          if data.v.OtherValue? {
            return false;
          }
          cache := Some(data.v.entries);
          data.v := Nothing;
        }
      }
    }

    /** `flush()`: writes into the data it refers to, whoever owns it; without one it makes its own. */
    method Flush()
      modifies this, data
      ensures View() == Flushed(old(View()))
      ensures data != null && (old(data) != null ==> data == old(data)) && (old(data) == null ==> fresh(data))
    {
      if data == null {
        data := new Data();
      }
      if cache.Some? {
        data.v := MapValue(cache.value);
        cache := None;
      } else if data.v == Nothing {
        data.v := MapValue(map[]);
      }
    }

    /** `empty()` */
    method IsEmpty() returns (ok: bool, empty: bool)
      modifies this`cache, data
      ensures data == old(data)
      ensures View() == Peeked(old(View()))
      ensures ok <==> !LoadThrows(old(View()))
      ensures ok ==> (empty <==> LooksEmpty(old(View())))
    {
      if cache.Some? {
        return true, cache.value == map[];
      }
      if data == null || data.v == Nothing {
        return true, true;
      }
      ok := Load();
      empty := cache.value == map[];
    }

    method Get(k: Key) returns (r: Result)
      modifies this`cache, data
      ensures data == old(data)
      ensures (View(), r) == Apply(old(View()), Op.Get(k))
      ensures !LoadThrows(old(View())) && k in Model(old(View())) ==> r == Is(Model(old(View()))[k])
    {
      var ok, empty := IsEmpty();
      if !ok {
        return Thrown;
      }
      if empty {
        return Is(NO_VALUE);
      }
      ok := Load();
      return Is(if k in cache.value then cache.value[k] else NO_VALUE);
    }

    method Exists(k: Key) returns (r: Result)
      modifies this`cache, data
      ensures data == old(data)
      ensures (View(), r) == Apply(old(View()), Op.Exists(k))
      ensures r == if LoadThrows(old(View())) then Thrown else Yes(k in Model(old(View())))
    {
      var ok, empty := IsEmpty();
      if !ok {
        return Thrown;
      }
      if empty {
        return Yes(false);
      }
      ok := Load();
      return Yes(k in cache.value);
    }

    method Size() returns (r: Result)
      modifies this`cache, data
      ensures data == old(data)
      ensures (View(), r) == Apply(old(View()), Op.Size)
      ensures r == if LoadThrows(old(View())) then Thrown else Count(|Model(old(View()))|)
    {
      var ok, empty := IsEmpty();
      if !ok {
        return Thrown;
      }
      if empty {
        return Count(0);
      }
      ok := Load();
      return Count(|cache.value|);
    }

    method Put(k: Key, v: Val) returns (r: Result)
      modifies this`cache, data
      ensures data == old(data)
      ensures (View(), r) == Apply(old(View()), Op.Put(k, v))
    {
      var ok := Load();
      if !ok {
        return Thrown;
      }
      cache := Some(cache.value[k := v]);
      return Unit;
    }

    method Erase(k: Key) returns (r: Result)
      modifies this`cache, data
      ensures data == old(data)
      ensures (View(), r) == Apply(old(View()), Op.Erase(k))
    {
      var ok, empty := IsEmpty();
      if !ok {
        return Thrown;
      }
      if empty {
        return Count(0);
      }
      ok := Load();
      r := Count(if k in cache.value then 1 else 0);
      cache := Some(cache.value - {k});
    }

    method Clear()
      modifies this`cache, data
      ensures data == old(data)
      ensures View() == Store(None, Nothing)
    {
      cache := None;
      if data != null {
        data.v := Nothing;
      }
    }

    /** `operator=(const std::map&)`: the encoded value stays as it is. */
    method Assign(m: Entries)
      modifies this`cache
      ensures View() == Apply(old(View()), Op.Assign(m)).0
    {
      cache := Some(m);
    }

    /** `value(const value&)`: decode first, change only if that succeeds. */
    method SetValue(x: Value) returns (r: Result)
      modifies this`cache, data
      ensures data == old(data)
      ensures (View(), r) == Apply(old(View()), Op.SetValue(x))
    {
      if x == Nothing {
        Clear();
        return Unit;
      }
      if x.OtherValue? {
        return Thrown;
      }
      cache := Some(x.entries);
      if data != null {
        data.v := Nothing;
      }
      return Unit;
    }

    /** `reset(pn_data_t*)`: refer to other data, without copying. */
    method Reset(d: Data)
      modifies this
      ensures cache == None && data == d
    {
      data := d;
      cache := None;
    }

    /**
     Copy assignment: copy the decoded map, and the value into the data this one refers to,
     which is cleared first. So data that both refer to is lost.
     */
    method CopyFrom(x: Map)
      requires x != this
      modifies this, data
      ensures old(x.data) == null || old(x.data) != old(data) ==> View() == old(x.View())
      ensures old(x.data) != null && old(x.data) == old(data) ==> View() == Store(old(x.cache), Nothing)
      ensures old(data) != null ==> data == old(data)
      ensures old(data) == null ==> data == null || fresh(data)
    {
      cache := x.cache;
      if x.data == null || x.data.v == Nothing {
        if data != null {
          data.v := Nothing;
        }
      } else {
        if data == null {
          data := new Data();
        }
        data.v := Nothing;
        data.v := x.data.v;
      }
    }

    /** Move assignment: take the decoded map and exchange the references. */
    method MoveFrom(x: Map)
      requires x != this
      modifies this, x
      ensures View() == old(x.View()) && data == old(x.data)
      ensures x.cache == None && x.data == old(data)
    {
      cache := x.cache;
      x.cache := None;
      data, x.data := x.data, data;
    }
  }

  class Message {
    var raw: Value
    const data: Data
    const props: Map

    ghost function View(): Msg
      reads this, data, props, props.data
    {
      var linked := props.data == data;
      Msg(props.cache, linked,
          if linked || props.data == null then Nothing else props.data.v,
          data.v, raw)
    }

    constructor ()
      ensures View() == BLANK
    {
      raw := Nothing;
      data := new Data();
      props := new Map();
    }

    /** `pn_message_properties` */
    method Unpack()
      modifies this`raw, data
      ensures View() == Unpacked(old(View()))
    {
      if raw != Nothing {
        data.v := raw;
        raw := Nothing;
      }
    }

    /** `properties()` */
    method Access() returns (ok: bool)
      modifies this`raw, data, props, props.data
      ensures ok <==> !LoadThrows(StoreOf(old(View())))
      ensures View() == if ok then Accessed(old(View())) else PeekedAt(old(View()))
      ensures ok && LooksEmpty(StoreOf(old(View()))) ==> props.data == data
      ensures !(ok && LooksEmpty(StoreOf(old(View())))) ==> props.data == old(props.data)
    {
      var empty;
      ok, empty := props.IsEmpty();
      if ok && empty {
        Unpack();
        props.Reset(data);
      }
    }

    /** `encode()`, as far as the properties go. */
    method Encode() returns (ok: bool, section: Value)
      modifies this`raw, data, props, props.data
      ensures ok <==> !LoadThrows(StoreOf(old(View())))
      ensures ok ==> section == Wire(old(View())) && View() == Packed(old(View()))
      ensures !ok ==> View() == PeekedAt(old(View()))
    {
      var empty;
      ok, empty := props.IsEmpty();
      section := Nothing;
      if ok {
        if !empty {
          props.Flush();
        }
        if data.v != Nothing {
          raw := data.v;
          data.v := Nothing;
        }
        section := raw;
      }
    }

    /**
     Move assignment to `properties()`. The other map object may refer to the message's own
     data, as one does that was moved from before; no two refer to any other data.
     */
    method MoveIn(x: Map) returns (ok: bool)
      requires x != props && (x.data != null && x.data == props.data ==> x.data == data)
      modifies this`raw, data, props, props.data, x
      ensures ok <==> !LoadThrows(StoreOf(old(View())))
      ensures !ok ==> View() == PeekedAt(old(View()))
      ensures ok && old(x.data) == data ==> View() == MovedBack(old(View()), old(x.cache))
      ensures ok && old(x.data) != data ==> View() == MovedIn(old(View()), old(x.View()))
    {
      ok := Access();
      if ok {
        props.MoveFrom(x);
      }
    }

    /** Copy assignment to `properties()`, from any such map object. */
    method CopyIn(x: Map) returns (ok: bool)
      requires x != props && (x.data != null && x.data == props.data ==> x.data == data)
      modifies this`raw, data, props, props.data
      ensures ok <==> !LoadThrows(StoreOf(old(View())))
      ensures !ok ==> View() == PeekedAt(old(View()))
      ensures ok && old(x.data) == data ==> View() == CopiedBack(old(View()), old(x.cache))
      ensures ok && old(x.data) != data ==> View() == CopiedIn(old(View()), old(x.View()))
    {
      ok := Access();
      if ok {
        props.CopyFrom(x);
      }
    }

    /** `clear()`, as far as the properties go. */
    method Clear()
      modifies this`raw, data, props`cache, props.data
      ensures View() == Cleared(old(View()))
    {
      props.Clear();
      raw := Nothing;
      data.v := Nothing;
    }

    /** `decode()`, as far as the properties go. */
    method Decode(section: Value)
      modifies this`raw, props`cache, props.data
      ensures View() == Received(old(View()), section)
    {
      props.Clear();
      raw := section;
    }
  }
}
