/** The resizable vector of the C broker, which serves as a queue. */
module BrokerVector {

  const INITIAL_CAPACITY := 16

  class Vector<T(0)> {
    var data: array<T>
    var len: nat

    ghost predicate Valid()
      reads this
    {
      len <= data.Length && data.Length > 0
    }

    ghost function Contents(): seq<T>
      reads this, data
      requires Valid()
    {
      data[..len]
    }

    constructor ()
      ensures Valid() && Contents() == [] && fresh(data)
    {
      len := 0;
      data := new T[INITIAL_CAPACITY];
    }

    /** `VEC_PUSH`: the capacity doubles when the vector is full. */
    method Push(x: T)
      requires Valid()
      modifies this, data
      ensures Valid() && Contents() == old(Contents()) + [x]
      ensures data == old(data) || fresh(data)
    {
      if len == data.Length {
        var bigger := new T[2 * data.Length];
        forall i | 0 <= i < len {
          bigger[i] := data[i];
        }
        assert bigger[..len] == data[..len];
        data := bigger;
      }
      data[len] := x;
      len := len + 1;
    }

    /** `VEC_POP`: drops the first element, if there is one, by moving the others down. */
    method Pop()
      requires Valid()
      modifies this`len, data
      ensures Valid()
      ensures Contents() == if old(len) == 0 then [] else old(Contents())[1..]
    {
      if len > 0 {
        len := len - 1;
        forall i | 0 <= i < len {
          data[i] := data[i + 1];
        }
        assert data[..len] == old(data[..len])[1..];
      }
    }
  }
}
