/** The slots that values travel in. */
module Slots {
  import opened Options

  /** Holds at most one value; the assertions of the code are preconditions here. */
  class SendSlot<T> {
    var value: Option<T>

    constructor Empty()
      ensures value == None
    {
      value := None;
    }

    constructor Holding(v: T)
      ensures value == Some(v)
    {
      value := Some(v);
    }

    method Read() returns (v: T)
      requires value.Some?
      modifies this
      ensures old(value) == Some(v) && value == None
    {
      v := value.value;
      value := None;
    }

    method Write(v: T)
      requires value.None?
      modifies this
      ensures value == Some(v)
    {
      value := Some(v);
    }
  }

  /** Moves a value from a full slot to an empty one. */
  method Transfer<T>(from: SendSlot<T>, to: SendSlot<T>)
    requires from.value.Some? && to.value.None?
    modifies from, to
    ensures to.value == old(from.value) && from.value == None
  {
    to.value, from.value := from.value, to.value;
  }
}
