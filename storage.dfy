/**
 * The device's secure key-value store, reduced to the one entry both screens use.
 * Each call takes `fault`, the medium's verdict for that call: when it is true the
 * awaited promise rejects and the store is left as it was.
 */
module Storage {
  import opened Wrappers

  /** The key under which the text is stored. */
  const Key: string := "meuTexto"

  /** What `getItemAsync` delivers: the stored value (null when absent) or a rejection. */
  datatype Read = Loaded(value: Option<string>) | Unavailable

  class SecureStore {
    /** The value held under `Key`, or None when absent. */
    var slot: Option<string>

    constructor (initial: Option<string>)
      ensures slot == initial
    {
      slot := initial;
    }

    /** `getItemAsync(Key)`: reads the slot, never changes it. */
    method GetItem(fault: bool) returns (r: Read)
      ensures fault ==> r == Unavailable
      ensures !fault ==> r == Loaded(slot)
    {
      if fault {
        r := Unavailable;
      } else {
        r := Loaded(slot);
      }
    }

    /** `setItemAsync(Key, value)`: overwrites the slot unconditionally when it succeeds. */
    method SetItem(value: string, fault: bool) returns (ok: bool)
      modifies this
      ensures ok == !fault
      ensures slot == if ok then Some(value) else old(slot)
    {
      ok := !fault;
      if ok {
        slot := Some(value);
      }
    }

    /** `deleteItemAsync(Key)`: empties the slot when it succeeds, whether or not it held a value. */
    method DeleteItem(fault: bool) returns (ok: bool)
      modifies this
      ensures ok == !fault
      ensures slot == if ok then None else old(slot)
    {
      ok := !fault;
      if ok {
        slot := None;
      }
    }
  }
}
