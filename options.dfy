/** A JavaScript value that may be absent (`null` / `undefined`). */
module Options {

  datatype Option<+T> = None | Some(value: T)

  /** JavaScript truthiness of an optional string: present and not the empty string. */
  predicate TruthyString(o: Option<string>) {
    o.Some? && o.value != ""
  }

  /** JavaScript truthiness of an optional number: present and not zero. */
  predicate TruthyNumber(o: Option<int>) {
    o.Some? && o.value != 0
  }
}
