/** Values shared by every module of the model: optional values, thrown
    JavaScript values, the outcome of one awaited call, and JavaScript
    truthiness of an optional string. */
module Wrappers {

  /** A value that may be missing (`null` or `undefined` in the source). */
  datatype Option<+T> = None | Some(value: T)

  /** What a `catch` block receives. */
  datatype Thrown =
    | ErrorInstance(message: string)  // a value for which `instanceof Error` holds
    | OtherValue(text: string)        // any other thrown value (a string, a plain object, ...)

  /** How one awaited call settles: with a value, or by throwing. */
  datatype Awaited<+T> = Returned(value: T) | Threw(thrown: Thrown)

  /** JavaScript truthiness of a string that may be missing: present and non-empty. */
  predicate Truthy(s: Option<string>) {
    s.Some? && s.value != ""
  }

  /** The value of the last call in `calls` that returned, if any returned. */
  function LastReturned<T>(calls: seq<Awaited<T>>): (r: Option<T>)
    ensures r.None? <==> forall i :: 0 <= i < |calls| ==> calls[i].Threw?
    ensures r.Some? ==> exists i :: 0 <= i < |calls| && calls[i] == Returned(r.value)
  {
    if calls == [] then None
    else
      var last := calls[|calls| - 1];
      if last.Returned? then Some(last.value) else LastReturned(calls[..|calls| - 1])
  }

  /** What the last call in `calls` that threw threw, if any threw. */
  function LastThrown<T>(calls: seq<Awaited<T>>): (r: Option<Thrown>)
    ensures r.None? <==> forall i :: 0 <= i < |calls| ==> calls[i].Returned?
    ensures r.Some? ==> exists i :: 0 <= i < |calls| && calls[i] == Threw(r.value)
  {
    if calls == [] then None
    else
      var last := calls[|calls| - 1];
      if last.Threw? then Some(last.thrown) else LastThrown(calls[..|calls| - 1])
  }
}
