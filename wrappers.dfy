/** Optional values: a database lookup that may find no row, a filter that may be off. */
module Wrappers {

  datatype Option<T> = None | Some(value: T)

  /** The zero- or one-element sequence holding what an Option holds. */
  function Elements<T>(o: Option<T>): (s: seq<T>)
    ensures o.None? <==> s == []
    ensures o.Some? ==> s == [o.value]
  {
    match o
    case None => []
    case Some(v) => [v]
  }
}
