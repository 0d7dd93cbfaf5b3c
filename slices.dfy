/** Go slices as the model sees them: a nil slice is distinct from an empty one. */
module Slices {

  /** Nil is the zero value of a slice field; Made holds a slice that was allocated. */
  datatype Slice<T> = Nil | Made(items: seq<T>) {

    /** The elements, where nil has none, as len and range see it. */
    function Elements(): seq<T> {
      if Nil? then [] else items
    }

    /** The builtin append of one element: nil grows like an empty slice. */
    function Append(x: T): (r: Slice<T>)
      ensures r.Made? && r.Elements() == Elements() + [x]
    {
      Made(Elements() + [x])
    }
  }
}
