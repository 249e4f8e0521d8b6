/** Small datatypes shared by the other modules. */
module Common {
  datatype Option<+T> = None | Some(value: T) {
    function UnwrapOr(other: T): T { if Some? then value else other }
  }
}
