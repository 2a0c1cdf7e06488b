/** An optional value: the model's stand-in for a C# reference that may be null
    and for a regex group or dictionary lookup that may be absent. */
module Wrappers {

  datatype Option<+T> = None | Some(value: T)

}
