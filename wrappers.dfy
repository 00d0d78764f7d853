/** The optional-value datatype shared by the other modules: an empty
    boost::function, a null nested-exception pointer and a missing map entry
    all become None. */
module Wrappers {

  datatype Option<+T> = None | Some(value: T)

}
