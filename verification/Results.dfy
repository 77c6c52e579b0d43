/** Result values shared by the modules: a missing value, and the status codes of the C++ code. */
module Results {

  datatype Option<+T> = None | Some(value: T)

  /** The status codes of src/core/types.hpp that the modelled code returns. */
  datatype Status = Ok | InvalidArgument | IoError
}
