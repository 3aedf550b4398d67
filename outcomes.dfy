/// Optional values and the Python exceptions the pipeline can raise.
module Outcomes {

  /// Python's `None` or a value.
  datatype Option<+T> = None | Some(value: T)

  /// The exceptions that escape from the modelled code.
  datatype PyError =
    | FileNotFound(path: string)   // open() or the explicit check in convert_wav_to_m4a
    | CalledProcessError           // subprocess.run(..., check=True) with a non-zero exit
    | IndexError                   // an index past the end of a list or array
    | ValueError                   // list.index / list.remove of an absent element
    | KeyError(key: string)        // dict lookup of an absent key
    | TypeError                    // iterating over None
    | AttributeError               // calling .get on a str
    | StopException                // st.stop() ends the script run

  /// The result of a Python call: a value or a raised exception.
  datatype Py<+T> = Ok(value: T) | Raised(error: PyError)
}
