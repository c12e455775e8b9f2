/**
 * The exceptions the test harness can raise while it plans a test, as values,
 * and a failure-compatible Result so that `:-` propagates them in the order
 * Python would raise them.
 */
module Outcomes {

  datatype Error =
    /** KeyError: CONFIG_MAPPING has no entry for this model type */
    | UnknownModelType(modelType: string)
    /** AttributeError: no model list is registered for this example script */
    | NoModelsForExample(example: string)
    /** ValueError: strtobool does not recognise this value */
    | InvalidTruthValue(value: string)
    /** RuntimeError: the glob found no script with this name */
    | ScriptNotFound(example: string)
    /** RuntimeError: the glob found more than one script with this name */
    | ScriptNotUnique(example: string)
    /** ValueError: pathlib refuses to change the suffix of a path with an empty name */
    | EmptyPathName(path: string)
    /** FileNotFoundError: no baseline file with this name */
    | BaselineNotFound(fileName: string)
    /** KeyError: a dictionary has no entry for this key */
    | MissingKey(key: string)
    /** AttributeError: `.get(key)` was called on a value that is not a dictionary */
    | NotAnObject(key: string)
    /** TypeError: a value of the wrong JSON type under this key */
    | WrongType(key: string)

  datatype Result<+T> = Ok(value: T) | Err(error: Error) {
    predicate IsFailure() { Err? }

    function PropagateFailure<U>(): Result<U>
      requires Err?
    {
      Err(error)
    }

    function Extract(): T
      requires Ok?
    {
      value
    }
  }

  datatype Option<+T> = None | Some(value: T)
}
