/** Datatypes shared by the components. */
module Common {

  datatype Option<+T> = None | Some(value: T)

  datatype Result<+T> = Ok(value: T) | Err(error: string)

  /** The status of a condition, of a pod or of a Kubervisor service. */
  datatype ConditionStatus = True | False | Unknown
}
