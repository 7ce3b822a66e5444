/** Optional values and the outcome of an operation that can raise. */
module Outcomes {

  datatype Option<T> = None | Some(value: T)

  /** The exceptions the modelled Python code can raise. */
  datatype Fault =
    | MissingAttribute       // AttributeError: a plain event carries no workstation id
    | EmptyBufferAtStart     // ValueError raised while a workstation drains its buffers
    | UnsetComponentSlot     // AttributeError: a held-component slot is still None
    | EmptyFutureEventList   // IndexError: pop(0) on an empty list

  datatype Result<T> = Ok(value: T) | Err(fault: Fault)
}
