/** Status codes and small wrapper types shared by the writer model. */
module WsErrors {

  /** The failure codes the writer reports: E_INVALIDARG and WS_E_INVALID_OPERATION. */
  datatype Error = InvalidArg | InvalidOperation

  /** The HRESULT of one writer call: S_OK or a failure code. */
  datatype Status = Ok | Failed(error: Error)

  datatype Option<T> = None | Some(value: T)

  datatype Result<T> = Success(value: T) | Failure(error: Error)
}
