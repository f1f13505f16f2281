/** Vocabulary shared by the safety components: the authorization states, the structured result of one
    emergency stop, and the usual option and result types. */
module SafetyTypes {

  datatype Option<+T> = None | Some(value: T)

  datatype Result<+T, +E> = Ok(value: T) | Err(error: E)

  datatype SafetyState = NEW | DISCOVERED | VALIDATED | ARMED | RUNNING | STOPPED | FAULTED | ESTOPPED

  /** The code an emergency result carries. Callbacks may return any text; the three named codes and the hospital
      channel's own code are the ones the program itself produces. */
  datatype StopCode =
    | EstopLatched
    | SafetyCommandRejected
    | TransportUnquiesced
    | SafetyCommandFailed
    | OtherCode(text: string)

  datatype StopResult = StopResult(latched: bool, quiesced: bool, accepted: bool, code: StopCode) {
    predicate Successful() {
      latched && quiesced && accepted
    }
  }

  /** The codes the audit schema admits in a stop record. */
  predicate AuditableCode(code: StopCode) {
    code.EstopLatched? || code.SafetyCommandRejected? || code.TransportUnquiesced?
  }
}
