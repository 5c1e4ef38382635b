/** What an HTTP handler visibly does, as an ordered log of events. */
module HttpEvents {
  const StatusOK: int := 200                   // section 6.3.1 of RFC 7231
  const StatusBadRequest: int := 400           // section 6.5.1 of RFC 7231
  const StatusInternalServerError: int := 500  // section 6.6.1 of RFC 7231

  datatype Event =
    | WriteHeader(status: int)   // ResponseWriter.WriteHeader
    | Hijack                     // the Hijacker.Hijack attempt
    | StreamStdoutCall(id: nat)  // the registry's StreamStdout is entered
    | StreamStderrCall(id: nat)  // the registry's StreamStderr is entered
    | Close                      // the hijacked connection is closed
}
