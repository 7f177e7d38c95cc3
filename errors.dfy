/**
 * Error records of the IPC and authentication layers, and the token pair
 * returned by the OAuth token endpoint.
 */
module Errors {
  import opened Wrappers
  import opened Json

  /**
   * Tags of IPC failures. The newer client (src-tauri/src/ipc/client.rs)
   * declares all of them; the older one (src-tauri/src/ipc.rs) a subset.
   */
  datatype IpcErrorType =
    | CreateClient
    | Connect
    | Authorize
    | ReAuth
    | Subscribe
    | Unsubscribe
    | EventReceive
    | EventSend
    | EventEncode
    | EventDecode
    | LeaveVC

  /** An IPC failure as reported to callers and to the window. */
  datatype IpcError = IpcError(errorType: IpcErrorType, message: string, payload: Option<Json>)

  /** The older client's failure record, which also keeps the transport's own text. */
  datatype InternalIpcError =
    InternalIpcError(errorType: IpcErrorType, message: string, internal: string, payload: Option<Json>)

  /** The conversion main.rs performs before emitting: the transport text is dropped. */
  function Public(e: InternalIpcError): IpcError
  {
    IpcError(e.errorType, e.message, e.payload)
  }

  /** Tags of authentication failures. */
  datatype AuthErrorType = TokenFetch | RefreshToken | ConfigRead | ConfigSave | Decode | IpcSend

  datatype AuthError = AuthError(errorType: AuthErrorType, message: string)

  /** The part of a token-endpoint response the application keeps. */
  datatype TokenData = TokenData(accessToken: string, refreshToken: string)
}
