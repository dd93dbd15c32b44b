/**
 * `NetworkLoggerProtocol.logRequest` as the network and its session delegate
 * call it: the logger is modelled only by the calls it receives.
 */
module Loggers {
  import opened NetworkErrors
  import opened NetworkRequests

  /** The `OSLogType` levels a call can carry. */
  datatype OSLogType = Default | Info | Debug | Error | Fault

  datatype LoggerPrivacy = Open | Encapsulate | Encrypt

  datatype LogCall = LogCall(url: Url, error: NetworkError, level: OSLogType, privacy: LoggerPrivacy)

  class NetworkLogger {
    /** Every `logRequest` call received, in order. */
    var calls: seq<LogCall>

    constructor ()
      ensures calls == []
    {
      calls := [];
    }

    method LogRequest(url: Url, error: NetworkError, level: OSLogType, privacy: LoggerPrivacy)
      modifies this
      ensures calls == old(calls) + [LogCall(url, error, level, privacy)]
    {
      calls := calls + [LogCall(url, error, level, privacy)];
    }
  }
}
