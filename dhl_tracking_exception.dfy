/**
 * The typed failure of the DHL tracking client. Every instance carries a
 * message, a machine-readable error code, the HTTP status the application
 * should answer with (forwarded to PHP's exception code), and optionally the
 * exception it wraps. Fields are fixed at construction and only read after.
 */
module DhlTrackingExceptions {
  import opened PhpValues

  const ErrorInvalidTrackingNumber: string := "invalid_tracking_number"
  const ErrorApiRequestFailed: string := "api_request_failed"
  const ErrorInvalidResponse: string := "invalid_response"
  const ErrorNetworkError: string := "network_error"

  /** The four error codes are pairwise distinct. */
  lemma ErrorCodesDistinct()
    ensures ErrorInvalidTrackingNumber != ErrorApiRequestFailed && ErrorInvalidTrackingNumber != ErrorInvalidResponse
    ensures ErrorInvalidTrackingNumber != ErrorNetworkError && ErrorApiRequestFailed != ErrorInvalidResponse
    ensures ErrorApiRequestFailed != ErrorNetworkError && ErrorInvalidResponse != ErrorNetworkError
  {
    assert ErrorInvalidTrackingNumber[8] == 't' && ErrorInvalidResponse[8] == 'r';
    assert ErrorApiRequestFailed[0] == 'a' && ErrorInvalidResponse[0] == 'i' && ErrorNetworkError[0] == 'n';
  }

  /** An exception raised by code outside this module (the HTTP client, or
      PHP itself), kept as the `previous` of a wrapping exception. */
  datatype PreviousException = PreviousException(className: string, message: string)

  datatype DhlTrackingException = DhlTrackingException(
    message: string,
    errorCode: string,
    code: int,
    previous: Option<PreviousException>)
  {
    function GetErrorCode(): string {
      errorCode
    }

    /** The HTTP status is what the constructor passed on as the exception code. */
    function GetStatusCode(): int {
      code
    }
  }

  /** The constructor, with its default arguments. */
  function Create(
    message: string := "",
    errorCode: string := ErrorApiRequestFailed,
    statusCode: int := 500,
    previous: Option<PreviousException> := None): (e: DhlTrackingException)
    ensures e.GetErrorCode() == errorCode && e.GetStatusCode() == statusCode
    ensures e.message == message && e.previous == previous
  {
    DhlTrackingException(message, errorCode, statusCode, previous)
  }

  /** With no arguments the exception is an API failure answered with 500. */
  lemma DefaultConstruction()
    ensures Create().GetErrorCode() == "api_request_failed"
    ensures Create().GetStatusCode() == 500
    ensures Create().message == "" && Create().previous == None
  {
  }

  function InvalidTrackingNumber(trackingNumber: string): (e: DhlTrackingException)
    ensures e.GetErrorCode() == "invalid_tracking_number" && e.GetStatusCode() == 400
    ensures e.previous == None
    ensures e.message == "Invalid or empty DHL tracking number: " + trackingNumber
  {
    Create("Invalid or empty DHL tracking number: " + trackingNumber, ErrorInvalidTrackingNumber, 400)
  }

  function ApiRequestFailedPrefix(trackingNumber: string): string {
    "DHL API request failed for tracking number " + trackingNumber + ". HTTP Status: "
  }

  /** The response body is accepted and dropped: only the status reaches the message. */
  function ApiRequestFailed(trackingNumber: string, httpStatus: int, response: string): (e: DhlTrackingException)
    ensures e.GetErrorCode() == "api_request_failed" && e.GetStatusCode() == 502
    ensures e.previous == None
    ensures e.message == ApiRequestFailedPrefix(trackingNumber) + IntToString(httpStatus)
  {
    Create(ApiRequestFailedPrefix(trackingNumber) + IntToString(httpStatus), ErrorApiRequestFailed, 502)
  }

  function InvalidResponse(trackingNumber: string): (e: DhlTrackingException)
    ensures e.GetErrorCode() == "invalid_response" && e.GetStatusCode() == 502
    ensures e.previous == None
    ensures e.message == "Invalid response from DHL API for tracking number: " + trackingNumber
  {
    Create("Invalid response from DHL API for tracking number: " + trackingNumber, ErrorInvalidResponse, 502)
  }

  function NetworkError(trackingNumber: string, previous: PreviousException): (e: DhlTrackingException)
    ensures e.GetErrorCode() == "network_error" && e.GetStatusCode() == 503
    ensures e.previous == Some(previous)
    ensures e.message == "Network error when calling DHL API for tracking number: " + trackingNumber
  {
    Create("Network error when calling DHL API for tracking number: " + trackingNumber, ErrorNetworkError, 503, Some(previous))
  }

  /** The message of an API failure determines the HTTP status it reports,
      whatever bodies the two responses carried. */
  lemma ApiRequestFailedMessageDeterminesStatus(trackingNumber: string, s1: int, s2: int, body1: string, body2: string)
    requires ApiRequestFailed(trackingNumber, s1, body1).message == ApiRequestFailed(trackingNumber, s2, body2).message
    ensures s1 == s2
  {
    var p := ApiRequestFailedPrefix(trackingNumber);
    var m := p + IntToString(s1);
    assert m == p + IntToString(s2);
    assert m[|p|..] == IntToString(s1);
    assert m[|p|..] == IntToString(s2);
    IntToStringInjective(s1, s2);
  }

  /** The four factories are told apart by their error codes, and only an
      invalid tracking number is the caller's fault (a 4xx status). */
  lemma FactoryKindsDistinct(tn: string, status: int, body: string, prev: PreviousException)
    ensures var codes := [InvalidTrackingNumber(tn).GetErrorCode(), ApiRequestFailed(tn, status, body).GetErrorCode(),
                          InvalidResponse(tn).GetErrorCode(), NetworkError(tn, prev).GetErrorCode()];
            forall i, j :: 0 <= i < j < 4 ==> codes[i] != codes[j]
    ensures 400 <= InvalidTrackingNumber(tn).GetStatusCode() < 500
    ensures 500 <= ApiRequestFailed(tn, status, body).GetStatusCode() < 600
    ensures 500 <= InvalidResponse(tn).GetStatusCode() < 600
    ensures 500 <= NetworkError(tn, prev).GetStatusCode() < 600
  {
  }
}
