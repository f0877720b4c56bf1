/** The response envelope of org.mentalk.common.response: a success flag and a
    payload that is either {message, data} or {code, message}. */
module Responses {

  datatype Payload<T> = SuccessBody(message: string, data: T) | ErrorBody(code: string, message: string)

  datatype ApiResponse<T> = ApiResponse(success: bool, payload: Payload<T>)

  /** The envelope's flag agrees with the kind of its payload. */
  predicate WellFormed<T>(r: ApiResponse<T>)
  {
    r.success <==> r.payload.SuccessBody?
  }

  /** `ApiResponse.success(message, data)`. */
  function Success<T>(message: string, data: T): (r: ApiResponse<T>)
    ensures WellFormed(r) && r.success
    ensures r.payload.message == message && r.payload.data == data
  {
    ApiResponse(true, SuccessBody(message, data))
  }

  /** `ApiResponse.success(data)`: the message defaults to "success". */
  function SuccessOf<T>(data: T): (r: ApiResponse<T>)
    ensures WellFormed(r) && r.success
    ensures r.payload.message == "success" && r.payload.data == data
  {
    Success("success", data)
  }

  /** `ApiResponse.failure(code, message)`. */
  function Failure<T>(code: string, message: string): (r: ApiResponse<T>)
    ensures WellFormed(r) && !r.success
    ensures r.payload == ErrorBody(code, message)
  {
    ApiResponse(false, ErrorBody(code, message))
  }

  /** No failure envelope equals a success envelope, whatever the arguments. */
  lemma SuccessAndFailureDiffer<T>(message: string, data: T, code: string, text: string)
    ensures Success(message, data) != Failure<T>(code, text)
    ensures SuccessOf(data) != Failure<T>(code, text)
  {
  }
}
