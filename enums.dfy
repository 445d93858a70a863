/** The library's enumerations, with the string each member stands for at run time. */
module Enums {

  /** The verbs the client sends; there is no PATCH. */
  datatype Method = GET | POST | PUT | DELETE

  function MethodName(m: Method): string
  {
    match m
    case GET => "GET"
    case POST => "POST"
    case PUT => "PUT"
    case DELETE => "DELETE"
  }

  /** Why a call failed: the server answered with an error status (API), the request
      never completed (Network), or anything else went wrong (Internal). */
  datatype ErrorType = Internal | API | Network

  function ErrorTypeName(e: ErrorType): string
  {
    match e
    case Internal => "Internal"
    case API => "API"
    case Network => "Network"
  }

  /** The body decoders the client can choose between. */
  datatype ResponseFormat = JSON | Text | Blob | FormData | ArrayBuffer

  function ResponseFormatName(f: ResponseFormat): string
  {
    match f
    case JSON => "json"
    case Text => "text"
    case Blob => "buffer"
    case FormData => "form"
    case ArrayBuffer => "arrayBuffer"
  }

  /** The coarse outcome of a call. */
  datatype Status = Success | Error

  /** Distinct members have distinct run-time strings, so comparing the strings, as
      callers do (`errorType === 'API'`), compares the members. */
  lemma NamesAreDistinct()
    ensures forall m1: Method, m2: Method :: MethodName(m1) == MethodName(m2) ==> m1 == m2
    ensures forall e1: ErrorType, e2: ErrorType :: ErrorTypeName(e1) == ErrorTypeName(e2) ==> e1 == e2
    ensures forall f1: ResponseFormat, f2: ResponseFormat :: ResponseFormatName(f1) == ResponseFormatName(f2) ==> f1 == f2
  {
    forall m1: Method, m2: Method | MethodName(m1) == MethodName(m2) ensures m1 == m2 {
      assert MethodName(m1)[..2] == MethodName(m2)[..2];
    }
    forall e1: ErrorType, e2: ErrorType | ErrorTypeName(e1) == ErrorTypeName(e2) ensures e1 == e2 {
      assert ErrorTypeName(e1)[0] == ErrorTypeName(e2)[0];
    }
    forall f1: ResponseFormat, f2: ResponseFormat | ResponseFormatName(f1) == ResponseFormatName(f2) ensures f1 == f2 {
      assert ResponseFormatName(f1)[0] == ResponseFormatName(f2)[0];
      assert |ResponseFormatName(f1)| == |ResponseFormatName(f2)|;
    }
  }
}
