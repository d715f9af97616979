/** The error the CRUD layer raises itself: a message and a status code
    fixed when the error is built.  The status code is private in the
    source and has no setter, so the error is an immutable value here. */
module ApiErrors {

  datatype APIError = APIError(message: string, statusCode: int)
  {
    /** The error's `name` property. */
    const name: string := "APIError"

    function GetStatusCode(): (code: int)
      ensures code == statusCode
    {
      statusCode
    }
  }

  /** What the constructor stores is exactly what the getters give back. */
  lemma ConstructedAsGiven(message: string, statusCode: int)
    ensures APIError(message, statusCode).GetStatusCode() == statusCode
    ensures APIError(message, statusCode).message == message
    ensures APIError(message, statusCode).name == "APIError"
  {
  }
}
