/** The response envelope every CRUD operation hands back: a payload, a
    human-readable message and a status code. */
module Envelope {
  import opened Documents
  import opened Store

  /** What an envelope can carry: nothing (JavaScript's `undefined`, when
      the envelope is built without an argument), a status text, one record
      or a list of records. */
  datatype Payload =
    | Undefined
    | Notice(text: string)
    | Document(record: Record)
    | Documents(records: seq<Record>)

  /** The envelope as a value: what the transport layer reads off it. */
  datatype Response = Response(data: Payload, message: string, statusCode: int)

  class ApplicationResponse {
    var data: Payload
    var message: string
    /** Private in the source: only the two accessors below touch it. */
    var statusCode: int

    function View(): Response
      reads this
    {
      Response(data, message, statusCode)
    }

    constructor (data: Payload)
      ensures View() == Response(data, "", 0)
    {
      this.data := data;
      message := "";
      statusCode := 0;
    }

    method SetMessage(message: string)
      modifies this
      ensures View() == old(View()).(message := message)
    {
      this.message := message;
    }

    method SetStatusCode(statusCode: int)
      modifies this
      ensures View() == old(View()).(statusCode := statusCode)
    {
      this.statusCode := statusCode;
    }

    method GetStatusCode() returns (code: int)
      ensures code == View().statusCode
    {
      code := statusCode;
    }
  }

  /** A settled operation seen through the envelope it resolved to. */
  function Viewed(s: Settled<ApplicationResponse>): Settled<Response>
    reads if s.Resolved? then {s.value} else {}
  {
    match s
    case Resolved(r) => Resolved(r.View())
    case Rejected(e) => Rejected(e)
  }

  /** A status code set on a fresh envelope is the one read back, and
      setting the message afterwards leaves it and the data alone. */
  method SetThenGet(data: Payload, code: int, message: string) returns (read: int, r: ApplicationResponse)
    ensures read == code
    ensures r.View() == Response(data, message, code)
  {
    r := new ApplicationResponse(data);
    r.SetStatusCode(code);
    r.SetMessage(message);
    read := r.GetStatusCode();
  }
}
