/**
 * The HTTP side of the service and the controller: status codes, response
 * bodies, the exceptions their handlers catch, and `handleException`.
 */
module WebResponse {
  import opened Wrappers
  import opened JavaText

  datatype Status = Ok | BadRequest | InternalServerError {
    function Code(): int
    {
      match this
      case Ok => 200
      case BadRequest => 400
      case InternalServerError => 500
    }
  }

  /**
   * A ResponseEntity body: null, a value of the declared type, the empty map
   * `handleException` returns in production, or a String (which the unchecked
   * cast in `handleException` also smuggles into any declared type).
   */
  datatype Body<T> = NullBody | Payload(value: T) | EmptyMap | Text(text: string)

  datatype Response<T> = Response(status: Status, body: Body<T>)

  /** One row or one column description: column name to value, values as text. */
  type Row = map<string, string>

  /** An exception caught by a handler; `message` is `getMessage()`, which may be null. */
  datatype JavaException =
    | SqlException(message: Option<string>)
    | OtherException(message: Option<string>)

  /** Dereferencing a null JdbcTemplate. */
  const NullPointerException: JavaException := OtherException(None)

  /** What a call into schema discovery or the JDBC template did: returned a value, or threw. */
  datatype Outcome<T> = Returned(value: T) | Threw(exception: JavaException)

  /**
   * `handleException`: always 500; with `spring.profiles.active` equal to "prod"
   * the body is an empty map, otherwise the prefix followed by the exception's message.
   */
  function HandleException<T>(activeProfile: Option<string>, e: JavaException, message: string): (r: Response<T>)
    ensures r.status == InternalServerError && r.status.Code() == 500
    ensures r.body == EmptyMap <==> activeProfile == Some("prod")
    ensures r.body.Text? <==> activeProfile != Some("prod")
    ensures r.body.Text? ==> |message| <= |r.body.text| && r.body.text[..|message|] == message
    ensures r.body.Text? ==> r.body.text[|message|..] == Render(e.message)
  {
    if activeProfile == Some("prod") then Response(InternalServerError, EmptyMap)
    else Response(InternalServerError, Text(message + Render(e.message)))
  }

  /** In production no two failures can be told apart by their responses. */
  lemma ProductionMasksFailures<T>(e1: JavaException, m1: string, e2: JavaException, m2: string)
    ensures HandleException<T>(Some("prod"), e1, m1) == HandleException<T>(Some("prod"), e2, m2)
  {
  }

  /** Outside production the prefix and the exception's message can both be read back. */
  lemma DevelopmentReportsFailures<T>(activeProfile: Option<string>, e1: JavaException, e2: JavaException, message: string)
    requires activeProfile != Some("prod")
    requires HandleException<T>(activeProfile, e1, message) == HandleException<T>(activeProfile, e2, message)
    ensures Render(e1.message) == Render(e2.message)
  {
    var t1 := HandleException<T>(activeProfile, e1, message).body.text;
    assert t1[|message|..] == Render(e1.message);
  }
}
