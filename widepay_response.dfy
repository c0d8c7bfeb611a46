/** A WidePay API response: the raw body, its decoded value, the header lines,
    the HTTP status taken from the first header line and the error messages
    taken from the decoded body. */
module Response {
  import opened Values
  import opened Strings

  /** The status reported when no status can be read from the headers. */
  const DefaultStatus := "400"

  /** The array handed to the response: a 'content' entry and, optionally, a
      'headers' entry (absent after a transport error). */
  datatype ApiResponse = ApiResponse(content: string, headers: Option<seq<string>>)

  /** The second space-separated token of the first header line, or the
      default when there is no first line or it holds no space. */
  function StatusOf(headers: Option<seq<string>>): (status: string)
    ensures ' ' !in status
    ensures headers.None? || headers.value == [] || ' ' !in headers.value[0] ==> status == DefaultStatus
  {
    if headers.Some? && |headers.value| > 0 then
      var parts := Explode(' ', headers.value[0]);
      if |parts| > 1 then parts[1] else DefaultStatus
    else DefaultStatus
  }

  /** `$error->msg` for one entry of the errors collection; null when the entry
      is not an object or has no msg. */
  function MsgOf(entry: Value): (m: Value)
    ensures !entry.Object? ==> m == Null
    ensures Property(entry, "msg").Some? ==> m == Property(entry, "msg").value
    ensures m != Null ==> Property(entry, "msg") == Some(m)
  {
    match Property(entry, "msg")
    case Some(m) => m
    case None => Null
  }

  function MsgsOf(entries: seq<Value>): seq<Value>
  {
    seq(|entries|, k requires 0 <= k < |entries| => MsgOf(entries[k]))
  }

  /** The errors of a decoded body: the msg of every entry of a set `errors`
      collection, else a set singular `error`, else none. */
  function ErrorsOf(response: Value): (errors: seq<Value>)
    ensures |errors| > 1 ==> Isset(Property(response, "errors"))
    ensures !response.Object? ==> errors == []
  {
    var many := Property(response, "errors");
    var one := Property(response, "error");
    if Isset(many) then MsgsOf(Elements(many.value))
    else if Isset(one) then [one.value]
    else []
  }

  class WidepayResponse {
    var status: string
    var raw: string
    var response: Value
    var errors: seq<Value>
    var headers: Option<seq<string>>

    /** status and errors are the ones derived from headers and response. */
    ghost predicate Valid()
      reads this
    {
      status == StatusOf(headers) && errors == ErrorsOf(response)
    }

    constructor (apiResponse: ApiResponse, jsonDecode: string -> Value)
      ensures raw == apiResponse.content
      ensures response == jsonDecode(apiResponse.content)
      ensures headers == apiResponse.headers
      ensures Valid()
    {
      raw := apiResponse.content;
      response := jsonDecode(apiResponse.content);
      headers := apiResponse.headers;
      status := DefaultStatus;
      errors := [];
      new;

      if headers.Some? && |headers.value| > 0 {
        var parts := Explode(' ', headers.value[0]);
        if |parts| > 1 {
          status := parts[1];
        }
      }

      errors := [];
      var many := Property(response, "errors");
      if Isset(many) {
        var entries := Elements(many.value);
        var i := 0;
        while i < |entries|
          modifies this`errors
          invariant 0 <= i <= |entries|
          invariant |errors| == i
          invariant forall k :: 0 <= k < i ==> errors[k] == MsgOf(entries[k])
        {
          errors := errors + [MsgOf(entries[i])];
          i := i + 1;
        }
      } else {
        var one := Property(response, "error");
        if Isset(one) {
          errors := [one.value];
        }
      }
    }

    method Status() returns (s: string)
      requires Valid()
      ensures s == status && s == StatusOf(headers)
    {
      s := status;
    }

    method Raw() returns (s: string)
      ensures s == raw
    {
      s := raw;
    }

    method Response() returns (v: Value)
      ensures v == response
    {
      v := response;
    }

    method Errors() returns (e: seq<Value>)
      requires Valid()
      ensures e == errors && e == ErrorsOf(response)
    {
      e := errors;
    }

    method Headers() returns (h: Option<seq<string>>)
      ensures h == headers
    {
      h := headers;
    }
  }

  /** Without a first header line the status is the default. */
  lemma StatusWithoutHeaders(headers: Option<seq<string>>)
    requires headers.None? || headers.value == []
    ensures StatusOf(headers) == DefaultStatus
  {
  }

  /** A first header line without a space gives the default status. */
  lemma StatusWithoutSpace(line: string, more: seq<string>)
    requires ' ' !in line
    ensures StatusOf(Some([line] + more)) == DefaultStatus
  {
  }

  /** A first header line `first second rest`, where `rest` is empty or starts
      with a space, gives status `second` exactly. Together with
      StatusWithoutSpace this covers every first line. */
  lemma StatusIsSecondToken(first: string, second: string, rest: string, more: seq<string>)
    requires ' ' !in first && ' ' !in second
    requires rest == [] || rest[0] == ' '
    ensures StatusOf(Some([first + " " + second + rest] + more)) == second
  {
    SecondPiece(' ', first, second, rest);
  }

  /** A set `errors` collection gives one error per entry, each entry's msg, in
      order. */
  lemma ErrorsFromCollection(response: Value)
    requires Isset(Property(response, "errors"))
    ensures var entries := Elements(Property(response, "errors").value);
      |ErrorsOf(response)| == |entries| &&
      forall k :: 0 <= k < |entries| ==> ErrorsOf(response)[k] == MsgOf(entries[k])
  {
  }

  /** When `errors` is set the singular `error` plays no part: two bodies with
      the same `errors` give the same errors whatever their `error`. */
  lemma ErrorsIgnoreSingular(a: Value, b: Value)
    requires Isset(Property(a, "errors"))
    requires Property(a, "errors") == Property(b, "errors")
    ensures ErrorsOf(a) == ErrorsOf(b)
  {
  }

  /** With no `errors` collection a set singular `error` is the only error. */
  lemma ErrorsFromSingular(response: Value)
    requires !Isset(Property(response, "errors"))
    requires Isset(Property(response, "error"))
    ensures ErrorsOf(response) == [Property(response, "error").value]
  {
  }

  /** There are no errors exactly when neither field is set, or when the
      `errors` collection is set but visits no entry (an empty list or object,
      or a scalar). An undecodable body (null) has no errors. */
  lemma ErrorsEmptyIff(response: Value)
    ensures ErrorsOf(response) == [] <==>
      (!Isset(Property(response, "errors")) && !Isset(Property(response, "error"))) ||
      (Isset(Property(response, "errors")) && Elements(Property(response, "errors").value) == [])
    ensures response == Null ==> ErrorsOf(response) == []
  {
  }

  /** Three sample bodies: a collection, a singular error, neither. */
  lemma ErrorsExamples()
    ensures ErrorsOf(Object([("errors", List([Object([("msg", Str("bad cpf"))])]))])) == [Str("bad cpf")]
    ensures ErrorsOf(Object([("error", Str("invalid token"))])) == [Str("invalid token")]
    ensures ErrorsOf(Object([("id", Int(1))])) == []
  {
  }
}
