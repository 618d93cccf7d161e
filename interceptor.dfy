/** The response interceptor every request of the library goes through: a
    success is reshaped to `{status, text}`, a failure is rejected with one
    normalised message string. */
module Interceptor {
  import opened Wrappers

  /** A response body as the HTTP client hands it over: raw text, or a parsed
      JSON object whose members are strings. Arrays, `null` and members of
      other types are not represented. */
  datatype Body = Text(text: string) | Object(fields: map<string, string>)

  /** How one request ended: no response at all (network failure), a
      response the client treats as an error, or a successful response.
      Which statuses are errors is the client's choice (by default, those
      outside 2xx); the constructor chosen stands for it. */
  datatype Exchange =
    | NoResponse
    | ErrorResponse(status: nat, body: Body)
    | OkResponse(status: nat, body: Body)

  /** The interceptor's reshaped success value `{status, text: data}`. */
  datatype Reply = Reply(status: nat, text: Body)

  /** The rejection when no response arrived. */
  const ServerError: string := "Server error"

  /** What JavaScript's string concatenation makes of a plain object. */
  const ObjectText: string := "[object Object]"

  predicate IsDigit(c: char) { '0' <= c <= '9' }

  predicate AllDigits(s: string) { forall i :: 0 <= i < |s| ==> IsDigit(s[i]) }

  /** The value of a string of decimal digits. */
  function DigitsValue(s: string): nat
    requires AllDigits(s)
  {
    if |s| == 0 then 0
    else DigitsValue(s[..|s| - 1]) * 10 + ((s[|s| - 1] as int) - ('0' as int))
  }

  /** A status code as string concatenation writes it: decimal digits without
      leading zeros, reading back as the same number. */
  function NatToString(n: nat): (s: string)
    ensures |s| >= 1 && AllDigits(s) && DigitsValue(s) == n
    ensures s[0] == '0' ==> n == 0
  {
    var d := [(('0' as int) + n % 10) as char];
    if n < 10 then d
    else
      var s := NatToString(n / 10) + d;
      assert s[..|s| - 1] == NatToString(n / 10);
      s
  }

  /** The text after the status in a rejection: the body's truthy `error`
      member if it has one, otherwise the body itself as a string. A text
      body has no `error` member. */
  function ErrorDetail(b: Body): string {
    match b
    case Text(t) => t
    case Object(f) => if "error" in f && f["error"] != "" then f["error"] else ObjectText
  }

  /** `status + ": " + detail`. */
  function ErrorMessage(status: nat, b: Body): string {
    NatToString(status) + ": " + ErrorDetail(b)
  }

  /** The interceptor: both of its handlers. */
  function Intercept(x: Exchange): (r: Result<Reply, string>)
    ensures r.Success? <==> x.OkResponse?
    ensures r.Success? ==> r.value.status == x.status && r.value.text == x.body
    ensures x.NoResponse? ==> r.error == ServerError
    ensures x.ErrorResponse? ==> r.error == ErrorMessage(x.status, x.body)
  {
    match x
    case NoResponse => Failure(ServerError)
    case ErrorResponse(status, body) => Failure(ErrorMessage(status, body))
    case OkResponse(status, body) => Success(Reply(status, body))
  }

  /** The length of the run of digits that starts m. */
  function LeadingDigits(m: string): (k: nat)
    ensures k <= |m| && AllDigits(m[..k])
    ensures k < |m| ==> !IsDigit(m[k])
  {
    if |m| == 0 || !IsDigit(m[0]) then 0
    else
      var k := 1 + LeadingDigits(m[1..]);
      assert m[..k] == [m[0]] + m[1..][..k - 1];
      k
  }

  /** Reads a rejection message back into its status and detail. */
  function ParseErrorMessage(m: string): Option<(nat, string)> {
    var k := LeadingDigits(m);
    if 0 < k && k + 2 <= |m| && m[k..k + 2] == ": " then Some((DigitsValue(m[..k]), m[k + 2..]))
    else None
  }

  lemma {:induction false} LeadingDigitsOf(d: string, rest: string)
    requires AllDigits(d)
    requires rest == [] || !IsDigit(rest[0])
    ensures LeadingDigits(d + rest) == |d|
  {
    if |d| > 0 {
      assert (d + rest)[1..] == d[1..] + rest;
      LeadingDigitsOf(d[1..], rest);
    } else {
      assert d + rest == rest;
    }
  }

  /** A rejection message for a response determines the status code and the
      detail it was built from. */
  lemma ErrorMessageRoundTrip(status: nat, b: Body)
    ensures ParseErrorMessage(ErrorMessage(status, b)) == Some((status, ErrorDetail(b)))
  {
    var d, detail := NatToString(status), ErrorDetail(b);
    var rest := ": " + detail;
    var m := ErrorMessage(status, b);
    assert m == d + rest;
    LeadingDigitsOf(d, rest);
    assert m[..|d|] == d;
    assert m[|d|..|d| + 2] == rest[..2] == ": ";
    assert m[|d| + 2..] == rest[2..] == detail;
  }

  /** A network failure can be told apart from every error response. */
  lemma ServerErrorDistinct(status: nat, b: Body)
    ensures ErrorMessage(status, b) != ServerError
    ensures ParseErrorMessage(ServerError) == None
  {
    assert IsDigit(ErrorMessage(status, b)[0]);
    assert !IsDigit(ServerError[0]);
  }

  /** Three-digit status codes are written as their digits. */
  lemma StatusText(a: nat, b: nat, c: nat)
    requires 1 <= a <= 9 && b <= 9 && c <= 9
    ensures NatToString(a * 100 + b * 10 + c) ==
      [('0' as int + a) as char, ('0' as int + b) as char, ('0' as int + c) as char]
  {
    var ab := a * 10 + b;
    assert a * 100 + b * 10 + c == ab * 10 + c;
    assert ab / 10 == a && ab % 10 == b;
    assert (ab * 10 + c) / 10 == ab && (ab * 10 + c) % 10 == c;
    assert NatToString(a) == [('0' as int + a) as char];
    assert NatToString(ab) == NatToString(a) + [('0' as int + b) as char];
    assert NatToString(ab * 10 + c) == NatToString(ab) + [('0' as int + c) as char];
  }

  lemma StructuredErrorExample()
    ensures Intercept(ErrorResponse(500, Object(map["error" := "disk full"]))) == Failure("500: disk full")
  {
    StatusText(5, 0, 0);
    assert "500" + ": " + "disk full" == "500: disk full";
  }

  lemma TextErrorExample()
    ensures Intercept(ErrorResponse(500, Text("oops"))) == Failure("500: oops")
  {
    StatusText(5, 0, 0);
    assert "500" + ": " + "oops" == "500: oops";
  }

  /** An object body whose `error` member is missing or empty is written out
      as a plain object. */
  lemma ObjectWithoutErrorExample()
    ensures Intercept(ErrorResponse(404, Object(map["error" := ""]))) == Failure("404: [object Object]")
  {
    StatusText(4, 0, 4);
    assert "404" + ": " + ObjectText == "404: [object Object]";
  }
}
