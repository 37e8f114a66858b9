/** Response envelopes and small helpers of the API (apps/api/src/lib/utils.ts). */
module ApiUtils {
  import opened Text
  import opened Wrappers

  // HTTP status codes used by the routes.
  const OK: nat := 200
  const CREATED: nat := 201
  const BAD_REQUEST: nat := 400
  const FORBIDDEN: nat := 403
  const NOT_FOUND: nat := 404
  const CONFLICT: nat := 409
  const UNPROCESSABLE_ENTITY: nat := 422
  const TOO_MANY_REQUESTS: nat := 429
  const INTERNAL_SERVER_ERROR: nat := 500

  datatype ErrorInfo = ErrorInfo(code: string, details: string, fields: map<string, string>)

  /** The JSON body of every reply: `{status: "success", details, data}` or
      `{status: "error", error: {code, details, fields}}`. */
  datatype Envelope<T> = SuccessBody(details: string, data: T) | ErrorBody(error: ErrorInfo)
  {
    function Status(): string
    {
      if SuccessBody? then "success" else "error"
    }
  }

  /** A reply: HTTP status and body. */
  datatype Reply<T> = Reply(status: nat, body: Envelope<T>)

  function SuccessResponse<T>(data: T, details: string): (r: Envelope<T>)
    ensures r.Status() == "success"
    ensures r.SuccessBody? && r.data == data && r.details == details
  {
    SuccessBody(details, data)
  }

  /** `fields` defaults to the empty record when omitted. */
  function ErrorResponse<T>(code: string, details: string, fields: Option<map<string, string>>): (r: Envelope<T>)
    ensures r.Status() == "error"
    ensures r.ErrorBody? && r.error.code == code && r.error.details == details
    ensures fields.None? ==> r.error.fields == map[]
    ensures fields.Some? ==> r.error.fields == fields.value
  {
    ErrorBody(ErrorInfo(code, details, if fields.Some? then fields.value else map[]))
  }

  /** What a route answers: the request validator's rejection (its reply is
      built by a validation hook that is not part of this model), or the
      handler's reply. */
  datatype Response<T> = RejectedByValidator | Replied(reply: Reply<T>)

  /** The outcome of a guard chain: go on to the effect; stop because the
      request validator rejected the body (its reply is built by a validation
      hook that is not part of this model); or stop with an error reply
      (status, code, details). */
  datatype Verdict = Proceed | Invalid | Refuse(status: nat, code: string, details: string)

  /** One issue reported by a schema: where, and what. */
  datatype Issue = Issue(path: seq<string>, message: string)

  /** The result of a schema's `safeParse`. */
  datatype SafeParse<T> = Parsed(data: T) | Issues(issues: seq<Issue>)

  datatype FieldResult<T> = FieldOk(data: T) | FieldError(error: string)

  /** `parseJsonField`. JSON parsing and the schema are not part of this model:
      they are passed in as `jsonParse` (None when the text is not JSON) and
      `safeParse`. An absent or empty value is an empty list. An issue list
      with no first element makes the source's message building throw inside
      its `try`, so it ends in the same error as malformed JSON. */
  function ParseJsonField<J, E>(value: Option<string>, jsonParse: string -> Option<J>,
                                safeParse: J -> SafeParse<seq<E>>, fieldName: string): (r: FieldResult<seq<E>>)
    ensures (value.None? || value == Some("")) ==> r == FieldOk([])
    ensures r.FieldOk? && r.data != [] ==> value.Some? && jsonParse(value.value).Some?
    ensures value.Some? && value.value != "" && jsonParse(value.value).None? ==>
      r == FieldError(fieldName + " must be valid JSON")
    ensures value.Some? && value.value != "" && jsonParse(value.value).Some? ==>
      match safeParse(jsonParse(value.value).value)
      case Parsed(d) => r == FieldOk(d)
      case Issues(found) =>
        r == FieldError(if found == [] then fieldName + " must be valid JSON"
                        else Join(found[0].path, ".") + " - " + found[0].message)
  {
    if value.None? || value.value == "" then FieldOk([])
    else match jsonParse(value.value)
      case None => FieldError(fieldName + " must be valid JSON")
      case Some(json) =>
        match safeParse(json)
        case Parsed(d) => FieldOk(d)
        case Issues(found) =>
          if |found| == 0 then FieldError(fieldName + " must be valid JSON")
          else FieldError(Join(found[0].path, ".") + " - " + found[0].message)
  }

  newtype uint32 = x: int | 0 <= x < 0x1_0000_0000

  /** The 62-character alphabet: upper-case letters, lower-case letters, digits. */
  const PasswordAlphabet: string := "ABCDEFGHIJKLMNOPQRSTUVWXYZ" + "abcdefghijklmnopqrstuvwxyz" + "0123456789"

  const DefaultPasswordLength: nat := 16

  predicate IsAlphanumeric(c: char)
  {
    IsUpperAscii(c) || IsLowerAscii(c) || IsDigit(c)
  }

  lemma AlphabetIsAlphanumeric()
    ensures |PasswordAlphabet| == 62
    ensures forall i :: 0 <= i < |PasswordAlphabet| ==> IsAlphanumeric(PasswordAlphabet[i])
  {
    var upper, lower, digits := "ABCDEFGHIJKLMNOPQRSTUVWXYZ", "abcdefghijklmnopqrstuvwxyz", "0123456789";
    assert forall i :: 0 <= i < |upper| ==> IsAlphanumeric(upper[i]);
    assert forall i :: 0 <= i < |lower| ==> IsAlphanumeric(lower[i]);
    assert forall i :: 0 <= i < |digits| ==> IsAlphanumeric(digits[i]);
  }

  /** `generatePassword(length)`. The random words from `crypto.getRandomValues`
      are passed in; there are as many as the requested length (16 by default),
      and each picks the alphabet character at its value modulo 62. */
  function GeneratePassword(length: Option<nat>, randoms: seq<uint32>): (pwd: string)
    requires |randoms| == if length.Some? then length.value else DefaultPasswordLength
    ensures |pwd| == if length.Some? then length.value else DefaultPasswordLength
    ensures forall i :: 0 <= i < |pwd| ==> pwd[i] == PasswordAlphabet[randoms[i] as int % 62]
    ensures forall i :: 0 <= i < |pwd| ==> IsAlphanumeric(pwd[i])
  {
    AlphabetIsAlphanumeric();
    seq(|randoms|, i requires 0 <= i < |randoms| => PasswordAlphabet[randoms[i] as int % |PasswordAlphabet|])
  }
}
