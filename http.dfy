/**
 * What travels over the wire between the client and the service: form values,
 * requests, responses, the client's error kinds, the base URL, and the
 * normalisation of a response into the value a call returns.
 */
module Http {
  import opened Wrappers
  import opened Strings

  /** A keyword-argument or form value as the client passes it on (Python's str, int, bool, None). */
  datatype Arg = Str(s: string) | Int(i: int) | Bool(b: bool) | Null

  /** Python truthiness of an argument value. */
  predicate Truthy(a: Arg)
  {
    match a
    case Str(s) => s != ""
    case Int(i) => i != 0
    case Bool(b) => b
    case Null => false
  }

  /** `d.get(key)`: the value, or None when the key is absent. */
  function GetArg(d: map<string, Arg>, key: string): (a: Arg)
    ensures key !in d ==> a == Null
    ensures key in d ==> a == d[key]
  {
    if key in d then d[key] else Null
  }

  /** Form fields (POST body) or query parameters (GET). */
  type Form = map<string, Arg>

  /** One part of a multipart upload: the `_dummy` placeholder or an opened torrent file. */
  datatype Upload = Placeholder | FileBuffer(handle: nat)

  datatype Verb = Get | Post

  /** One HTTP call the client issued. */
  datatype HttpRequest = HttpRequest(url: string, verb: Verb, form: Form, files: map<string, Upload>)

  /** A call as it went out: the session it was sent on, and the request. */
  datatype Sent = Sent(session: nat, request: HttpRequest)

  /** The service's answer: a status code and the body text. */
  datatype Response = Response(status: int, text: string)

  /** Parsed structured data. */
  datatype Json =
    | JNull
    | JBool(b: bool)
    | JNumber(n: int)
    | JString(s: string)
    | JArray(items: seq<Json>)
    | JObject(fields: map<string, Json>)

  /** What a successful call returns: parsed JSON, or the body text when it is not JSON. */
  datatype Payload = Data(json: Json) | Text(text: string)

  /** The client's failure kinds. */
  datatype Error =
    | WrongCredentials                  // login answered with anything but "Ok."
    | HttpError(status: int, url: string) // raise_for_status on a 4xx or 5xx answer
    | ConnectionFailed                  // the transport got no answer
    | InvalidPriority                   // ValueError in set_file_priority
    | FileIdNotInt                      // TypeError in set_file_priority

  /** The path every endpoint hangs below. */
  const ApiPath: string := "api/v2/"

  /** The body text by which the login endpoint signals success. */
  const LoginOk: string := "Ok."

  const Forbidden: int := 403

  /** The stored base URL: the root, a `/` unless it already ends in one, then `api/v2/`. */
  function BaseUrl(root: string): (base: string)
    ensures root <= base
    ensures |base| >= |ApiPath| && base[|base| - |ApiPath|..] == ApiPath
    ensures |base| == |root| + |ApiPath| + (if |root| > 0 && root[|root| - 1] == '/' then 0 else 1)
    ensures base[|base| - |ApiPath| - 1] == '/'
  {
    var slashed := if |root| > 0 && root[|root| - 1] == '/' then root else root + "/";
    slashed + ApiPath
  }

  /** Adding the trailing slash oneself makes no difference. */
  lemma BaseUrlSlashInsensitive(root: string)
    requires |root| == 0 || root[|root| - 1] != '/'
    ensures BaseUrl(root + "/") == BaseUrl(root)
  {
  }

  /** `raise_for_status`: client and server errors. */
  predicate IsErrorStatus(status: int)
  {
    400 <= status < 600
  }

  /**
   * The tail of a call once no retry applies: an error status raises, an empty body
   * is an empty object, otherwise the parsed JSON or, failing that, the text itself.
   */
  function Normalise(r: Response, url: string, parse: string -> Option<Json>): (out: Result<Payload, Error>)
    ensures out.Failure? <==> IsErrorStatus(r.status)
    ensures out.Failure? ==> out.error == HttpError(r.status, url)
    ensures out == Success(Data(JObject(map[]))) <== !IsErrorStatus(r.status) && r.text == ""
    ensures out.Success? && out.value.Text? <==> !IsErrorStatus(r.status) && r.text != "" && parse(r.text).None?
    ensures out.Success? && out.value.Text? ==> out.value.text == r.text
    ensures !IsErrorStatus(r.status) && r.text != "" && parse(r.text).Some? ==> out == Success(Data(parse(r.text).value))
  {
    if IsErrorStatus(r.status) then Failure(HttpError(r.status, url))
    else if |r.text| == 0 then Success(Data(JObject(map[])))
    else match parse(r.text)
      case Some(v) => Success(Data(v))
      case None => Success(Text(r.text))
  }

  /** An error status raises before the body is looked at: the body does not matter. */
  lemma ErrorIgnoresBody(status: int, a: string, b: string, url: string, parse: string -> Option<Json>)
    requires IsErrorStatus(status)
    ensures Normalise(Response(status, a), url, parse) == Normalise(Response(status, b), url, parse)
  {
  }

  /** A plain-text body such as a version string comes back unchanged. */
  lemma PlainTextExample(parse: string -> Option<Json>)
    requires parse("v4.3.2") == None
    ensures Normalise(Response(200, "v4.3.2"), "", parse) == Success(Text("v4.3.2"))
  {
  }
}
