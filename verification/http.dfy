/** The scanner's one outbound HTTP helper, `post_request`, with the network
    and the JSON library reduced to the three outcomes the scanner can tell apart. */
module Http {
  import opened PyText

  /** A JSON value as `json.loads` produces it. */
  datatype Json =
    | JNull
    | JBool(b: bool)
    | JNum(n: real)
    | JStr(s: string)
    | JArr(items: seq<Json>)
    | JObj(fields: map<string, Json>)

  /** What the network does with one POST: the request raises (connection refused,
      DNS failure, timeout), or the server answers with a status code and a body that
      parses as a JSON object. */
  datatype Transport = Raised(cause: string) | Responded(statusCode: int, body: map<string, Json>)

  /** The second component of `post_request`'s result: a message, or the parsed body. */
  datatype Payload = Text(text: string) | Object(fields: map<string, Json>)

  datatype PostResult = PostResult(status: bool, out: Payload)

  /** The collaborators `post_request` calls and the model does not look inside:
      `urljoin`, Python's `str` of a JSON-like value, and the server itself
      (answering a POST of `body` to `url`). */
  datatype Net = Net(
    urljoin: (string, string) -> string,
    show: Json -> string,
    respond: (string, Json) -> Transport)

  /** `requests.codes.ok` */
  const HttpOk := 200
  /** The message `post_request` returns for any status other than 200 (one string,
      written in two pieces only so that proofs about its characters stay small). */
  const NonOkMessage := "Returned non okay status" + " code on POST request."

  function PostFailureMessage(url: string, shownData: string, cause: string): string {
    "Could not send POST request to URL " + url + ", with data: " + shownData + "." + " Error: " + cause
  }

  /** `post_request(endpoint, api, data)`: POST `data` to `urljoin(endpoint, api)`.
      Only a raised request yields status false, and its message names the URL. */
  function PostRequest(net: Net, endpoint: string, api: string, data: Json): (r: PostResult)
    ensures !r.status <==> net.respond(net.urljoin(endpoint, api), data).Raised?
    ensures !r.status ==> r.out.Text? && IsSubstring(net.urljoin(endpoint, api), r.out.text)
  {
    var url := net.urljoin(endpoint, api);
    match net.respond(url, data)
    case Raised(cause) =>
      var msg := PostFailureMessage(url, net.show(data), cause);
      SubstringOfConcat("Could not send POST request to URL ", url,
        ", with data: " + net.show(data) + "." + " Error: " + cause);
      assert msg == "Could not send POST request to URL " + url +
        (", with data: " + net.show(data) + "." + " Error: " + cause);
      PostResult(false, Text(msg))
    case Responded(code, body) =>
      if code == HttpOk then PostResult(true, Object(body))
      else PostResult(true, Text(NonOkMessage))
  }

  /** Python's `key in resp` on `post_request`'s second component:
      key membership for a parsed object, substring search for a message. */
  predicate Contains(resp: Payload, key: string) {
    match resp
    case Object(m) => key in m
    case Text(t) => IsSubstring(key, t)
  }

  /** Python's `str(resp)`. */
  function Render(net: Net, resp: Payload): string {
    match resp
    case Text(t) => t
    case Object(m) => net.show(JObj(m))
  }

  /** `resp` as the JSON value it is stored as in a report. */
  function AsJson(resp: Payload): Json {
    match resp
    case Text(t) => JStr(t)
    case Object(m) => JObj(m)
  }

  /** The three shapes of `post_request`'s result, and what decides between them. */
  lemma PostRequestOutcomes(net: Net, endpoint: string, api: string, data: Json)
    ensures var url := net.urljoin(endpoint, api);
            var r := PostRequest(net, endpoint, api, data);
            match net.respond(url, data)
            case Raised(cause) =>
              r == PostResult(false, Text(PostFailureMessage(url, net.show(data), cause)))
            case Responded(code, body) =>
              && r.status
              && (code == HttpOk ==> r.out == Object(body))
              && (code != HttpOk ==> r.out == Text(NonOkMessage))
  {
  }

  /** The non-200 message never looks like a response carrying a previous scan report. */
  lemma NonOkMessageHasNoKey()
    ensures !Contains(Text(NonOkMessage), "last_scan_report")
  {
    assert "last_scan_report"[4] == '_';
    NonOkMessageLacksUnderscore();
    NotSubstringWithoutChar("last_scan_report", NonOkMessage, '_');
  }

  lemma NonOkMessageLacksUnderscore()
    ensures '_' !in NonOkMessage
  {
    assert '_' !in "Returned non okay status";
    assert '_' !in " code on POST request.";
  }
}
