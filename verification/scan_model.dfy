/** The per-target scan lifecycle of `AnalyticsIntegration` (integration.py) as pure
    functions over a snapshot of the object's fields. Each function here is the
    specification of one method of the class in module Integration. */
module ScanModel {
  import opened Wrappers
  import opened PyText
  import opened Http

  const ScannerName := "scanner-analytics-integration"
  /** The labels every image must carry, in the order they are looked up. */
  const NeededLabelNames: seq<string> := ["git-url", "git-sha", "email-ids"]
  const RegisterPath := "/api/v1/register"
  const ScannerErrorPath := "/api/v1/scanner-error"
  const LastScanReportKey := "last_scan_report"

  /** The ValueError message for a missing environment variable. */
  function EnvMissingMessage(name: string): string {
    "No value for " + name + EnvMissingAdvice
  }
  const EnvMissingAdvice := " env variable. Please re-run with: SERVER=<url> IMAGE_NAME=<image> atomic scan [..]"
  const CannotReport :=
    "Can't report errors via /scanner-error API, as SERVER URL is not given in scanner command."
  const ErrorsReported := "Reported errors via /scanner-error POST API."
  const LastScanSummary := "Last scan report available in 'Scan Results' field."
  const RegisteredSummary :=
    "Registered repository for scan, report will be availble in next run after some time."

  /** The scanner's JSON report (`json_out`). `finishedTime` is None until
      the "Finished Time" key is added at the end of a run. */
  datatype Report = Report(
    startTime: string,
    finishedTime: Option<string>,
    successful: bool,
    scanType: string,
    uuid: string,
    cveFeedLastUpdated: string,
    scanner: string,
    scanResults: Json,
    summary: string)

  /** One POST the scanner sent: endpoint, api path and body. */
  datatype Post = Post(endpoint: string, api: string, body: Json)

  /** Everything a run reads from outside the object: the process environment, whether
      connecting to docker raised (and its message), the labels of the image under test
      (a missing name is a missing key), the network, and the clock at the end of the run. */
  datatype World = World(
    env: map<string, string>,
    dockerError: Option<string>,
    labels: map<string, string>,
    net: Net,
    now: string)

  /** The fields of one `AnalyticsIntegration` object that its methods update,
      plus the log of POSTs it has sent. */
  datatype State = State(
    imageName: Option<string>,
    serverUrl: Option<string>,
    errors: seq<string>,
    failure: bool,
    recordedLabels: map<string, string>,
    data: map<string, string>,
    jsonOut: Report,
    posted: seq<Post>)

  /** The `(status, json_out)` pair a run returns. */
  datatype Returned = Returned(status: bool, report: Report)

  /** The object's state after a step that ends the run, with what the step returns. */
  datatype Finished = Finished(state: State, ret: Returned)

  /** What `post_scanner_error` returns, with the POSTs it sent (none or one). */
  datatype ErrorReport = ErrorReport(ok: bool, note: string, sent: seq<Post>)

  /** The state of the label loop: the error list, the recorded labels and the failure flag. */
  datatype LabelScan = LabelScan(errors: seq<string>, recorded: map<string, string>, failure: bool)

  /** Python's `s[1:]`, which is empty for an empty `s`. */
  function DropFirst(s: string): string {
    if s == [] then [] else s[1..]
  }

  /** A string-valued dictionary as a JSON object. */
  function StrObject(m: map<string, string>): Json {
    JObj(map k | k in m :: JStr(m[k]))
  }

  /** A list of strings as a JSON array. */
  function StrList(xs: seq<string>): Json {
    JArr(seq(|xs|, i requires 0 <= i < |xs| => JStr(xs[i])))
  }

  /** `dict.get(key, "")` on a string-valued dictionary. */
  function GetOrEmpty(m: map<string, string>, key: string): string {
    if key in m then m[key] else ""
  }

  /** `template_json_data`: the report every run starts from. */
  function TemplateJsonData(scanner: string, scanType: string, uuid: string, startTime: string): Report {
    Report(startTime, None, false, scanType, uuid, "NA", scanner, JObj(map[]), "")
  }

  /** The state `__init__` leaves behind. */
  function Start(container: string, scanType: string, startTime: string): State {
    State(None, None, [], true, map[], map[],
          TemplateJsonData(ScannerName, scanType, DropFirst(container), startTime), [])
  }

  /** `get_image_name` and `get_server_url`: a missing or empty variable raises a
      ValueError whose message names the variable. */
  function EnvLookup(env: map<string, string>, name: string): (r: Result<string, string>)
    ensures r.Success? <==> name in env && env[name] != ""
    ensures r.Success? ==> r.value == env[name]
    ensures r.Failure? ==> r.error == EnvMissingMessage(name) && IsSubstring(name, r.error)
  {
    if name in env && env[name] != "" then Success(env[name])
    else
      SubstringOfConcat("No value for ", name, EnvMissingAdvice);
      Failure(EnvMissingMessage(name))
  }

  function GetImageName(env: map<string, string>): Result<string, string> {
    EnvLookup(env, "IMAGE_NAME")
  }

  function GetServerUrl(env: map<string, string>): Result<string, string> {
    EnvLookup(env, "SERVER")
  }

  function MissingLabelMessage(image: string, name: string): string {
    "Image " + image + " does not have " + name + " label configured."
  }

  /** The image carries the label with a non-empty value. */
  predicate Present(labels: map<string, string>, name: string) {
    name in labels && labels[name] != ""
  }

  /** `find_label`: the label's value, or the EmptyLabelException message when
      the label is missing or empty. */
  function FindLabel(labels: map<string, string>, image: string, name: string): (r: Result<string, string>)
    ensures r.Success? <==> Present(labels, name)
    ensures r.Success? ==> r.value == labels[name]
    ensures r.Failure? ==> r.error == MissingLabelMessage(image, name) && IsSubstring(name, r.error)
  {
    if Present(labels, name) then Success(labels[name])
    else
      SubstringOfConcat("Image " + image + " does not have ", name, " label configured.");
      Failure(MissingLabelMessage(image, name))
  }

  /** One iteration of the label loop: a missing label appends its message and sets the
      failure flag; a present one clears the flag and records the stripped value. */
  function ScanStep(acc: LabelScan, image: string, labels: map<string, string>, name: string): LabelScan {
    match FindLabel(labels, image, name)
    case Failure(e) => acc.(errors := acc.errors + [e], failure := true)
    case Success(v) => acc.(failure := false, recorded := acc.recorded[name := Strip(v)])
  }

  /** The name loop run over `names` from `acc`. */
  function ScanLabels(acc: LabelScan, image: string, labels: map<string, string>, names: seq<string>): LabelScan
    decreases |names|
  {
    if names == [] then acc
    else ScanStep(ScanLabels(acc, image, labels, names[..|names| - 1]), image, labels, names[|names| - 1])
  }

  /** `s` with the label loop's three fields replaced by `sc`. */
  function WithScan(s: State, sc: LabelScan): State {
    s.(errors := sc.errors, recordedLabels := sc.recorded, failure := sc.failure)
  }

  /** The api `run` registers with: the same path for every scan type. */
  function RegisterApi(scanType: string): (api: string)
    ensures api == RegisterPath
  {
    if scanType in ["register", "scan"] then RegisterPath
    else RegisterPath
  }

  /** The body `post_scanner_error` sends. */
  function ScannerErrorBody(data: map<string, string>, recorded: map<string, string>, errors: seq<string>): Json {
    JObj(map[
      "image-name" := JStr(GetOrEmpty(data, "image_name")),
      "email-ids" := JStr(GetOrEmpty(recorded, "email-ids")),
      "error" := StrList(errors)])
  }

  /** `post_scanner_error`. */
  function ScannerErrorOutcome(s: State, net: Net): ErrorReport {
    if s.serverUrl.None? || s.serverUrl.value == "" then ErrorReport(false, CannotReport, [])
    else
      var body := ScannerErrorBody(s.data, s.recordedLabels, s.errors);
      var pr := PostRequest(net, s.serverUrl.value, ScannerErrorPath, body);
      ErrorReport(pr.status, if pr.status then ErrorsReported else Render(net, pr.out),
                  [Post(s.serverUrl.value, ScannerErrorPath, body)])
  }

  /** `return_on_failure` when the failure flag is set. */
  function FailureOutcome(s: State, w: World): Finished {
    var er := ScannerErrorOutcome(s, w.net);
    var errors := s.errors + [er.note];
    var out := s.jsonOut.(
      finishedTime := Some(w.now),
      successful := false,
      scanResults := StrObject(s.data),
      summary := "Error: " + w.net.show(StrList(errors)));
    Finished(s.(errors := errors, jsonOut := out, posted := s.posted + er.sent), Returned(false, out))
  }

  /** `return_on_success(resp)`. */
  function SuccessOutcome(s: State, resp: Payload, w: World): Finished {
    var out :=
      if Contains(resp, LastScanReportKey) then
        s.jsonOut.(successful := true, finishedTime := Some(w.now),
                   scanResults := AsJson(resp), summary := LastScanSummary)
      else
        s.jsonOut.(successful := true, finishedTime := Some(w.now),
                   scanResults := StrObject(s.data), summary := RegisteredSummary);
    Finished(s.(jsonOut := out), Returned(true, out))
  }

  /** `run` from state `s` of an object created with `scanType`. */
  function RunOutcome(scanType: string, s: State, w: World): Finished {
    match GetImageName(w.env)
    case Failure(e) => FailureOutcome(s.(errors := s.errors + [e], failure := true), w)
    case Success(image) =>
      var s1 := s.(imageName := Some(image));
      match GetServerUrl(w.env)
      case Failure(e) => FailureOutcome(s1.(errors := s1.errors + [e], failure := true), w)
      case Success(server) =>
        var s2 := s1.(serverUrl := Some(server), failure := false,
                      data := s1.data["image_name" := image]["server_url" := server]);
        ConnectOutcome(scanType, s2, image, server, w)
  }

  /** The part of `run` after the environment is read: a raised docker connection
      ends the run through `return_on_failure`; otherwise the labels are collected. */
  function ConnectOutcome(scanType: string, s: State, image: string, server: string, w: World): Finished {
    match w.dockerError
    case Some(e) => FailureOutcome(s.(errors := s.errors + [e], failure := true), w)
    case None => LabelsOutcome(scanType, s.(failure := false), image, server, w)
  }

  /** The rest of `run` once the environment is read and docker is connected:
      the label loop, then the early return or the registration. */
  function LabelsOutcome(scanType: string, s: State, image: string, server: string, w: World): Finished {
    var s3 := WithScan(s, ScanLabels(LabelScan(s.errors, s.recordedLabels, s.failure),
                                     image, w.labels, NeededLabelNames));
    if s3.failure then FailureOutcome(s3, w)
    else RegisterOutcome(scanType, s3, server, w)
  }

  /** The registration step of `run`: merge the labels into the data, POST them, and
      finish through `return_on_failure` only when the POST raised. */
  function RegisterOutcome(scanType: string, s: State, server: string, w: World): Finished {
    var api := RegisterApi(scanType);
    var body := StrObject(s.recordedLabels);
    var pr := PostRequest(w.net, server, api, body);
    var s4 := s.(data := s.data + s.recordedLabels, posted := s.posted + [Post(server, api, body)]);
    if !pr.status then
      FailureOutcome(s4.(failure := true, errors := s4.errors + [Render(w.net, pr.out)]), w)
    else SuccessOutcome(s4, pr.out, w)
  }
}
