/** `AnalyticsIntegration` (integration.py): the object that drives one scan target
    through reading the environment, collecting labels, registering with the analytics
    server and filling in the report. Every method is proved to leave the object in the
    state the matching function of module ScanModel describes. */
module Integration {
  import opened Wrappers
  import opened PyText
  import opened Http
  import opened ScanModel

  class AnalyticsIntegration {
    const scanner: string := ScannerName
    const container: string
    const scanType: string
    const neededLabelNames: seq<string> := NeededLabelNames

    var imageName: Option<string>
    var serverUrl: Option<string>
    var errors: seq<string>
    var failure: bool
    var recordedLabels: map<string, string>
    var data: map<string, string>
    var jsonOut: Report
    /** The POSTs this object has sent, oldest first. */
    ghost var posted: seq<Post>

    /** The object's updatable fields as one value. */
    ghost function Snapshot(): State
      reads this
    {
      State(imageName, serverUrl, errors, failure, recordedLabels, data, jsonOut, posted)
    }

    /** `__init__`: nothing recorded yet, the failure flag set, and the report template
        with `UUID` the container name without its first character. */
    constructor (container: string, scanType: string, startTime: string)
      ensures this.container == container && this.scanType == scanType
      ensures Snapshot() == Start(container, scanType, startTime)
      ensures !jsonOut.successful && jsonOut.uuid == DropFirst(container) && jsonOut.finishedTime.None?
    {
      this.container := container;
      this.scanType := scanType;
      imageName, serverUrl := None, None;
      errors, failure := [], true;
      recordedLabels, data := map[], map[];
      jsonOut := TemplateJsonData(scanner, scanType, DropFirst(container), startTime);
      posted := [];
    }

    /** `record_fatal_error`: append one message to the error list. */
    method RecordFatalError(error: string)
      modifies this`errors
      ensures errors == old(errors) + [error]
    {
      errors := errors + [error];
    }

    /** `record_label`: record the label's value with surrounding whitespace removed. */
    method RecordLabel(name: string, value: string)
      modifies this`recordedLabels
      ensures recordedLabels == old(recordedLabels)[name := Strip(value)]
    {
      recordedLabels := recordedLabels[name := Strip(value)];
    }

    /** `post_scanner_error`: without a server URL, report that errors cannot be sent and
        send nothing; otherwise POST the image name, the contact addresses and the error
        list to the scanner-error api and say whether the POST went out. */
    method PostScannerError(net: Net) returns (status: bool, out: string)
      modifies this`posted
      ensures var r := ScannerErrorOutcome(old(Snapshot()), net);
              status == r.ok && out == r.note && posted == old(posted) + r.sent
      ensures old(serverUrl).None? ==> !status && out == CannotReport && posted == old(posted)
    {
      if serverUrl.None? || serverUrl.value == "" {
        status, out := false, CannotReport;
        return;
      }
      var body := ScannerErrorBody(data, recordedLabels, errors);
      var pr := PostRequest(net, serverUrl.value, ScannerErrorPath, body);
      posted := posted + [Post(serverUrl.value, ScannerErrorPath, body)];
      if !pr.status {
        status, out := false, Render(net, pr.out);
      } else {
        status, out := true, ErrorsReported;
      }
    }

    /** `return_on_failure`: when the failure flag is set, report the errors to the server,
        append the outcome of that report to the errors, and finish the report as
        unsuccessful with the data gathered so far; otherwise return nothing. */
    method ReturnOnFailure(w: World) returns (r: Option<Returned>)
      modifies this`errors, this`jsonOut, this`posted
      ensures old(failure) ==> var f := FailureOutcome(old(Snapshot()), w);
                               Snapshot() == f.state && r == Some(f.ret)
      ensures old(failure) ==> |errors| == |old(errors)| + 1 && !jsonOut.successful
      ensures !old(failure) ==> Snapshot() == old(Snapshot()) && r == None
    {
      if failure {
        var status, out := PostScannerError(w.net);
        errors := errors + [out];
        jsonOut := jsonOut.(
          finishedTime := Some(w.now),
          successful := false,
          scanResults := StrObject(data),
          summary := "Error: " + w.net.show(StrList(errors)));
        r := Some(Returned(false, jsonOut));
      } else {
        r := None;
      }
    }

    /** `return_on_success(resp)`: finish the report as successful; show the response when
        it carries a previous scan report, the gathered data otherwise. */
    method ReturnOnSuccess(resp: Payload, w: World) returns (status: bool, report: Report)
      modifies this`jsonOut
      ensures var f := SuccessOutcome(old(Snapshot()), resp, w);
              Snapshot() == f.state && Returned(status, report) == f.ret
      ensures status && report.successful && report.finishedTime == Some(w.now)
    {
      jsonOut := jsonOut.(successful := true, finishedTime := Some(w.now));
      if Contains(resp, LastScanReportKey) {
        jsonOut := jsonOut.(scanResults := AsJson(resp), summary := LastScanSummary);
      } else {
        jsonOut := jsonOut.(scanResults := StrObject(data), summary := RegisteredSummary);
      }
      status, report := true, jsonOut;
    }

    /** `return_on_failure` at a point of `run` where the failure flag is set. */
    method Fail(w: World) returns (status: bool, report: Report)
      requires failure
      modifies this`errors, this`jsonOut, this`posted
      ensures var f := FailureOutcome(old(Snapshot()), w);
              Snapshot() == f.state && Returned(status, report) == f.ret
    {
      var r := ReturnOnFailure(w);
      status, report := r.value.status, r.value.report;
    }

    /** The label loop of `run`: look up every needed label in order; a missing or empty
        one appends its message to the errors and sets the failure flag, a present one
        clears the flag and is recorded stripped. */
    method CollectLabels(image: string, labels: map<string, string>)
      modifies this`errors, this`recordedLabels, this`failure
      ensures LabelScan(errors, recordedLabels, failure)
           == ScanLabels(LabelScan(old(errors), old(recordedLabels), old(failure)), image, labels, NeededLabelNames)
    {
      ghost var start := LabelScan(errors, recordedLabels, failure);
      for i := 0 to |neededLabelNames|
        invariant LabelScan(errors, recordedLabels, failure) == ScanLabels(start, image, labels, neededLabelNames[..i])
      {
        var name := neededLabelNames[i];
        assert neededLabelNames[..i + 1][..i] == neededLabelNames[..i];
        var found := FindLabel(labels, image, name);
        if found.Failure? {
          RecordFatalError(found.error);
          failure := true;
        } else {
          failure := false;
          RecordLabel(name, found.value);
        }
      }
      assert neededLabelNames[..|neededLabelNames|] == NeededLabelNames;
    }

    /** The registration step of `run`: merge the recorded labels into the data, POST them
        to the register api, and finish through `return_on_failure` only when the POST raised
        (a non-200 answer still goes through `return_on_success`). */
    method RegisterLabels(server: string, w: World) returns (status: bool, report: Report)
      requires !failure
      modifies this`data, this`posted, this`failure, this`errors, this`jsonOut
      ensures var f := RegisterOutcome(scanType, old(Snapshot()), server, w);
              Snapshot() == f.state && Returned(status, report) == f.ret
    {
      data := data + recordedLabels;
      var api := RegisterApi(scanType);
      var body := StrObject(recordedLabels);
      var pr := PostRequest(w.net, server, api, body);
      posted := posted + [Post(server, api, body)];
      if !pr.status {
        failure := true;
        RecordFatalError(Render(w.net, pr.out));
        assert RegisterOutcome(scanType, old(Snapshot()), server, w) == FailureOutcome(Snapshot(), w);
        status, report := Fail(w);
        return;
      }
      assert RegisterOutcome(scanType, old(Snapshot()), server, w) == SuccessOutcome(Snapshot(), pr.out, w);
      status, report := ReturnOnSuccess(pr.out, w);
    }

    /** The part of `run` after the environment is read: connect to docker, collect the
        labels, and register them unless the label loop left the failure flag set. */
    method ConnectAndScan(image: string, server: string, w: World) returns (status: bool, report: Report)
      modifies this`data, this`posted, this`failure, this`errors, this`jsonOut, this`recordedLabels
      ensures var f := ConnectOutcome(scanType, old(Snapshot()), image, server, w);
              Snapshot() == f.state && Returned(status, report) == f.ret
    {
      if w.dockerError.Some? {
        RecordFatalError(w.dockerError.value);
        failure := true;
        assert ConnectOutcome(scanType, old(Snapshot()), image, server, w) == FailureOutcome(Snapshot(), w);
        status, report := Fail(w);
        return;
      }
      failure := false;
      ghost var target := LabelsOutcome(scanType, Snapshot(), image, server, w);

      CollectLabels(image, w.labels);
      if failure {
        assert target == FailureOutcome(Snapshot(), w);
        status, report := Fail(w);
        return;
      }
      assert target == RegisterOutcome(scanType, Snapshot(), server, w);
      status, report := RegisterLabels(server, w);
    }

    /** `run`: read the environment, connect to docker, look up every needed label,
        register the recorded labels, and finish through `return_on_failure` or
        `return_on_success`. */
    method Run(w: World) returns (status: bool, report: Report)
      modifies this
      ensures var f := RunOutcome(scanType, old(Snapshot()), w);
              Snapshot() == f.state && Returned(status, report) == f.ret
    {
      var image := GetImageName(w.env);
      if image.Failure? {
        RecordFatalError(image.error);
        failure := true;
        assert RunOutcome(scanType, old(Snapshot()), w) == FailureOutcome(Snapshot(), w);
        status, report := Fail(w);
        return;
      }
      imageName := Some(image.value);
      var server := GetServerUrl(w.env);
      if server.Failure? {
        RecordFatalError(server.error);
        failure := true;
        assert RunOutcome(scanType, old(Snapshot()), w) == FailureOutcome(Snapshot(), w);
        status, report := Fail(w);
        return;
      }
      serverUrl := Some(server.value);
      failure := false;
      data := data["image_name" := image.value]["server_url" := server.value];

      assert RunOutcome(scanType, old(Snapshot()), w)
          == ConnectOutcome(scanType, Snapshot(), image.value, server.value, w);
      status, report := ConnectAndScan(image.value, server.value, w);
    }
  }
}
