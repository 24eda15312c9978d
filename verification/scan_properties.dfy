/** What the scan lifecycle guarantees, stated over the functions of module ScanModel
    that the methods of `AnalyticsIntegration` are proved to follow. */
module ScanProperties {
  import opened Wrappers
  import opened PyText
  import opened Http
  import opened ScanModel

  /** The labels among `names` that the image lacks or has empty, in lookup order. */
  function MissingNames(labels: map<string, string>, names: seq<string>): seq<string> {
    if names == [] then []
    else (if Present(labels, names[0]) then [] else [names[0]]) + MissingNames(labels, names[1..])
  }

  /** One missing-label message per name, in order. */
  function MissingMessages(image: string, names: seq<string>): seq<string> {
    seq(|names|, i requires 0 <= i < |names| => MissingLabelMessage(image, names[i]))
  }

  lemma {:induction false} MissingNamesMembers(labels: map<string, string>, names: seq<string>)
    ensures forall n :: n in MissingNames(labels, names) <==> n in names && !Present(labels, n)
    ensures |MissingNames(labels, names)| <= |names|
  {
    if names != [] {
      MissingNamesMembers(labels, names[1..]);
      assert forall n :: n in names <==> n == names[0] || n in names[1..];
    }
  }

  lemma {:induction false} MissingNamesSnoc(labels: map<string, string>, names: seq<string>, n: string)
    ensures MissingNames(labels, names + [n])
         == MissingNames(labels, names) + (if Present(labels, n) then [] else [n])
  {
    if names == [] {
      assert names + [n] == [n];
    } else {
      assert (names + [n])[1..] == names[1..] + [n];
      MissingNamesSnoc(labels, names[1..], n);
    }
  }

  /** Every needed label that is missing or empty has its message among the loop's errors. */
  lemma MissingLabelReported(image: string, labels: map<string, string>, names: seq<string>, n: string)
    requires n in names && !Present(labels, n)
    ensures MissingLabelMessage(image, n) in MissingMessages(image, MissingNames(labels, names))
  {
    MissingNamesMembers(labels, names);
    var ns := MissingNames(labels, names);
    var k :| 0 <= k < |ns| && ns[k] == n;
    assert MissingMessages(image, ns)[k] == MissingLabelMessage(image, n);
  }

  /** The label loop appends exactly one message per missing or empty label, in the
      order the labels are looked up, and nothing else. */
  lemma {:induction false} ScanErrorsAreMissingLabels(acc: LabelScan, image: string, labels: map<string, string>, names: seq<string>)
    ensures ScanLabels(acc, image, labels, names).errors
         == acc.errors + MissingMessages(image, MissingNames(labels, names))
    decreases |names|
  {
    if names != [] {
      var init, last := names[..|names| - 1], names[|names| - 1];
      assert names == init + [last];
      ScanErrorsAreMissingLabels(acc, image, labels, init);
      MissingNamesSnoc(labels, init, last);
      var m := MissingNames(labels, init);
      if !Present(labels, last) {
        assert MissingMessages(image, m + [last]) == MissingMessages(image, m) + [MissingLabelMessage(image, last)];
      }
    }
  }

  /** The label loop records the stripped value of every present label among `names`,
      and changes no other key. */
  lemma {:induction false} ScanRecordsPresentLabels(acc: LabelScan, image: string, labels: map<string, string>, names: seq<string>)
    ensures var r := ScanLabels(acc, image, labels, names).recorded;
            forall k :: k in r <==> k in acc.recorded || (k in names && Present(labels, k))
    ensures var r := ScanLabels(acc, image, labels, names).recorded;
            forall k :: k in r ==>
              r[k] == if k in names && Present(labels, k) then Strip(labels[k]) else acc.recorded[k]
    decreases |names|
  {
    if names != [] {
      var init, last := names[..|names| - 1], names[|names| - 1];
      assert forall k :: k in names <==> k in init || k == last;
      ScanRecordsPresentLabels(acc, image, labels, init);
    }
  }

  /** After the label loop the failure flag says only whether the LAST label was missing:
      a later successful lookup clears the flag an earlier missing label set. */
  lemma ScanFailureIsLastLabel(acc: LabelScan, image: string, labels: map<string, string>, names: seq<string>)
    requires names != []
    ensures ScanLabels(acc, image, labels, names).failure == !Present(labels, names[|names| - 1])
  {
  }

  /** The run of a freshly constructed object. */
  function FreshRun(container: string, scanType: string, startTime: string, w: World): Finished {
    RunOutcome(scanType, Start(container, scanType, startTime), w)
  }

  predicate EnvReady(w: World) {
    GetImageName(w.env).Success? && GetServerUrl(w.env).Success?
  }

  /** Without IMAGE_NAME or SERVER the run fails at once: the errors are the ValueError
      message naming the variable and the note that errors cannot be reported, because no
      server URL is known; nothing is sent. */
  lemma MissingEnvironmentFails(container: string, scanType: string, startTime: string, w: World)
    requires !EnvReady(w)
    ensures var f := FreshRun(container, scanType, startTime, w);
            var name := if GetImageName(w.env).Failure? then "IMAGE_NAME" else "SERVER";
            && !f.ret.status
            && f.state.errors == [EnvMissingMessage(name), CannotReport]
            && IsSubstring(name, f.state.errors[0])
            && f.state.posted == []
            && f.ret.report.scanResults == JObj(map[])
            && f.ret.report.summary == "Error: " + w.net.show(StrList(f.state.errors))
  {
    assert StrObject(map[]) == JObj(map[]);
  }

  /** A raised docker connection fails the run after one error report to the server,
      whose body carries the image name, no contact address and the docker error; the
      outcome of that report is appended to the errors. */
  lemma DockerFailureReported(container: string, scanType: string, startTime: string, w: World)
    requires EnvReady(w) && w.dockerError.Some?
    ensures var f := FreshRun(container, scanType, startTime, w);
            var image, server, e := GetImageName(w.env).value, GetServerUrl(w.env).value, w.dockerError.value;
            var body := JObj(map["image-name" := JStr(image), "email-ids" := JStr(""), "error" := StrList([e])]);
            var pr := PostRequest(w.net, server, ScannerErrorPath, body);
            && !f.ret.status
            && f.state.posted == [Post(server, ScannerErrorPath, body)]
            && f.state.errors == [e, if pr.status then ErrorsReported else Render(w.net, pr.out)]
  {
    var image, server, e := GetImageName(w.env).value, GetServerUrl(w.env).value, w.dockerError.value;
    var data := map["image_name" := image]["server_url" := server];
    assert GetOrEmpty(data, "image_name") == image;
    assert ScannerErrorBody(data, map[], [e])
        == JObj(map["image-name" := JStr(image), "email-ids" := JStr(""), "error" := StrList([e])]);
    var s0 := Start(container, scanType, startTime);
    var s2 := s0.(imageName := Some(image), serverUrl := Some(server), failure := false, data := data);
    assert FreshRun(container, scanType, startTime, w) == ConnectOutcome(scanType, s2, image, server, w);
    var s3 := s2.(errors := [e], failure := true);
    assert s2.errors + [e] == [e];
    assert ConnectOutcome(scanType, s2, image, server, w) == FailureOutcome(s3, w);
    assert s3.serverUrl == Some(server) && server != "";
  }

  /** The state of a fresh object once the environment is read and docker is connected. */
  function Connected(container: string, scanType: string, startTime: string, image: string, server: string): State {
    var s0 := Start(container, scanType, startTime);
    s0.(imageName := Some(image), serverUrl := Some(server), failure := false,
        data := s0.data["image_name" := image]["server_url" := server])
  }

  /** With the environment set and docker connected, a fresh run goes on to the label loop
      from `Connected`, with no error recorded and nothing sent. */
  lemma FreshRunReachesLabels(container: string, scanType: string, startTime: string, w: World)
    requires EnvReady(w) && w.dockerError.None?
    ensures var image, server := GetImageName(w.env).value, GetServerUrl(w.env).value;
            var s2 := Connected(container, scanType, startTime, image, server);
            && s2.errors == [] && s2.recordedLabels == map[] && s2.posted == []
            && FreshRun(container, scanType, startTime, w) == LabelsOutcome(scanType, s2, image, server, w)
  {
  }

  /** The labels a fresh object collects: the stripped value of every present needed label. */
  lemma FreshScan(image: string, labels: map<string, string>)
    ensures var sc := ScanLabels(LabelScan([], map[], false), image, labels, NeededLabelNames);
            && sc.errors == MissingMessages(image, MissingNames(labels, NeededLabelNames))
            && (forall k :: k in sc.recorded <==> k in NeededLabelNames && Present(labels, k))
            && (forall k :: k in sc.recorded ==> sc.recorded[k] == Strip(labels[k]))
            && sc.failure == !Present(labels, "email-ids")
  {
    var acc := LabelScan([], map[], false);
    ScanErrorsAreMissingLabels(acc, image, labels, NeededLabelNames);
    ScanRecordsPresentLabels(acc, image, labels, NeededLabelNames);
    ScanFailureIsLastLabel(acc, image, labels, NeededLabelNames);
  }

  /** With the environment read and docker connected, `run` POSTs to the register api
      exactly when the last needed label, "email-ids", is present: only that label's
      absence takes the early return after the label loop. */
  lemma RegistersIffLastLabelPresent(container: string, scanType: string, startTime: string, w: World)
    requires EnvReady(w) && w.dockerError.None?
    ensures var f := FreshRun(container, scanType, startTime, w);
            Present(w.labels, "email-ids") <==> (f.state.posted != [] && f.state.posted[0].api == RegisterPath)
  {
    var image, server := GetImageName(w.env).value, GetServerUrl(w.env).value;
    FreshRunReachesLabels(container, scanType, startTime, w);
    ScanFailureIsLastLabel(LabelScan([], map[], false), image, w.labels, NeededLabelNames);
  }

  /** When "email-ids" is missing the run fails with one message per missing label, in
      lookup order, followed by the outcome of the one error report it sends. */
  lemma MissingLastLabelFails(container: string, scanType: string, startTime: string, w: World)
    requires EnvReady(w) && w.dockerError.None? && !Present(w.labels, "email-ids")
    ensures var f := FreshRun(container, scanType, startTime, w);
            var image, server := GetImageName(w.env).value, GetServerUrl(w.env).value;
            var missing := MissingMessages(image, MissingNames(w.labels, NeededLabelNames));
            && !f.ret.status
            && |f.state.errors| == |missing| + 1
            && f.state.errors[..|missing|] == missing
            && MissingLabelMessage(image, "email-ids") in f.state.errors
            && |f.state.posted| == 1
            && f.state.posted[0].endpoint == server
            && f.state.posted[0].api == ScannerErrorPath
            && f.state.posted[0].body.fields["email-ids"] == JStr("")
  {
    var image, server := GetImageName(w.env).value, GetServerUrl(w.env).value;
    FreshRunReachesLabels(container, scanType, startTime, w);
    var s2 := Connected(container, scanType, startTime, image, server);
    var sc := ScanLabels(LabelScan([], map[], false), image, w.labels, NeededLabelNames);
    var acc := LabelScan([], map[], false);
    ScanErrorsAreMissingLabels(acc, image, w.labels, NeededLabelNames);
    ScanRecordsPresentLabels(acc, image, w.labels, NeededLabelNames);
    ScanFailureIsLastLabel(acc, image, w.labels, NeededLabelNames);
    assert "email-ids" !in sc.recorded;
    var s3 := WithScan(s2, sc);
    assert FreshRun(container, scanType, startTime, w) == FailureOutcome(s3, w);
    MissingLabelReported(image, w.labels, NeededLabelNames, "email-ids");
  }

  /** When "email-ids" is present, the first POST is the registration: the recorded labels,
      sent to the register api of the server, and the data gains those labels. */
  lemma RegistrationRequest(container: string, scanType: string, startTime: string, w: World)
    requires EnvReady(w) && w.dockerError.None? && Present(w.labels, "email-ids")
    ensures var f := FreshRun(container, scanType, startTime, w);
            var image, server := GetImageName(w.env).value, GetServerUrl(w.env).value;
            var rec := f.state.recordedLabels;
            && f.state.posted != []
            && f.state.posted[0] == Post(server, RegisterPath, StrObject(rec))
            && (forall k :: k in rec <==> k in NeededLabelNames && Present(w.labels, k))
            && (forall k :: k in rec ==> rec[k] == Strip(w.labels[k]))
            && f.state.data == map["image_name" := image, "server_url" := server] + rec
  {
    var image, server := GetImageName(w.env).value, GetServerUrl(w.env).value;
    FreshRunReachesLabels(container, scanType, startTime, w);
    var s2 := Connected(container, scanType, startTime, image, server);
    var sc := ScanLabels(LabelScan([], map[], false), image, w.labels, NeededLabelNames);
    ScanRecordsPresentLabels(LabelScan([], map[], false), image, w.labels, NeededLabelNames);
    ScanFailureIsLastLabel(LabelScan([], map[], false), image, w.labels, NeededLabelNames);
    var s3 := WithScan(s2, sc);
    assert FreshRun(container, scanType, startTime, w) == RegisterOutcome(scanType, s3, server, w);
  }

  /** How the registration response decides the outcome of the registration step, from
      any state with a known server: only a raised POST fails (with a message naming the
      register URL, and one error report after it); a 200 answer and any other status
      code both succeed, and only a 200 object holding "last_scan_report" becomes the
      scan results. */
  lemma RegisterResponseDecides(scanType: string, s: State, server: string, w: World)
    requires s.serverUrl == Some(server) && server != ""
    ensures var f := RegisterOutcome(scanType, s, server, w);
            var url := w.net.urljoin(server, RegisterPath);
            var body := StrObject(s.recordedLabels);
            match w.net.respond(url, body)
            case Raised(cause) =>
              && !f.ret.status
              && |f.state.errors| == |s.errors| + 2
              && f.state.errors[|s.errors|] == PostFailureMessage(url, w.net.show(body), cause)
              && IsSubstring(url, f.state.errors[|s.errors|])
              && f.state.posted == s.posted + [Post(server, RegisterPath, body), f.state.posted[|s.posted| + 1]]
              && f.state.posted[|s.posted| + 1].api == ScannerErrorPath
            case Responded(code, resp) =>
              && f.ret.status
              && f.state.errors == s.errors
              && f.state.posted == s.posted + [Post(server, RegisterPath, body)]
              && (code == HttpOk && LastScanReportKey in resp ==>
                    f.ret.report.scanResults == JObj(resp) && f.ret.report.summary == LastScanSummary)
              && (code != HttpOk || LastScanReportKey !in resp ==>
                    f.ret.report.scanResults == StrObject(f.state.data) && f.ret.report.summary == RegisteredSummary)
  {
    PostRequestOutcomes(w.net, server, RegisterPath, StrObject(s.recordedLabels));
    NonOkMessageHasNoKey();
  }

  /** The same decision for a fresh run: only a raised registration POST fails the run. */
  lemma RegistrationOutcome(container: string, scanType: string, startTime: string, w: World)
    requires EnvReady(w) && w.dockerError.None? && Present(w.labels, "email-ids")
    ensures var f := FreshRun(container, scanType, startTime, w);
            var server := GetServerUrl(w.env).value;
            var url := w.net.urljoin(server, RegisterPath);
            var body := StrObject(f.state.recordedLabels);
            match w.net.respond(url, body)
            case Raised(cause) =>
              && !f.ret.status
              && |f.state.errors| >= 2
              && f.state.errors[|f.state.errors| - 2] == PostFailureMessage(url, w.net.show(body), cause)
              && |f.state.posted| == 2 && f.state.posted[1].api == ScannerErrorPath
            case Responded(code, resp) =>
              && f.ret.status
              && |f.state.posted| == 1
              && (code == HttpOk && LastScanReportKey in resp ==>
                    f.ret.report.scanResults == JObj(resp) && f.ret.report.summary == LastScanSummary)
              && (code != HttpOk || LastScanReportKey !in resp ==>
                    f.ret.report.scanResults == StrObject(f.state.data) && f.ret.report.summary == RegisteredSummary)
  {
    var image, server := GetImageName(w.env).value, GetServerUrl(w.env).value;
    FreshRunReachesLabels(container, scanType, startTime, w);
    var s2 := Connected(container, scanType, startTime, image, server);
    var sc := ScanLabels(LabelScan([], map[], false), image, w.labels, NeededLabelNames);
    ScanFailureIsLastLabel(LabelScan([], map[], false), image, w.labels, NeededLabelNames);
    var s3 := WithScan(s2, sc);
    assert FreshRun(container, scanType, startTime, w) == RegisterOutcome(scanType, s3, server, w);
    RegisterResponseDecides(scanType, s3, server, w);
  }

  /** The scan type never changes what a run does: every scan type registers with the same api. */
  lemma ScanTypeIsIgnored(a: string, b: string, s: State, w: World)
    ensures RunOutcome(a, s, w) == RunOutcome(b, s, w)
  {
  }

  /** The report fields every way of ending a run keeps or sets. */
  predicate Finalized(s: State, f: Finished, w: World) {
    var r := f.ret.report;
    && f.ret.status == r.successful
    && r == f.state.jsonOut
    && r.finishedTime == Some(w.now)
    && r.startTime == s.jsonOut.startTime && r.scanType == s.jsonOut.scanType
    && r.uuid == s.jsonOut.uuid && r.scanner == s.jsonOut.scanner
    && r.cveFeedLastUpdated == s.jsonOut.cveFeedLastUpdated
  }

  /** `return_on_failure` appends exactly one message and puts the whole error list in the summary. */
  lemma FailureOutcomeShape(s: State, w: World)
    ensures var f := FailureOutcome(s, w);
            && Finalized(s, f, w) && !f.ret.status
            && |f.state.errors| == |s.errors| + 1 && f.state.errors[..|s.errors|] == s.errors
            && f.ret.report.scanResults == StrObject(s.data)
            && f.ret.report.summary == "Error: " + w.net.show(StrList(f.state.errors))
  {
  }

  /** Whatever happens, the returned status is the report's "Successful" field, the returned
      report is the object's `json_out`, "Finished Time" is stamped, the template fields are
      kept, and a failed run has at least one error besides the error-report note, all of
      them in the summary. */
  lemma RunReportInvariant(scanType: string, s: State, w: World)
    ensures var f := RunOutcome(scanType, s, w);
            && Finalized(s, f, w)
            && (!f.ret.status ==> (|f.state.errors| >= |s.errors| + 2
                                   && f.ret.report.summary == "Error: " + w.net.show(StrList(f.state.errors))))
  {
    match GetImageName(w.env)
    case Failure(e) =>
      FailureOutcomeShape(s.(errors := s.errors + [e], failure := true), w);
    case Success(image) =>
      var s1 := s.(imageName := Some(image));
      match GetServerUrl(w.env)
      case Failure(e) =>
        FailureOutcomeShape(s1.(errors := s1.errors + [e], failure := true), w);
      case Success(server) =>
        var s2 := s1.(serverUrl := Some(server), failure := false,
                      data := s1.data["image_name" := image]["server_url" := server]);
        ConnectReportInvariant(scanType, s2, image, server, w);
  }

  lemma ConnectReportInvariant(scanType: string, s: State, image: string, server: string, w: World)
    ensures var f := ConnectOutcome(scanType, s, image, server, w);
            && Finalized(s, f, w)
            && (!f.ret.status ==> (|f.state.errors| >= |s.errors| + 2
                                   && f.ret.report.summary == "Error: " + w.net.show(StrList(f.state.errors))))
  {
    match w.dockerError
    case Some(e) =>
      FailureOutcomeShape(s.(errors := s.errors + [e], failure := true), w);
    case None =>
      var s2 := s.(failure := false);
      var acc := LabelScan(s2.errors, s2.recordedLabels, s2.failure);
      var sc := ScanLabels(acc, image, w.labels, NeededLabelNames);
      var s3 := WithScan(s2, sc);
      ScanErrorsAreMissingLabels(acc, image, w.labels, NeededLabelNames);
      if s3.failure {
        ScanFailureIsLastLabel(acc, image, w.labels, NeededLabelNames);
        MissingNamesMembers(w.labels, NeededLabelNames);
        assert "email-ids" in MissingNames(w.labels, NeededLabelNames);
        FailureOutcomeShape(s3, w);
      } else {
        RegisterReportInvariant(scanType, s3, server, w);
      }
  }

  lemma RegisterReportInvariant(scanType: string, s: State, server: string, w: World)
    ensures var f := RegisterOutcome(scanType, s, server, w);
            && Finalized(s, f, w)
            && (!f.ret.status ==> (|f.state.errors| >= |s.errors| + 2
                                   && f.ret.report.summary == "Error: " + w.net.show(StrList(f.state.errors))))
  {
    var api := RegisterApi(scanType);
    var body := StrObject(s.recordedLabels);
    var pr := PostRequest(w.net, server, api, body);
    var s4 := s.(data := s.data + s.recordedLabels, posted := s.posted + [Post(server, api, body)]);
    if !pr.status {
      FailureOutcomeShape(s4.(failure := true, errors := s4.errors + [Render(w.net, pr.out)]), w);
    }
  }

  /** A run of a fresh object reports UUID as the container name without its first character. */
  lemma FreshRunUuid(container: string, scanType: string, startTime: string, w: World)
    ensures var r := FreshRun(container, scanType, startTime, w).ret.report;
            && r.uuid == DropFirst(container)
            && (container != [] ==> r.uuid == container[1..])
            && r.scanType == scanType && r.scanner == ScannerName && r.cveFeedLastUpdated == "NA"
  {
    RunReportInvariant(scanType, Start(container, scanType, startTime), w);
  }

  /** `return_on_success` shows the previous scan report exactly when the response holds
      "last_scan_report"; the message of a non-200 answer never does. */
  lemma SuccessSummaryFollowsResponse(s: State, resp: Payload, w: World)
    ensures var f := SuccessOutcome(s, resp, w);
            && f.ret.status && f.ret.report.successful && f.ret.report.finishedTime == Some(w.now)
            && (f.ret.report.summary == LastScanSummary <==> Contains(resp, LastScanReportKey))
            && (resp == Text(NonOkMessage) ==>
                  f.ret.report.summary == RegisteredSummary && f.ret.report.scanResults == StrObject(s.data))
  {
    NonOkMessageHasNoKey();
    assert |LastScanSummary| != |RegisteredSummary|;
  }

  /** A run can succeed although labels were missing: when "git-url" is absent but
      "email-ids" is present and the register POST gets any answer, the failure flag was
      cleared by the last lookup, so the incomplete labels are registered and the run
      returns success while its errors still hold one message per missing label, the
      "git-url" one first. None of those errors reaches the report. */
  lemma SuccessDespiteMissingLabels(container: string, scanType: string, startTime: string, w: World)
    requires EnvReady(w) && w.dockerError.None?
    requires Present(w.labels, "email-ids") && !Present(w.labels, "git-url")
    requires forall b :: w.net.respond(w.net.urljoin(GetServerUrl(w.env).value, RegisterPath), b).Responded?
    ensures var f := FreshRun(container, scanType, startTime, w);
            var image := GetImageName(w.env).value;
            && f.ret.status
            && f.ret.report.successful
            && f.state.errors == MissingMessages(image, MissingNames(w.labels, NeededLabelNames))
            && f.state.errors != []
            && f.state.errors[0] == MissingLabelMessage(image, "git-url")
  {
    var image, server := GetImageName(w.env).value, GetServerUrl(w.env).value;
    FreshRunReachesLabels(container, scanType, startTime, w);
    var s2 := Connected(container, scanType, startTime, image, server);
    var sc := ScanLabels(LabelScan([], map[], false), image, w.labels, NeededLabelNames);
    ScanErrorsAreMissingLabels(LabelScan([], map[], false), image, w.labels, NeededLabelNames);
    ScanFailureIsLastLabel(LabelScan([], map[], false), image, w.labels, NeededLabelNames);
    var s3 := WithScan(s2, sc);
    assert !s3.failure;
    var pr := PostRequest(w.net, server, RegisterPath, StrObject(s3.recordedLabels));
    assert pr.status;
    assert FreshRun(container, scanType, startTime, w).state.errors == sc.errors;
    assert MissingNames(w.labels, NeededLabelNames)[0] == "git-url";
  }
}
