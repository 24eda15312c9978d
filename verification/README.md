# scanner-analytics-integration: the per-target scan lifecycle in Dafny

The analytics-integration scanner is an Atomic scanner plugin. For every scan target it
drives one `AnalyticsIntegration` object (`integration.py`) through a fixed lifecycle:

1. read `IMAGE_NAME` and `SERVER` from the environment;
2. connect to the local docker socket;
3. look up the labels `git-url`, `git-sha` and `email-ids` on the image;
4. POST the recorded labels to the analytics server's register api;
5. fill in a JSON report (`json_out`) that says whether the run succeeded.

Any failure along the way is appended to an error list. On failure, the errors are
reported to the server's scanner-error api when a server URL is known.

The model has five modules:

- `PyText`: Python's `str.strip` and the substring test behind `key in some_string`.
- `Http`: `post_request`, reduced to what the scanner can tell apart:
  - the request raised;
  - the server answered 200 with a JSON object;
  - the server answered with any other status.
- `ScanModel`: one pure function per lifecycle step, over a `State` value that holds the
  object's updatable fields plus the log of POSTs it sent. `RunOutcome` is the whole of `run`.
- `Integration`: the class `AnalyticsIntegration`.
  - Its fields are the ones the Python object updates.
  - Each method has `modifies` clauses naming exactly the fields it changes.
  - Each method is proved to leave the object in the state the matching `ScanModel`
    function computes from the old state. `CollectLabels` is the label loop, a `for`
    loop carrying that relation as its invariant.
- `ScanProperties`: what a run guarantees, proved about the `ScanModel` functions:
  - which errors are recorded;
  - which labels are recorded and sent;
  - when the run registers;
  - how the server's answer decides the result;
  - which report fields every path fills in.

Everything the object reads from outside is a parameter of type `World`:

- the environment, as a map;
- whether connecting to docker raised, and with what message;
- the image's labels, as a map;
- the network, as `Net`. It holds `urljoin`, Python's `str` of a JSON-like value, and
  the server's answer to a POST, all given as functions.
- the time a run finishes.

The start time is a constructor parameter. The network side effect is a ghost log
`posted` of `Post(endpoint, api, body)` values.

The source promises complete labels before registering: the comment at
`integration.py:169` says the needed labels must be present in the image, and the comment
at `integration.py:316` says `run` returns success only when no data failure occurred.
The code does not keep that promise, and the model follows the code. The label loop sets
the failure flag for a missing label, but the next label found clears it again. Only the
last label, `email-ids`, decides whether the run stops. Take a run whose image lacks
`git-url` or `git-sha`, but whose `email-ids` is present and whose register POST does not
raise. That run registers the incomplete labels and returns success. Its error list still
holds the missing-label messages, and the report never shows them
(`ScanProperties.SuccessDespiteMissingLabels`, `ScanProperties.ScanFailureIsLastLabel`).

## Model

| member | source | states |
|---|---|---|
| PyText.Strip | integration.py:208-209 | the stripped value has no whitespace at either end and is no longer than the input; it is empty exactly when the input is all whitespace |
| PyText.StripOfPadded | integration.py:208-209 | stripping whitespace padding from around a value whose ends are not whitespace gives back that value |
| PyText.StripIdempotent | integration.py:208-209 | stripping a stripped label value changes nothing |
| Http.PostRequest | integration.py:113-140 | the status is false exactly when the POST raised; the message for a raised POST is text that names the joined URL |
| Http.NonOkMessageHasNoKey | integration.py:137-140 | the non-200 message never contains `last_scan_report`, so `return_on_success` never takes it for a previous scan report |
| ScanModel.EnvLookup | integration.py:44-64 | a variable is read successfully exactly when it is set and non-empty, with the environment's value; otherwise the error is "No value for <name> env variable. …", which names the variable |
| ScanModel.FindLabel | integration.py:82-91 | a label is found exactly when it is present and non-empty, with the image's value; otherwise the error is "Image … does not have … label configured.", which names the label |
| ScanModel.RegisterApi | integration.py:302-306 | every scan type registers with `/api/v1/register` |
| Integration.AnalyticsIntegration.constructor | integration.py:160-203 | nothing recorded, failure flag set, no image or server; the report template has `UUID` = the container name without its first character, `Successful` false and no finish time |
| Integration.AnalyticsIntegration.RecordFatalError | integration.py:205-206 | the error list gains exactly the one message at its end |
| Integration.AnalyticsIntegration.RecordLabel | integration.py:208-209 | the label is recorded with its value stripped, and no other label changes |
| Integration.AnalyticsIntegration.PostScannerError | integration.py:211-236 | without a server URL, it returns false with the "Can't report errors …" note and sends nothing. Otherwise it POSTs image name, email-ids and errors to `/api/v1/scanner-error` and returns the POST's status with the reported note or the POST's message |
| Integration.AnalyticsIntegration.ReturnOnFailure | integration.py:238-250 | with the failure flag set, it reports the errors and appends exactly one note; the report then has `Successful` false, the finish time, the data as results and `Error: <errors>` as summary. With the flag clear it changes nothing and returns nothing |
| Integration.AnalyticsIntegration.ReturnOnSuccess | integration.py:319-340 | the run succeeds with the finish time. The response is the results when it contains `last_scan_report`; otherwise the gathered data is, with the "Registered repository …" summary |
| Integration.AnalyticsIntegration.Fail | integration.py:238-250 | `return self.return_on_failure()` at a point of `run` where the failure flag is set: the failed report |
| Integration.AnalyticsIntegration.CollectLabels | integration.py:281-290 | the loop over the needed labels leaves errors, recorded labels and failure flag as the label-by-label scan from the old values computes |
| Integration.AnalyticsIntegration.RegisterLabels | integration.py:296-317 | the labels are merged into the data and POSTed to the register api. Only a raised POST fails the run; any answer finishes through `return_on_success` |
| Integration.AnalyticsIntegration.ConnectAndScan | integration.py:272-317 | a docker error fails the run with its message. Otherwise the label loop runs, and the run fails iff it leaves the flag set, else it registers |
| Integration.AnalyticsIntegration.Run | integration.py:255-317 | the object's new state and the returned `(status, json_out)` are those of the whole lifecycle computed from the old state |
| ScanProperties.MissingNamesMembers | integration.py:281-290 | a name is among the missing labels exactly when it is needed and absent or empty |
| ScanProperties.ScanErrorsAreMissingLabels | integration.py:281-290 | the label loop appends one message per missing or empty label, in lookup order, and nothing else |
| ScanProperties.ScanRecordsPresentLabels | integration.py:281-290 | the label loop records exactly the present labels, with stripped values, and keeps every other recorded label |
| ScanProperties.ScanFailureIsLastLabel | integration.py:281-294 | after the loop the failure flag says only whether the last label looked up was missing |
| ScanProperties.MissingLabelReported | integration.py:281-290 | every missing needed label has its message among the loop's errors |
| ScanProperties.FreshScan | integration.py:169-170 | for the three needed labels: errors are the missing ones' messages, the recorded labels are the present ones stripped, and failure means `email-ids` is missing |
| ScanProperties.FreshRunReachesLabels | integration.py:255-279 | with both variables set and docker connected, a fresh run reaches the label loop with no error and nothing sent |
| ScanProperties.MissingEnvironmentFails | integration.py:255-266 | a missing `IMAGE_NAME` or `SERVER` fails the run. The errors are the message naming the variable and the "Can't report errors" note; nothing is sent, and the results are empty |
| ScanProperties.DockerFailureReported | integration.py:272-279 | a docker error fails the run after one scanner-error POST, carrying the image name, no email and the docker error; the POST's outcome follows it in the errors |
| ScanProperties.RegistersIffLastLabelPresent | integration.py:281-311 | the first POST of a run is a registration exactly when `email-ids` is present |
| ScanProperties.MissingLastLabelFails | integration.py:281-294 | without `email-ids` the run fails with the missing labels' messages in order plus one note, after a single scanner-error POST with an empty email |
| ScanProperties.RegistrationRequest | integration.py:296-311 | the registration POSTs exactly the recorded (present, stripped) labels to the register api; the data becomes image, server and those labels |
| ScanProperties.RegisterResponseDecides | integration.py:307-340 | only a raised registration POST fails the step: its message, which names the URL, is appended, followed by one error report. Any answer succeeds; a 200 object with `last_scan_report` becomes the results |
| ScanProperties.RegistrationOutcome | integration.py:296-340 | the same decision for a fresh run: it fails only when the registration POST raised |
| ScanProperties.ScanTypeIsIgnored | integration.py:302-306 | two runs differing only in scan type behave identically |
| ScanProperties.FailureOutcomeShape | integration.py:238-250 | a failing finish keeps the template fields, appends exactly one note and summarises all errors |
| ScanProperties.RunReportInvariant | integration.py:255-340 | every run ends with status = `Successful`, a finish time and the template fields kept; a failed run adds at least two errors and summarises them all |
| ScanProperties.ConnectReportInvariant | integration.py:272-340 | the same report invariant from the docker step on |
| ScanProperties.RegisterReportInvariant | integration.py:296-340 | the same report invariant for the registration step |
| ScanProperties.FreshRunUuid | integration.py:160-203 | a fresh run's report carries the container name without its first character as `UUID`, the scan type, the scanner name and `"NA"` as feed date |
| ScanProperties.SuccessSummaryFollowsResponse | integration.py:319-340 | a successful finish says "Last scan report available" exactly when the response contains `last_scan_report`; a non-200 answer always yields the "Registered repository" summary with the data |
| ScanProperties.SuccessDespiteMissingLabels | integration.py:281-317 | with `git-url` missing but `email-ids` present and an answered registration, the run returns success. Its errors still start with the `git-url` message |

## Left out

- Docker, Atomic's `Run.get_label` and `inspect_image` are not modelled as code: a docker connection error and the image's labels are inputs in `World`. The labels are the ones of the image `IMAGE_NAME` names.
- `requests.post`, `urljoin`, `json.dumps` and Python's `str` of a dict or exception are functions supplied in `Net`. Their own behaviour is not modelled.
- A 200 answer's body is modelled only as a JSON object. A body that is not valid JSON, or that parses to a list or a scalar (where `json.loads` raises or `in` behaves differently), is not modelled.
- `datetime.now()` is replaced by a start time given to the constructor and a finish time in `World`.
- `get_image_uuid`, `connect_local_docker_socket`, `run_command`, `get_request`, `configure_logging` and logging are not modelled: they talk to docker, processes, the network or the log. `verify_recorded_labels` is not modelled either, because it does nothing.
- The fields `label_data`, `respone` and `docker_client` are not modelled, because nothing reads them. `run_object` (the Atomic `Run` object whose `get_label` `find_label` calls) is replaced by the image's label map in `World`.
- `Scanner` (`target_containers`, `run`, `export_results`), the module's command-line entry point, `local_integration.py` and `analytics_integration/lib.py` are not part of this model.
- Aliasing is not modelled. `json_out["Scan Results"] = self.data` stores a reference, but here the report holds a copy of the data as it was at that point. No later step of `run` changes `data` after that assignment.
- `get_server_url` and `get_image_name` always read the fixed names `SERVER` and `IMAGE_NAME`, ignoring their `env_name` parameter. The model passes those fixed names.
- PyText.Strip: removes the six ASCII whitespace characters that Python 2's `str.strip` removes from byte strings. The larger whitespace set of `unicode.strip` is not modelled.
