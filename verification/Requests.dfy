/** Fencing requests, the jobs made for them, and the labels that tie the two
    together (pkg/apis/fencing/v1alpha1/types.go and request.go). */
module Requests {
  import opened Options

  // FencingResult values.
  const NO_CONFIG := "NoConfig"
  const GIVING_UP := "GivingUp"
  const COMPLETE := "Complete"
  const PROGRESS := "MethodInProgress"

  /** The reason recorded with a log entry, with the job it speaks of. */
  datatype Detail =
    | JobDone(job: string)
    | Initiated(methodName: string, job: string)
    | Failure

  /** A FencingRequestStatusUpdate, without its timestamp. */
  datatype Entry = Entry(methodName: string, message: string, detail: Detail)

  datatype Status = Status(
    complete: bool, result: string, config: Option<string>,
    activeMethod: Option<string>, activeJob: Option<string>, updates: seq<Entry>)

  const BLANK := Status(false, "", None, None, None, [])

  /** A copy of a request as a handler holds it, with the version it was read at. */
  datatype Copy = Copy(name: string, target: string, version: nat, status: Status)

  /** A job as seen through the API. */
  datatype JobView = JobView(
    name: string, labels: map<string, string>, owner: Option<string>,
    active: nat, failed: nat, succeeded: nat)

  /** A label selector: every label it names must be there with that value. */
  predicate Selects(selector: map<string, string>, labels: map<string, string>) {
    forall k :: k in selector ==> k in labels && labels[k] == selector[k]
  }

  function JobLabels(req: Copy, methodName: string): map<string, string> {
    var labels := map["app" := "fencing-operator", "target" := req.target, "request" := req.name];
    var labels := if req.status.config.Some? then labels["config" := req.status.config.value] else labels;
    if |methodName| > 0 then labels["method" := methodName] else labels
  }

  /** The labels, one by one, and no others. */
  lemma LabelsExactly(req: Copy, methodName: string, k: string, v: string)
    ensures k in JobLabels(req, methodName) && JobLabels(req, methodName)[k] == v <==>
            || (k == "app" && v == "fencing-operator")
            || (k == "target" && v == req.target)
            || (k == "request" && v == req.name)
            || (k == "config" && req.status.config == Some(v))
            || (k == "method" && methodName != "" && v == methodName)
  {
    assert "app" != "target" && "app" != "request" && "app" != "config" && "app" != "method";
    assert "target" != "request" && "target" != "config" && "target" != "method";
    assert "request" != "config" && "request" != "method" && "config" != "method";
  }

  /** What the label selector of (r, m) says of a job labelled for (s, n). */
  lemma SelectorExact(r: Copy, m: string, s: Copy, n: string)
    ensures Selects(JobLabels(r, m), JobLabels(s, n)) <==>
            && r.name == s.name
            && r.target == s.target
            && (r.status.config.None? || r.status.config == s.status.config)
            && (m == "" || m == n)
  {
    var selector, labels := JobLabels(r, m), JobLabels(s, n);
    assert "target" in selector && "request" in selector;
    assert r.status.config.Some? ==> "config" in selector;
    assert m != "" ==> "method" in selector;
  }

  function AddEntry(status: Status, methodName: string, message: string, detail: Detail): Status {
    status.(updates := status.updates + [Entry(methodName, message, detail)])
  }

  function Finalize(status: Status, result: string, detail: Detail): Status {
    AddEntry(status.(complete := true, result := result), "", result, detail)
  }
}
