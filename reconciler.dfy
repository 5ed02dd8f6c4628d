/**
 * `run_module`: compares the desired state of one named lab with the lab the
 * service lists under that name, decides whether anything changes, performs
 * the delete and create steps (unless in check mode) and reports the result.
 */
module Reconciler {
  import opened Wrappers
  import opened Json
  import opened Labs
  import opened Client

  const MissingUsername: string := "Missing username in nuagex_auth variable."
  const MissingPassword: string := "Missing password in nuagex_auth variable."

  /**
   * How an invocation ends: `exit_json` with the result dict, `fail_json` with
   * a message, or an uncaught exception (dereferencing the `False` that a
   * timed-out `create_lab_sync` returns).
   */
  datatype Outcome = Exit(result: Object) | Fail(msg: string) | Crash

  /** A remote step of the reconciler. */
  datatype Step = DeleteAndWait(lab: Lab) | CreateAndWait(name: string)

  /** What the decision table prescribes: the `changed` flag and the steps, in order. */
  datatype Plan = Plan(changed: bool, steps: seq<Step>)

  /** The result dict before any branch touches it: unchanged, every lab field empty. */
  function Defaults(): (d: Object)
    ensures d.Keys == {"changed"} + LabKeys
    ensures d["changed"] == Bool(false)
    ensures forall k :: k in LabKeys ==> d[k] == Str("")
  {
    map["changed" := Bool(false), "lab_id" := Str(""), "lab_name" := Str(""),
        "lab_address" := Str(""), "lab_password" := Str("")]
  }

  /** A credential is usable when it is given and not empty (Python truthiness). */
  predicate Given(credential: Option<string>)
  {
    credential.Some? && credential.value != ""
  }

  /**
   * The decision table. The lab changes exactly when what is observed is not
   * already what the wait loop would wait for; check mode plans no step; an
   * observed lab that is in the way is deleted first, and a lab is created
   * last whenever `present` is wanted and not met.
   */
  function Decide(desired: State, observed: Option<Lab>, name: string, checkMode: bool): (p: Plan)
    ensures p.changed <==> !Meets(desired, observed)
    ensures checkMode ==> p.steps == []
    ensures !checkMode ==> (p.steps == [] <==> !p.changed)
    ensures |p.steps| <= 2
    ensures forall i :: 0 <= i < |p.steps| && p.steps[i].DeleteAndWait? ==> i == 0 && observed == Some(p.steps[i].lab)
    ensures forall i :: 0 <= i < |p.steps| && p.steps[i].CreateAndWait? ==>
      i == |p.steps| - 1 && desired == Present && p.steps[i].name == name
    ensures !checkMode && observed.Some? && !Meets(desired, observed) ==> p.steps[0] == DeleteAndWait(observed.value)
    ensures !checkMode && desired == Present && !Meets(desired, observed) ==>
      p.steps[|p.steps| - 1] == CreateAndWait(name)
  {
    if desired == Present && observed.Some? && observed.value.IsRunning() then Plan(false, [])
    else if desired == Present && observed.Some? then
      Plan(true, if checkMode then [] else [DeleteAndWait(observed.value), CreateAndWait(name)])
    else if desired == Present then
      Plan(true, if checkMode then [] else [CreateAndWait(name)])
    else if desired == Absent && observed.Some? then
      Plan(true, if checkMode then [] else [DeleteAndWait(observed.value)])
    else Plan(false, [])
  }

  /** One step: the request, then the wait for its effect (by the lab's own name when deleting). */
  function Perform(respond: seq<Call> -> seq<Object>, history: seq<Call>, step: Step): (done: (Waited, seq<Call>))
  {
    match step
    case DeleteAndWait(lab) =>
      var sent := history + [DeleteLab(lab.id)];
      var r := WaitFrom(respond, sent, lab.name, Absent, Retries);
      (r.0, sent + Polls(lab.name, r.1))
    case CreateAndWait(name) =>
      var sent := history + [CreateLab(name, TemplateId, Expires, Reason)];
      var r := WaitFrom(respond, sent, Str(name), Present, Retries);
      (r.0, sent + Polls(Str(name), r.1))
  }

  /** The steps one after the other: what each wait returned, and the requests sent. */
  function PerformAll(respond: seq<Call> -> seq<Object>, history: seq<Call>, steps: seq<Step>): (r: (seq<Waited>, seq<Call>))
    ensures |r.0| == |steps|
    decreases |steps|
  {
    if steps == [] then ([], history)
    else
      var first := Perform(respond, history, steps[0]);
      var rest := PerformAll(respond, first.1, steps[1..]);
      ([first.0] + rest.0, rest.1)
  }

  /** Performing a one-step plan is performing its step. */
  lemma PerformOne(respond: seq<Call> -> seq<Object>, history: seq<Call>, s: Step)
    ensures var p := Perform(respond, history, s);
      PerformAll(respond, history, [s]) == ([p.0], p.1)
  {
    var p := Perform(respond, history, s);
    assert [s][1..] == [];
    assert [p.0] + [] == [p.0];
  }

  /** Performing a two-step plan performs the second step after the first. */
  lemma PerformTwo(respond: seq<Call> -> seq<Object>, history: seq<Call>, s: Step, t: Step)
    ensures var p := Perform(respond, history, s);
      var q := Perform(respond, p.1, t);
      PerformAll(respond, history, [s, t]) == ([p.0, q.0], q.1)
  {
    var p := Perform(respond, history, s);
    var q := Perform(respond, p.1, t);
    assert [s, t][1..] == [t];
    PerformOne(respond, p.1, t);
    assert [p.0] + [q.0] == [p.0, q.0];
  }

  /**
   * One invocation as a function: the outcome and every request the service
   * has received afterwards. A lab that is shown is the one a `present` wait
   * returned, or the observed lab when it already runs.
   */
  function Run(respond: seq<Call> -> seq<Object>, history: seq<Call>, name: string, desired: State,
               checkMode: bool, username: Option<string>, password: Option<string>): (r: (Outcome, seq<Call>))
  {
    if !Given(username) then (Fail(MissingUsername), history)
    else if !Given(password) then (Fail(MissingPassword), history)
    else
      var observed := FirstLab(respond(history));
      var plan := Decide(desired, observed, name, checkMode);
      var done := PerformAll(respond, history + [ListLabs(Str(name))], plan.steps);
      var base := if plan.changed then Defaults()["changed" := Bool(true)] else Defaults();
      if plan.steps != [] && plan.steps[|plan.steps| - 1].CreateAndWait? then
        var last := done.0[|done.0| - 1];
        (if last.Got? then Exit(base + last.lab.AsJson()) else Crash, done.1)
      else if Meets(desired, observed) && observed.Some? then
        (Exit(base + observed.value.AsJson()), done.1)
      else
        (Exit(base), done.1)
  }

  /** `run_module`, branch for branch, on a service that has already received `history`. */
  method RunModule(respond: seq<Call> -> seq<Object>, history: seq<Call>, name: string, desired: State,
                   checkMode: bool, username: Option<string>, password: Option<string>)
    returns (out: Outcome, calls: seq<Call>)
    ensures (out, calls) == Run(respond, history, name, desired, checkMode, username, password)
  {
    var result := Defaults();
    if !Given(username) {
      return Fail(MissingUsername), history;
    }
    if !Given(password) {
      return Fail(MissingPassword), history;
    }
    var nux := new NuageX(respond, history);
    var lab := nux.LabByName(Str(name));
    ghost var looked := nux.calls;
    if desired == Present && lab.Some? && lab.value.IsRunning() {
      result := result + lab.value.AsJson();
    } else if desired == Present && lab.Some? {
      result := result["changed" := Bool(true)];
      if !checkMode {
        var _ := nux.DeleteLabSync(lab.value);
        var created := nux.CreateLabSync(name);
        PerformTwo(respond, looked, DeleteAndWait(lab.value), CreateAndWait(name));
        if !created.Got? {
          return Crash, nux.calls;
        }
        result := result + created.lab.AsJson();
      }
    } else if desired == Present {
      result := result["changed" := Bool(true)];
      if !checkMode {
        var created := nux.CreateLabSync(name);
        PerformOne(respond, looked, CreateAndWait(name));
        if !created.Got? {
          return Crash, nux.calls;
        }
        result := result + created.lab.AsJson();
      }
    } else if desired == Absent && lab.Some? {
      result := result["changed" := Bool(true)];
      if !checkMode {
        var _ := nux.DeleteLabSync(lab.value);
        PerformOne(respond, looked, DeleteAndWait(lab.value));
      }
    }
    return Exit(result), nux.calls;
  }
}

