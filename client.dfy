/**
 * The `NuageX` client: the requests it sends to the lab service and the
 * bounded polling loop `wait_lab` that waits for a lab to come up or go away.
 *
 * The service is an oracle: `respond(h)` is the listing that
 * `GET /labs?name=...` returns when the service has already received the
 * requests `h`. Any behaviour of the remote side, including labs that appear
 * some time after their creation, is one choice of `respond`.
 */
module Client {
  import opened Wrappers
  import opened Json
  import opened Labs

  /** The template every lab is created from; there is no template lookup. */
  const TemplateId: string := "5b1ea8267c4dd10001279c31"
  /** The `expires` value sent on creation; the service replaces it by its own default. */
  const Expires: string := "0001-01-01T00:00:00Z"
  /** The `reason` sent on creation. */
  const Reason: string := "Created by Ansible"
  /** The default poll budget of `wait_lab`. */
  const Retries: nat := 20

  /** One request to the service. `query` and `id` are formatted into the URL as they are. */
  datatype Call =
    | ListLabs(query: Value)
    | CreateLab(name: string, template: string, expires: string, reason: string)
    | DeleteLab(id: Value)

  /** The two targets `wait_lab` can wait for. */
  datatype State = Present | Absent

  /** What `wait_lab` returns: the running lab, `True` once the lab is gone, `False` on exhaustion. */
  datatype Waited = Got(lab: Lab) | Flag(ok: bool)

  /** `n` lookups of `query` in a row. */
  function Polls(query: Value, n: nat): (p: seq<Call>)
    ensures |p| == n
  {
    seq(n, _ => ListLabs(query))
  }

  /** The target of `wait_lab`: a running lab for `present`, no lab for `absent`. */
  predicate Meets(desired: State, lab: Option<Lab>)
  {
    match desired
    case Present => lab.Some? && lab.value.IsRunning()
    case Absent => lab.None?
  }

  /** The lab seen by attempt `j` (from 0) of a wait that started after `history`. */
  function Attempt(respond: seq<Call> -> seq<Object>, history: seq<Call>, query: Value, j: nat): (lab: Option<Lab>)
  {
    FirstLab(respond(history + Polls(query, j)))
  }

  /**
   * `wait_lab` as a function: its result and the number of lookups it makes.
   * A lab is returned only when running, `True` only when waiting for
   * absence, and `False` only once the whole budget is used up.
   */
  function WaitFrom(respond: seq<Call> -> seq<Object>, history: seq<Call>, query: Value,
                    desired: State, retries: nat): (r: (Waited, nat))
    ensures r.1 <= retries
    ensures 0 < retries ==> 0 < r.1
    ensures r.0 == Flag(false) ==> r.1 == retries
    ensures r.0.Got? ==> desired == Present && r.0.lab.IsRunning()
    ensures r.0 == Flag(true) ==> desired == Absent
    decreases retries
  {
    if retries == 0 then (Flag(false), 0)
    else
      var lab := FirstLab(respond(history));
      if desired == Present && lab.Some? && lab.value.IsRunning() then (Got(lab.value), 1)
      else if desired == Absent && lab.None? then (Flag(true), 1)
      else
        var rest := WaitFrom(respond, history + [ListLabs(query)], query, desired, retries - 1);
        (rest.0, rest.1 + 1)
  }

  /** The answer a wait gives when `lab` meets its target. */
  function Answer(desired: State, lab: Option<Lab>): (w: Waited)
    requires Meets(desired, lab)
  {
    if desired == Present then Got(lab.value) else Flag(true)
  }

  /** One lookup followed by `j` more is a run of `j + 1` lookups. */
  lemma PollsStep(history: seq<Call>, query: Value, j: nat)
    ensures history + [ListLabs(query)] + Polls(query, j) == history + Polls(query, j + 1)
  {
    assert [ListLabs(query)] + Polls(query, j) == Polls(query, j + 1);
  }

  /**
   * The wait stops at the first attempt that meets its target: every earlier
   * attempt missed it, the answer is taken from that attempt, and `False`
   * comes back exactly when every one of the `retries` attempts missed.
   */
  lemma {:induction false} WaitStopsAtFirstMatch(respond: seq<Call> -> seq<Object>, history: seq<Call>,
                                                 query: Value, desired: State, retries: nat)
    ensures var (w, k) := WaitFrom(respond, history, query, desired, retries);
      && (forall j :: 0 <= j < k - 1 ==> !Meets(desired, Attempt(respond, history, query, j)))
      && (w == Flag(false) <==> forall j :: 0 <= j < retries ==> !Meets(desired, Attempt(respond, history, query, j)))
      && (w != Flag(false) ==>
            0 < k && Meets(desired, Attempt(respond, history, query, k - 1))
            && w == Answer(desired, Attempt(respond, history, query, k - 1)))
    decreases retries
  {
    var (w, k) := WaitFrom(respond, history, query, desired, retries);
    assert history + Polls(query, 0) == history;
    if retries > 0 {
      var lab := FirstLab(respond(history));
      assert lab == Attempt(respond, history, query, 0);
      if !Meets(desired, lab) {
        var next := history + [ListLabs(query)];
        var rest := WaitFrom(respond, next, query, desired, retries - 1);
        assert w == rest.0 && k == rest.1 + 1;
        WaitStopsAtFirstMatch(respond, next, query, desired, retries - 1);
        // Attempt j + 1 from `history` is attempt j from `next`; attempt 0 missed.
        forall j: nat
          ensures Attempt(respond, next, query, j) == Attempt(respond, history, query, j + 1)
        {
          PollsStep(history, query, j);
        }
        forall j | 0 <= j < k - 1
          ensures !Meets(desired, Attempt(respond, history, query, j))
        {
          if j > 0 {
            assert Attempt(respond, history, query, j) == Attempt(respond, next, query, j - 1);
          }
        }
        if forall j :: 0 <= j < retries ==> !Meets(desired, Attempt(respond, history, query, j)) {
          forall j | 0 <= j < retries - 1
            ensures !Meets(desired, Attempt(respond, next, query, j))
          {
            assert Attempt(respond, next, query, j) == Attempt(respond, history, query, j + 1);
          }
        }
        if w == Flag(false) {
          forall j | 0 <= j < retries
            ensures !Meets(desired, Attempt(respond, history, query, j))
          {
            if j > 0 {
              assert Attempt(respond, history, query, j) == Attempt(respond, next, query, j - 1);
            }
          }
        }
        if w != Flag(false) {
          assert Attempt(respond, history, query, k - 1) == Attempt(respond, next, query, rest.1 - 1);
        }
      }
    }
  }

  /** A session with the lab service: the service's behaviour and every request it has received. */
  class NuageX {
    const respond: seq<Call> -> seq<Object>
    var calls: seq<Call>

    /** A client for a service that has already received the requests `history`. */
    constructor (respond: seq<Call> -> seq<Object>, history: seq<Call>)
      ensures this.respond == respond && calls == history
    {
      this.respond := respond;
      calls := history;
    }

    /** `lab_by_name`: one listing request; the first listed lab, or none. */
    method LabByName(query: Value) returns (lab: Option<Lab>)
      modifies this
      ensures lab == FirstLab(respond(old(calls)))
      ensures calls == old(calls) + [ListLabs(query)]
    {
      var labs := respond(calls);
      calls := calls + [ListLabs(query)];
      lab := if labs != [] then Some(FromJson(labs[0])) else None;
    }

    /** `wait_lab`: up to `retries` lookups, returning at the first that meets the target. */
    method WaitLab(query: Value, desired: State, retries: nat) returns (w: Waited)
      modifies this
      ensures var r := WaitFrom(respond, old(calls), query, desired, retries);
        w == r.0 && calls == old(calls) + Polls(query, r.1)
    {
      ghost var start := calls;
      for i := 0 to retries
        invariant calls == start + Polls(query, i)
        invariant var r := WaitFrom(respond, calls, query, desired, retries - i);
          WaitFrom(respond, start, query, desired, retries) == (r.0, r.1 + i)
      {
        var lab := LabByName(query);
        PollsStep(start, query, i);
        if desired == Present && lab.Some? && lab.value.IsRunning() {
          return Got(lab.value);
        } else if desired == Absent && lab.None? {
          return Flag(true);
        }
      }
      w := Flag(false);
    }

    /** `create_lab`: the POST that asks for a new lab from the fixed template. */
    method CreateLab(name: string)
      modifies this
      ensures calls == old(calls) + [Call.CreateLab(name, TemplateId, Expires, Reason)]
    {
      calls := calls + [Call.CreateLab(name, TemplateId, Expires, Reason)];
    }

    /** `create_lab_sync`: create, then wait for the lab named `name` to run. */
    method CreateLabSync(name: string) returns (w: Waited)
      modifies this
      ensures var sent := old(calls) + [Call.CreateLab(name, TemplateId, Expires, Reason)];
        var r := WaitFrom(respond, sent, Str(name), Present, Retries);
        w == r.0 && calls == sent + Polls(Str(name), r.1)
      ensures w.Got? ==> w.lab.IsRunning()
    {
      CreateLab(name);
      w := WaitLab(Str(name), Present, Retries);
    }

    /** `delete_lab`: the DELETE of the lab's id. */
    method DeleteLab(lab: Lab)
      modifies this
      ensures calls == old(calls) + [Call.DeleteLab(lab.id)]
    {
      calls := calls + [Call.DeleteLab(lab.id)];
    }

    /** `delete_lab_sync`: delete, then wait until no lab of that name is listed. */
    method DeleteLabSync(lab: Lab) returns (w: Waited)
      modifies this
      ensures var sent := old(calls) + [Call.DeleteLab(lab.id)];
        var r := WaitFrom(respond, sent, lab.name, Absent, Retries);
        w == r.0 && calls == sent + Polls(lab.name, r.1)
      ensures !w.Got?
    {
      DeleteLab(lab);
      w := WaitLab(lab.name, Absent, Retries);
    }
  }
}
