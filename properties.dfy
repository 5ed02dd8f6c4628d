/** What the reconciler promises, stated on the function `Run` that `RunModule` implements. */
module ReconcilerProperties {
  import opened Wrappers
  import opened Json
  import opened Labs
  import opened Client
  import opened Reconciler

  /** The requests of a `present` run up to its create: the lookup, the delete step if a lab is listed, the create. */
  function CreateStart(respond: seq<Call> -> seq<Object>, history: seq<Call>, name: string): (start: seq<Call>)
  {
    var observed := FirstLab(respond(history));
    var looked := history + [ListLabs(Str(name))];
    var create := [CreateLab(name, TemplateId, Expires, Reason)];
    if observed.None? then looked + create
    else Perform(respond, looked, DeleteAndWait(observed.value)).1 + create
  }

  /** Missing credentials stop the run before any request; the username is checked first. */
  lemma MissingCredentialsFail(respond: seq<Call> -> seq<Object>, history: seq<Call>, name: string, desired: State,
                               checkMode: bool, username: Option<string>, password: Option<string>)
    requires !Given(username) || !Given(password)
    ensures var r := Run(respond, history, name, desired, checkMode, username, password);
      r.1 == history
      && r.0 == Fail(if !Given(username) then MissingUsername else MissingPassword)
  {
  }

  /** `present` with a running lab: nothing changes, nothing is sent but the lookup, the lab is shown. */
  lemma PresentRunningIsNoop(respond: seq<Call> -> seq<Object>, history: seq<Call>, name: string,
                             checkMode: bool, username: Option<string>, password: Option<string>)
    requires Given(username) && Given(password)
    requires FirstLab(respond(history)).Some? && FirstLab(respond(history)).value.IsRunning()
    ensures var lab := FirstLab(respond(history)).value;
      var r := Run(respond, history, name, Present, checkMode, username, password);
      && r == (Exit(Defaults() + lab.AsJson()), history + [ListLabs(Str(name))])
      && r.0.result["changed"] == Bool(false)
      && r.0.result["lab_id"] == lab.id
  {
  }

  /**
   * `present` without a running lab, outside check mode: a lab that is listed
   * is deleted and waited for before the single create, whatever that wait
   * returned; the run reports a change and the lab the create wait returned,
   * and crashes exactly when none of the create wait's lookups saw it running.
   */
  lemma PresentRecreates(respond: seq<Call> -> seq<Object>, history: seq<Call>, name: string,
                         username: Option<string>, password: Option<string>)
    requires Given(username) && Given(password)
    requires !Meets(Present, FirstLab(respond(history)))
    ensures var start := CreateStart(respond, history, name);
      var up := WaitFrom(respond, start, Str(name), Present, Retries);
      var r := Run(respond, history, name, Present, false, username, password);
      && r.1 == start + Polls(Str(name), up.1)
      && (r.0 == Crash <==> forall j :: 0 <= j < Retries ==> !Meets(Present, Attempt(respond, start, Str(name), j)))
      && (r.0 != Crash ==>
            up.0.Got? && up.0.lab.IsRunning()
            && r.0 == Exit(Defaults()["changed" := Bool(true)] + up.0.lab.AsJson()))
  {
    var observed := FirstLab(respond(history));
    var looked := history + [ListLabs(Str(name))];
    var start := CreateStart(respond, history, name);
    var create := CreateAndWait(name);
    if observed.None? {
      PerformOne(respond, looked, create);
    } else {
      var delete := DeleteAndWait(observed.value);
      PerformTwo(respond, looked, delete, create);
    }
    WaitStopsAtFirstMatch(respond, start, Str(name), Present, Retries);
  }

  /**
   * The request log of a `present` run without a running lab, outside check
   * mode: after the lookup, a listed lab is deleted and waited for strictly
   * before the single create, which is followed only by its wait's lookups.
   */
  lemma PresentRequestOrder(respond: seq<Call> -> seq<Object>, history: seq<Call>, name: string,
                            username: Option<string>, password: Option<string>)
    requires Given(username) && Given(password)
    requires !Meets(Present, FirstLab(respond(history)))
    ensures var observed := FirstLab(respond(history));
      var looked := history + [ListLabs(Str(name))];
      var create := [CreateLab(name, TemplateId, Expires, Reason)];
      var log := Run(respond, history, name, Present, false, username, password).1;
      && (observed.None? ==> exists m: nat :: log == looked + create + Polls(Str(name), m))
      && (observed.Some? ==>
            exists k: nat, m: nat :: log == looked + [DeleteLab(observed.value.id)] + Polls(observed.value.name, k)
                                              + create + Polls(Str(name), m))
  {
    var observed := FirstLab(respond(history));
    var looked := history + [ListLabs(Str(name))];
    var create := [CreateLab(name, TemplateId, Expires, Reason)];
    var log := Run(respond, history, name, Present, false, username, password).1;
    PresentRecreates(respond, history, name, username, password);
    var start := CreateStart(respond, history, name);
    var up := WaitFrom(respond, start, Str(name), Present, Retries);
    assert log == start + Polls(Str(name), up.1);
    if observed.None? {
      assert log == looked + create + Polls(Str(name), up.1);
    } else {
      var sent := looked + [DeleteLab(observed.value.id)];
      var gone := WaitFrom(respond, sent, observed.value.name, Absent, Retries);
      assert start == sent + Polls(observed.value.name, gone.1) + create;
      assert log == looked + [DeleteLab(observed.value.id)] + Polls(observed.value.name, gone.1)
                    + create + Polls(Str(name), up.1);
    }
  }

  /**
   * `absent`: the run changes exactly when a lab is listed, whatever its
   * status, never shows lab fields, and outside check mode deletes that lab
   * and waits for it, ignoring what the wait returned.
   */
  lemma AbsentRemoves(respond: seq<Call> -> seq<Object>, history: seq<Call>, name: string,
                      checkMode: bool, username: Option<string>, password: Option<string>)
    requires Given(username) && Given(password)
    ensures var observed := FirstLab(respond(history));
      var looked := history + [ListLabs(Str(name))];
      var r := Run(respond, history, name, Absent, checkMode, username, password);
      && r.0 == Exit(if observed.Some? then Defaults()["changed" := Bool(true)] else Defaults())
      && (observed.None? || checkMode ==> r.1 == looked)
      && (observed.Some? && !checkMode ==>
            var sent := looked + [DeleteLab(observed.value.id)];
            r.1 == sent + Polls(observed.value.name, WaitFrom(respond, sent, observed.value.name, Absent, Retries).1))
  {
    var observed := FirstLab(respond(history));
    if observed.Some? && !checkMode {
      PerformOne(respond, history + [ListLabs(Str(name))], DeleteAndWait(observed.value));
    }
  }

  /**
   * Check mode sends only the lookup, always exits, reports the `changed`
   * that the normal run reports, and leaves every lab field empty unless the
   * run is a no-op on a running lab.
   */
  lemma CheckModeOnlyLooks(respond: seq<Call> -> seq<Object>, history: seq<Call>, name: string, desired: State,
                           username: Option<string>, password: Option<string>)
    requires Given(username) && Given(password)
    ensures var observed := FirstLab(respond(history));
      var dry := Run(respond, history, name, desired, true, username, password);
      var live := Run(respond, history, name, desired, false, username, password);
      && dry.1 == history + [ListLabs(Str(name))]
      && dry.0.Exit? && dry.0.result["changed"] == Bool(!Meets(desired, observed))
      && (!Meets(desired, observed) ==> forall k :: k in LabKeys ==> dry.0.result[k] == Str(""))
      && (live.0.Exit? ==> live.0.result["changed"] == dry.0.result["changed"])
  {
    var observed := FirstLab(respond(history));
    var live := Run(respond, history, name, desired, false, username, password);
    if live.0.Exit? && !Meets(desired, observed) {
      assert live.0.result["changed"] == Bool(true);
    }
  }

  /** Dropping the last request of a run of `k` lookups leaves a run of `k - 1`. */
  lemma DropLastPoll(start: seq<Call>, query: Value, k: nat)
    requires 0 < k
    ensures var h := start + Polls(query, k);
      |h| > 0 && h[..|h| - 1] == start + Polls(query, k - 1)
  {
    var h := start + Polls(query, k);
    assert h[..|h| - 1] == start + Polls(query, k)[..k - 1];
    assert Polls(query, k)[..k - 1] == Polls(query, k - 1);
  }

  /** Resetting `changed` after a lab's fields were written gives the defaults with those fields. */
  lemma ResetChanged(j: Object)
    requires "changed" !in j
    ensures (Defaults() + j)["changed" := Bool(false)] == Defaults() + j
    ensures (Defaults()["changed" := Bool(true)] + j)["changed" := Bool(false)] == Defaults() + j
  {
    var d := Defaults();
    assert d["changed" := Bool(false)] == d;
    assert (d + j)["changed" := Bool(false)] == d["changed" := Bool(false)] + j;
    assert (d["changed" := Bool(true)] + j)["changed" := Bool(false)] == d["changed" := Bool(false)] + j;
  }

  /** The second run on a lab that the first run found running already. */
  lemma SecondRunAfterRunning(respond: seq<Call> -> seq<Object>, history: seq<Call>, name: string,
                              username: Option<string>, password: Option<string>)
    requires Given(username) && Given(password)
    requires Meets(Present, FirstLab(respond(history)))
    requires respond(history + [ListLabs(Str(name))]) == respond(history)
    ensures var first := Run(respond, history, name, Present, false, username, password);
      var second := Run(respond, first.1, name, Present, false, username, password);
      second == (Exit(first.0.result["changed" := Bool(false)]), first.1 + [ListLabs(Str(name))])
  {
    var h := history + [ListLabs(Str(name))];
    PresentRunningIsNoop(respond, history, name, false, username, password);
    PresentRunningIsNoop(respond, h, name, false, username, password);
    ResetChanged(FirstLab(respond(history)).value.AsJson());
  }

  /** The second run on the lab that the first run's create wait returned. */
  lemma SecondRunAfterCreate(respond: seq<Call> -> seq<Object>, history: seq<Call>, name: string,
                             username: Option<string>, password: Option<string>)
    requires Given(username) && Given(password)
    requires !Meets(Present, FirstLab(respond(history)))
    requires Run(respond, history, name, Present, false, username, password).0.Exit?
    requires var h := Run(respond, history, name, Present, false, username, password).1;
      |h| > 0 && respond(h) == respond(h[..|h| - 1])
    ensures var first := Run(respond, history, name, Present, false, username, password);
      var second := Run(respond, first.1, name, Present, false, username, password);
      second == (Exit(first.0.result["changed" := Bool(false)]), first.1 + [ListLabs(Str(name))])
  {
    var first := Run(respond, history, name, Present, false, username, password);
    var h := first.1;
    PresentRecreates(respond, history, name, username, password);
    var start := CreateStart(respond, history, name);
    var up := WaitFrom(respond, start, Str(name), Present, Retries);
    assert h == start + Polls(Str(name), up.1);
    assert first.0 == Exit(Defaults()["changed" := Bool(true)] + up.0.lab.AsJson());
    WaitStopsAtFirstMatch(respond, start, Str(name), Present, Retries);
    DropLastPoll(start, Str(name), up.1);
    assert FirstLab(respond(h)) == Some(up.0.lab);
    PresentRunningIsNoop(respond, h, name, false, username, password);
    ResetChanged(up.0.lab.AsJson());
  }

  /**
   * Idempotence: after a `present` run that exits, if the service lists what
   * it listed at the run's last lookup, a second `present` run changes
   * nothing, sends only its lookup and shows the same lab.
   */
  lemma SecondPresentRunIsNoop(respond: seq<Call> -> seq<Object>, history: seq<Call>, name: string,
                               username: Option<string>, password: Option<string>)
    requires Given(username) && Given(password)
    requires Run(respond, history, name, Present, false, username, password).0.Exit?
    requires var h := Run(respond, history, name, Present, false, username, password).1;
      |h| > 0 && respond(h) == respond(h[..|h| - 1])
    ensures var first := Run(respond, history, name, Present, false, username, password);
      var second := Run(respond, first.1, name, Present, false, username, password);
      second == (Exit(first.0.result["changed" := Bool(false)]), first.1 + [ListLabs(Str(name))])
  {
    if Meets(Present, FirstLab(respond(history))) {
      var h := history + [ListLabs(Str(name))];
      PresentRunningIsNoop(respond, history, name, false, username, password);
      assert h[..|h| - 1] == history;
      SecondRunAfterRunning(respond, history, name, username, password);
    } else {
      SecondRunAfterCreate(respond, history, name, username, password);
    }
  }
}
