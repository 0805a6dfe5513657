/** Running a plan again: along every path of the second run the first one is repeated, and nothing is executed. */
module Rerun {
  import opened Prelude
  import opened Dag
  import opened Plans
  import opened Store
  import opened Execution
  import opened Interleaving
  import S = Scheduler
  import H = CacheHistory
  import CP = CacheProperties

  // ----- what a run records is what its manifests say -----

  ghost predicate Lists(x: Setting, c: Contents, id: StageId, a: Artifact) {
    var path := ManifestPath(x.workspace, x.planId, id);
    path in c.manifests && c.manifests[path].artifact == a
  }

  ghost predicate Listed(x: Setting, st: SchedState, c: Contents) {
    && (forall id | id in st.artifacts :: Lists(x, c, id, st.artifacts[id]))
    && (forall id | id in st.tasks && st.tasks[id].phase.Succeeded? :: Lists(x, c, id, st.tasks[id].phase.artifact))
  }

  lemma {:induction false} QuietKeepsListed(x: Setting, tr: Trace, e: SchedEvent, st: SchedState)
    requires Sound(x, tr) && !e.Succeed? && !e.Fail? && S.Apply(x.p, tr.st, e) == Some(st)
    requires Listed(x, tr.st, tr.h.store)
    ensures Listed(x, st, tr.h.store)
  {
    QuietEffect(x, tr.events, tr.st, e, st);
    if e.Gather? { RecordedListed(x, tr.st, tr.h.store); }
  }

  lemma {:induction false} RecordedListed(x: Setting, st: SchedState, c: Contents)
    requires Listed(x, st, c) && forall id | id in st.tasks :: st.tasks[id].phase.Succeeded?
    ensures Listed(x, S.Record(st), c)
  {
  }

  /** The stages that have a result are stages of the plan, and the running one is not among them. */
  lemma {:induction false} StagesWithResults(x: Setting, tr: Trace, id: StageId)
    requires Sound(x, tr)
    requires id in tr.st.artifacts || (id in tr.st.tasks && tr.st.tasks[id].phase.Succeeded?)
    ensures H.InCatalog(x.cat, x.workspace, x.planId, id)
    ensures id in tr.st.artifacts ==> id !in tr.st.tasks
  {
    S.ReachableInv(x.p, x.plan, tr.events);
    S.TasksNotCompleted(x.p, S.DictValues(x.plan), tr.st);
    RunPlanStages(x, tr.h);
    var a := if id in tr.st.artifacts then tr.st.artifacts[id] else tr.st.tasks[id].phase.artifact;
    assert ArtifactOk(x, tr.h.store, id, a);
  }

  lemma {:induction false} ManifestStays(x: Setting, tr: Trace, e: H.Event, id: StageId, a: Artifact)
    requires Sound(x, tr) && H.InCatalog(x.cat, x.workspace, x.planId, id) && Lists(x, tr.h.store, id, a)
    requires H.Ends(x.cat, tr.h, e) ==> (e.workspace, e.plan, e.id) != (x.workspace, x.planId, id)
    ensures Lists(x, H.Apply(x.cat, x.w, tr.h, e).store, id, a)
  {
    CP.StepKeepsManifest(x.cat, x.w, tr.h, e, x.workspace, x.planId, id);
  }

  /** An event that does not touch the manifests of stages with results. */
  lemma {:induction false} EventKeepsListed(x: Setting, tr: Trace, e: H.Event)
    requires Sound(x, tr) && Listed(x, tr.st, tr.h.store)
    requires H.Ends(x.cat, tr.h, e) ==> (e.workspace, e.plan) != (x.workspace, x.planId) || Running(tr, e.id)
    ensures Listed(x, tr.st, H.Apply(x.cat, x.w, tr.h, e).store)
  {
    var c := H.Apply(x.cat, x.w, tr.h, e).store;
    forall id | id in tr.st.artifacts ensures Lists(x, c, id, tr.st.artifacts[id]) {
      StagesWithResults(x, tr, id);
      ManifestStays(x, tr, e, id, tr.st.artifacts[id]);
    }
    forall id | id in tr.st.tasks && tr.st.tasks[id].phase.Succeeded?
      ensures Lists(x, c, id, tr.st.tasks[id].phase.artifact)
    {
      StagesWithResults(x, tr, id);
      ManifestStays(x, tr, e, id, tr.st.tasks[id].phase.artifact);
    }
  }

  lemma {:induction false} EndIsListed(x: Setting, tr: Trace, e: H.Event)
    requires H.Inv(x.cat, x.w, tr.h) && CanEnd(x, tr, e) && EndResult(x, tr, e).Ok?
    ensures Lists(x, Happened(x, tr, e).h.store, e.id, EndResult(x, tr, e).value)
  {
    H.OutcomeIsGood(x.cat, x.w, tr.h, e);
    H.EndKeepsArtifacts(x.cat, x.w, tr.h, e);
  }

  lemma {:induction false} EndKeepsListed(x: Setting, tr: Trace, e: H.Event)
    requires Sound(x, tr) && Listed(x, tr.st, tr.h.store) && CanEnd(x, tr, e)
    ensures Listed(x, AfterEnd(x, tr, e).st, AfterEnd(x, tr, e).h.store)
  {
    var r, t, c := EndResult(x, tr, e), tr.st.tasks[e.id], Happened(x, tr, e).h.store;
    EventKeepsListed(x, tr, e);
    if r.Ok? {
      EndIsListed(x, tr, e);
      PhaseListed(x, tr.st, c, e.id, S.Succeeded(r.value, t.phase.attempt));
    } else {
      PhaseListed(x, tr.st, c, e.id, S.AfterFailure(t));
    }
  }

  lemma {:induction false} PhaseListed(x: Setting, st: SchedState, c: Contents, id: StageId, ph: S.Phase<Artifact>)
    requires Listed(x, st, c) && id in st.tasks && (ph.Succeeded? ==> Lists(x, c, id, ph.artifact))
    ensures Listed(x, S.SetPhase(st, id, ph), c)
  {
  }

  lemma {:induction false} StepKeepsListed(x: Setting, tr: Trace, step: Step)
    requires Sound(x, tr) && Listed(x, tr.st, tr.h.store) && StepTo(x, tr, step).Some?
    ensures var tr' := StepTo(x, tr, step).value; Listed(x, tr'.st, tr'.h.store)
  {
    match step
    case Quiet(e) => QuietKeepsListed(x, tr, e, S.Apply(x.p, tr.st, e).value);
    case Attempt(id, fault) => EndKeepsListed(x, tr, Dispatched(x, id, fault));
    case Ask(id) => EventKeepsListed(x, tr, H.Fetch(x.workspace, x.planId, id));
    case Receive(id, fault) => EndKeepsListed(x, tr, Received(x, id, fault));
    case Elsewhere(e) => EventKeepsListed(x, tr, e);
  }

  /** Along every path the artifacts recorded so far are those of the manifests. */
  lemma {:induction false} PathIsListed(x: Setting, steps: seq<Step>)
    requires PathTo(x, steps).Some?
    ensures var tr := PathTo(x, steps).value; Listed(x, tr.st, tr.h.store)
    decreases |steps|
  {
    if steps != [] {
      var init := steps[..|steps| - 1];
      PathIsListed(x, init);
      PathIsSound(x, init);
      StepKeepsListed(x, PathTo(x, init).value, steps[|steps| - 1]);
    }
  }

  // ----- the second run -----

  /**
   * The plan begins again after a complete run and any events elsewhere, on bindings that have not
   * changed and with nothing that rules out caching.
   */
  ghost predicate SecondRun(x: Setting, s0: H.State, between: seq<H.Event>) {
    && CP.CompleteRun(x.cat, x.w, s0, x.workspace, x.planId)
    && (forall e | e in between :: IsElsewhere(x, e)) && x.start == H.ReplayFrom(x.cat, x.w, s0, between)
    && x.ds.bindings == s0.runs[(x.workspace, x.planId)].ds.bindings
    && forall id | id in x.cat.plans[x.planId].stages :: !CP.Tainted(x.cat.plans[x.planId], x.ds.bindings, id)
  }

  ghost predicate Kept(x: Setting, s0: H.State, s: H.State) {
    && H.Inv(x.cat, x.w, s) && H.KeepsArtifacts(s0.store, s.store) && x.planId in x.cat.plans
    && forall id | id in x.cat.plans[x.planId].stages ::
         H.SameManifest(s0.store, s.store, ManifestPath(x.workspace, x.planId, id))
  }

  lemma {:induction false} ElsewhereKeeps(x: Setting, s0: H.State, s: H.State, e: H.Event)
    requires Kept(x, s0, s) && IsElsewhere(x, e) && x.workspace in x.cat.workspaces
    ensures Kept(x, s0, H.Apply(x.cat, x.w, s, e))
  {
    H.StepKeepsInv(x.cat, x.w, s, e);
    if H.Ends(x.cat, s, e) { H.EndKeepsArtifacts(x.cat, x.w, s, e); }
    forall id | id in x.cat.plans[x.planId].stages
      ensures H.SameManifest(
        s0.store, H.Apply(x.cat, x.w, s, e).store, ManifestPath(x.workspace, x.planId, id))
    {
      CP.StepKeepsManifest(x.cat, x.w, s, e, x.workspace, x.planId, id);
    }
  }

  lemma {:induction false} BetweenRunsKeeps(x: Setting, s0: H.State, between: seq<H.Event>)
    requires CP.CompleteRun(x.cat, x.w, s0, x.workspace, x.planId) && forall e | e in between :: IsElsewhere(x, e)
    ensures Kept(x, s0, H.ReplayFrom(x.cat, x.w, s0, between))
    decreases |between|
  {
    if between != [] {
      var init, e := between[..|between| - 1], between[|between| - 1];
      assert e in between && forall i | i in init :: i in between;
      BetweenRunsKeeps(x, s0, init);
      ElsewhereKeeps(x, s0, H.ReplayFrom(x.cat, x.w, s0, init), e);
    }
  }

  ghost predicate Renews(x: Setting, s0: H.State, h: H.State) {
    && CP.CompleteRun(x.cat, x.w, s0, x.workspace, x.planId)
    && CP.Renewing(x.cat, x.w, s0, x.ds, h, x.workspace, x.planId)
    && forall id | id in x.cat.plans[x.planId].stages ::
         CP.UnchangedIn(x.cat, s0, x.ds, x.workspace, x.planId, id)
  }

  lemma {:induction false} SecondRunBegins(x: Setting, s0: H.State, between: seq<H.Event>)
    requires SecondRun(x, s0, between) && CanStart(x)
    ensures Renews(x, s0, Begun(x).h)
  {
    BetweenRunsKeeps(x, s0, between);
    forall id | id in x.cat.plans[x.planId].stages
      ensures CP.UnchangedIn(x.cat, s0, x.ds, x.workspace, x.planId, id)
    {
      CP.SameBindingsUnchanged(x.cat, x.w, s0, x.ds, x.workspace, x.planId, id);
    }
    CP.BeginRenews(x.cat, x.w, s0, x.start, x.workspace, x.planId, x.stages);
  }

  lemma {:induction false} EventRenews(x: Setting, s0: H.State, h: H.State, e: H.Event)
    requires Renews(x, s0, h) && (IsElsewhere(x, e) || e.RunStage?)
    ensures Renews(x, s0, H.Apply(x.cat, x.w, h, e))
  {
    CP.StepKeepsRenewing(x.cat, x.w, s0, x.ds, h, e, x.workspace, x.planId);
  }

  /** No source is asked, since every lookup finds the old output. */
  lemma {:induction false} NothingAsked(x: Setting, s0: H.State, tr: Trace)
    requires Renews(x, s0, tr.h)
    ensures Asked(x, tr.h) == {}
    ensures forall id :: !CanAsk(x, tr, id)
  {
    AskedAreStages(x, tr.h);
    forall id ensures !CanAsk(x, tr, id) {
      if CanAsk(x, tr, id) { AskedIsChanged(x, s0, tr, id); }
    }
  }

  lemma {:induction false} AskedIsChanged(x: Setting, s0: H.State, tr: Trace, id: StageId)
    requires Renews(x, s0, tr.h) && CanAsk(x, tr, id)
    ensures id in x.cat.plans[x.planId].stages && !CP.UnchangedIn(x.cat, s0, x.ds, x.workspace, x.planId, id)
  {
    CP.FetchedIsChanged(x.cat, x.w, s0, x.ds, tr.h, x.workspace, x.planId, id);
  }

  lemma {:induction false} AskedAreStages(x: Setting, h: H.State)
    requires H.Inv(x.cat, x.w, h) && (x.workspace, x.planId) in h.runs
    ensures x.planId in x.cat.plans && Asked(x, h) <= x.cat.plans[x.planId].stages.Keys
  {
    assert H.RunOk(x.w, x.cat.plans[x.planId], h.store, x.workspace, x.planId, h.runs[(x.workspace, x.planId)]);
  }

  /** The first run's output of the stage. */
  ghost predicate FirstOutput(x: Setting, s0: H.State, id: StageId, a: Artifact) { Lists(x, s0.store, id, a) }

  lemma {:induction false} AttemptReturnsFirstOutput(x: Setting, s0: H.State, tr: Trace, id: StageId, fault: bool)
    requires Renews(x, s0, tr.h) && CanAttempt(x, tr, id)
    ensures var r := EndResult(x, tr, Dispatched(x, id, fault)); r.Ok? && FirstOutput(x, s0, id, r.value)
  {
    CP.RenewedStage(x.cat, x.w, s0, x.ds, tr.h, x.workspace, x.planId, id, fault);
  }

  /** The run has not failed, and every task that is over has the output of the first run. */
  ghost predicate Repeats(x: Setting, s0: H.State, st: SchedState) {
    && !st.status.Failed?
    && (forall id | id in st.artifacts :: FirstOutput(x, s0, id, st.artifacts[id]))
    && forall id | id in st.tasks ::
         || st.tasks[id].phase.Attempting?
         || (st.tasks[id].phase.Succeeded? && FirstOutput(x, s0, id, st.tasks[id].phase.artifact))
  }

  lemma {:induction false} QuietRepeats(x: Setting, s0: H.State, st: SchedState, e: SchedEvent, st': SchedState)
    requires x.p > 0 && Repeats(x, s0, st) && !e.Succeed? && !e.Fail? && S.Apply(x.p, st, e) == Some(st')
    ensures Repeats(x, s0, st')
  {
    if e.StartBatch? { S.StartTasksStartsAll<Artifact>(st.queue[0]); }
  }

  lemma {:induction false} SuccessRepeats(x: Setting, s0: H.State, st: SchedState, id: StageId, a: Artifact, n: nat)
    requires Repeats(x, s0, st) && id in st.tasks && FirstOutput(x, s0, id, a)
    ensures Repeats(x, s0, S.SetPhase(st, id, S.Succeeded(a, n)))
  {
  }

  lemma {:induction false} AttemptRepeats(x: Setting, s0: H.State, tr: Trace, id: StageId, fault: bool)
    requires Renews(x, s0, tr.h) && Repeats(x, s0, tr.st) && CanAttempt(x, tr, id)
    ensures var tr' := AfterEnd(x, tr, Dispatched(x, id, fault)); Renews(x, s0, tr'.h) && Repeats(x, s0, tr'.st)
  {
    var e := Dispatched(x, id, fault);
    EventRenews(x, s0, tr.h, e);
    AttemptReturnsFirstOutput(x, s0, tr, id, fault);
    SuccessRepeats(x, s0, tr.st, id, EndResult(x, tr, e).value, tr.st.tasks[id].phase.attempt);
  }

  lemma {:induction false} StepRepeats(x: Setting, s0: H.State, tr: Trace, step: Step)
    requires Renews(x, s0, tr.h) && Repeats(x, s0, tr.st) && x.p > 0 && StepTo(x, tr, step).Some?
    ensures var tr' := StepTo(x, tr, step).value; Renews(x, s0, tr'.h) && Repeats(x, s0, tr'.st)
  {
    NothingAsked(x, s0, tr);
    match step
    case Quiet(e) => QuietRepeats(x, s0, tr.st, e, S.Apply(x.p, tr.st, e).value);
    case Attempt(id, fault) => AttemptRepeats(x, s0, tr, id, fault);
    case Elsewhere(e) => EventRenews(x, s0, tr.h, e);
    case _ =>
  }

  /**
   * Along every path of a second run, whatever happens elsewhere and whatever the outside world
   * makes fail: the run does not fail, asks no source, and records only artifacts of the first run.
   */
  lemma {:induction false} SecondRunRepeats(x: Setting, s0: H.State, between: seq<H.Event>, steps: seq<Step>)
    requires SecondRun(x, s0, between) && PathTo(x, steps).Some?
    ensures var tr := PathTo(x, steps).value;
      Renews(x, s0, tr.h) && Repeats(x, s0, tr.st) && Asked(x, tr.h) == {}
    decreases |steps|
  {
    if steps == [] {
      SecondRunBegins(x, s0, between);
    } else {
      var init := steps[..|steps| - 1];
      SecondRunRepeats(x, s0, between, init);
      StepRepeats(x, s0, PathTo(x, init).value, steps[|steps| - 1]);
    }
    NothingAsked(x, s0, PathTo(x, steps).value);
  }
}
