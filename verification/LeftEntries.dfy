/** Cleanup removes a completed job's event in two commands, a lookup and an LREM, and gives up when the LREM
    removes nothing: the job then stays in the cleaning list. When that happens, and what it breaks. */
module LeftEntries {
  import opened QueueJobs
  import opened JobQueue
  import opened Cleanup
  import opened Protocol
  import opened HandlerInvariant
  import opened Runs
  import opened Guarantees

  // Cleanup is at work on the entry in the cleaning list.
  predicate Processing(pc: Pc) {
    && pc.CleaningUp?
    && (|| pc.stage.Have? || pc.stage.Settling? || pc.stage.Removing?
        || pc.stage.PurgeFinished? || pc.stage.PurgeCleaning?)
  }

  predicate TidyView(v: View) {
    v.cleaning == [] || (Processing(v.me.pc) && (v.cleaning[0].kind.WorkflowJobPayload? ==> v.queue == []))
  }

  /** The cleaning list is empty but while cleanup is at work on its entry, and a payload in it is in no other list. */
  predicate Tidy(s: State, h: HandlerId)
    requires h < |s.hosts|
  {
    TidyView(ViewOf(s, h))
  }

  predicate GivesUpView(v: View, a: HostAction) {
    a == Clean(RemoveEvent) && v.me.pc.CleaningUp? && v.me.pc.stage.Removing? && v.me.pc.stage.event !in v.completed
  }

  // The handler's cleanup removes nothing and returns.
  predicate GivesUp(s: State, step: Step, h: HandlerId)
    requires h < |s.hosts|
  {
    step.Host? && step.h == h && GivesUpView(ViewOf(s, h), step.a)
  }

  /* ----- tidiness ----- */

  lemma CleanTidyIff(v: View, a: CleanAction)
    requires ViewOk(v) && TidyView(v)
    ensures TidyView(CleanStep(v, a)) <==> !GivesUpView(v, Clean(a))
  {
    hide RemoveFirstWithId, HasId, LRem, StillRunning, AllPayloads, Terminal, Committed;
  }

  lemma SelectTidy(v: View, a: SelectAction)
    requires ViewOk(v) && TidyView(v)
    ensures TidyView(SelectStep(v, a))
  {
    hide LRem, AllPayloads, Terminal, Committed, OneJobThenVMs;
  }

  lemma WorkTidy(self: HandlerId, v: View, a: WorkAction)
    requires ViewOk(v) && TidyView(v)
    ensures TidyView(WorkStep(self, v, a))
  {
    hide UpdateList, RemoveFirstWithId, HasId, AllPayloads, Terminal, Committed, OneJobThenVMs, Mine, Alone, Admitted;
  }

  lemma CheckTidy(v: View, a: CheckAction)
    requires TidyView(v)
    ensures TidyView(CheckStep(v, a))
  {
    hide FirstSame, RemoveFirstWithId, HasId;
  }

  lemma HostTidyIff(self: HandlerId, v: View, a: HostAction)
    requires ViewOk(v) && TidyView(v)
    ensures TidyView(HostStep(self, v, a)) <==> !GivesUpView(v, a)
  {
    hide ViewOk, TidyView, SelectStep, WorkStep, CheckStep, CleanStep;
    match a
    case Select(x) => SelectTidy(v, x);
    case Work(x) => WorkTidy(self, v, x);
    case Check(x) => CheckTidy(v, x);
    case Clean(x) => CleanTidyIff(v, x);
  }

  // Taking over a job, or looking it up, leaves every handler tidy that was.
  lemma TakeTidy(s: State, k: HandlerId, h: HandlerId)
    requires Inv(s) && h < |s.hosts| && Tidy(s, h)
    ensures Tidy(TakeStep(s, k), h)
  {
    if k < |s.hosts| && s.hosts[k].pc.AdFound? {
      var o := s.hosts[k].pc.owner;
      if o != k && o < |s.hosts| {
        assert HandlerOk(Read(s.db, PluginQueue(k)), Read(s.db, Cleaning(k)), s.hosts[k]);
        RemovingPaused(Read(s.db, PluginQueue(o)), s.hosts[k].pc.entry, Read(s.db, Cleaning(o)), s.hosts[o]);
        hide LRem, HandlerOk;
      }
    }
  }

  lemma LookUpTidy(s: State, k: HandlerId, h: HandlerId)
    requires h < |s.hosts| && Tidy(s, h)
    ensures Tidy(LookUpStep(s, k), h)
  {
  }

  lemma HandlerTidyIff(s: State, k: HandlerId, a: HostAction, h: HandlerId)
    requires Inv(s) && h < |s.hosts| && Tidy(s, h)
    ensures var t := Next(s, Host(k, a));
      |t.hosts| == |s.hosts| && (Tidy(t, h) <==> !GivesUp(s, Host(k, a), h))
  {
    hide HostStep, HandlerOk, GivesUpView, AllPayloads, Terminal;
    if k < |s.hosts| {
      PutThenView(s, k, HostStep(k, ViewOf(s, k), a));
      if k == h {
        assert ViewOk(ViewOf(s, h));
        HostTidyIff(h, ViewOf(s, h), a);
      }
    }
  }

  lemma ReceiverTidy(s: State, step: Step, h: HandlerId)
    requires OfReceiver(step) && h < |s.hosts| && Tidy(s, h)
    ensures |Next(s, step).hosts| == |s.hosts| && Tidy(Next(s, step), h)
  {
    hide Next;
    ReceiverFrame(s, step);
  }

  lemma StepTidyIff(s: State, step: Step, h: HandlerId)
    requires Inv(s) && h < |s.hosts| && Tidy(s, h)
    ensures |Next(s, step).hosts| == |s.hosts| && (Tidy(Next(s, step), h) <==> !GivesUp(s, step, h))
  {
    hide Inv, Tidy, GivesUpView, HostStep, ViewOf, PutView, ReceiveStep, ProceedStep;
    match step
    case Host(k, a) => HandlerTidyIff(s, k, a, h);
    case LookUp(k) => LookUpTidy(s, k, h);
    case Take(k) => TakeTidy(s, k, h);
    case _ => ReceiverTidy(s, step, h);
  }

  ghost predicate TidyThroughout(s: State, steps: seq<Step>, h: HandlerId)
    requires h < |s.hosts|
    decreases |steps|
  {
    && Tidy(s, h)
    && (steps == [] || (h < |Next(s, steps[0]).hosts| && TidyThroughout(Next(s, steps[0]), steps[1..], h)))
  }

  ghost predicate NeverGivesUp(s: State, steps: seq<Step>, h: HandlerId)
    requires h < |s.hosts|
    decreases |steps|
  {
    || steps == []
    || (&& !GivesUp(s, steps[0], h)
        && h < |Next(s, steps[0]).hosts| && NeverGivesUp(Next(s, steps[0]), steps[1..], h))
  }

  /** Over every run a handler's cleaning list is empty outside cleanup's work on its entry, and a payload in it is
      in no other list, if and only if none of its cleanups gives up. */
  lemma {:induction false} TidyThroughoutIff(s: State, steps: seq<Step>, h: HandlerId)
    requires Inv(s) && h < |s.hosts| && Tidy(s, h)
    ensures TidyThroughout(s, steps, h) <==> NeverGivesUp(s, steps, h)
    decreases |steps|
  {
    hide Next, Inv, Tidy, GivesUp;
    if steps != [] {
      StepTidyIff(s, steps[0], h);
      StepKeepsInv(s, steps[0]);
      if !GivesUp(s, steps[0], h) {
        TidyThroughoutIff(Next(s, steps[0]), steps[1..], h);
      }
    }
  }

  lemma InitiallyTidy(s: State, h: HandlerId)
    requires Initial(s) && h < |s.hosts|
    ensures Inv(s) && Tidy(s, h)
  {
    InitialInv(s);
  }

  /* ----- why a cleanup gives up ----- */

  predicate Recorded(s: State, event: QueueJob) {
    event in Read(s.db, MainCompleted)
  }

  predicate StaysOut(s: State, steps: seq<Step>, event: QueueJob)
    decreases |steps|
  {
    !Recorded(s, event) && (steps == [] || StaysOut(Next(s, steps[0]), steps[1..], event))
  }

  // Some step removes the event, and none records it again.
  predicate TakenForGood(s: State, steps: seq<Step>, event: QueueJob)
    decreases |steps|
  {
    && steps != []
    && (|| (Recorded(s, event) && StaysOut(Next(s, steps[0]), steps[1..], event))
        || TakenForGood(Next(s, steps[0]), steps[1..], event))
  }

  lemma {:induction false} GoneIff(s: State, steps: seq<Step>, event: QueueJob)
    ensures !Recorded(Run(s, steps), event) <==> TakenForGood(s, steps, event) || StaysOut(s, steps, event)
    ensures Recorded(s, event) ==> !StaysOut(s, steps, event)
    decreases |steps|
  {
    hide Next, Recorded;
    if steps != [] {
      GoneIff(Next(s, steps[0]), steps[1..], event);
    }
  }

  /** A cleanup gives up if and only if some step between its lookup and its LREM removes the event it found, and
      none in between records it again: with `s` the state of the lookup and `between` the steps in the gap. */
  lemma GivesUpIff(s: State, h: HandlerId, between: seq<Step>)
    requires h < |s.hosts| && s.hosts[h].pc.CleaningUp? && s.hosts[h].pc.stage.Settling?
    requires s.hosts[h].pc.stage.job.status.Completed? && HasId(Read(s.db, MainCompleted), s.hosts[h].pc.stage.job.id)
    requires var t := Next(s, Host(h, Clean(CleanAction.Settle)));
      |Run(t, between).hosts| == |s.hosts| && Run(t, between).hosts[h].pc == t.hosts[h].pc
    ensures var t := Next(s, Host(h, Clean(CleanAction.Settle)));
      GivesUp(Run(t, between), Host(h, Clean(RemoveEvent)), h) <==>
      TakenForGood(t, between, t.hosts[h].pc.stage.event)
  {
    var v := ViewOf(s, h);
    var w := HostStep(h, v, Clean(CleanAction.Settle));
    var t := Next(s, Host(h, Clean(CleanAction.Settle)));
    PutThenView(s, h, w);
    assert ViewOf(t, h).me == t.hosts[h] && ViewOf(t, h).completed == Read(t.db, MainCompleted);
    assert w.me.pc.stage.event in w.completed;
    hide HostStep, Next, Run, TakenForGood, StaysOut;
    GoneIff(t, between, t.hosts[h].pc.stage.event);
  }
}
