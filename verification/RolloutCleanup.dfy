// What is left of a step once its batch has been taken and cleared away.

module RolloutCleanup {
  import opened ReplayTable
  import opened Rollout

  /** Step g's batch has been taken. */
  ghost predicate Taken(w: World, g: nat) {
    g < w.step || (g == w.step && (w.phase.Clearing? || w.phase.Removing?))
  }

  /** ... and cleared from the queue. */
  ghost predicate Cleared(w: World, g: nat) {
    g < w.step || (g == w.step && w.phase.Removing?)
  }

  /** The prompts of a taken batch are over, and the batch in hand holds all outputs of the finished ones. */
  ghost predicate TakenWhole(w: World) {
    && (forall u :: u in w.prompts && Taken(w, w.prompts[u].step) ==>
          w.prompts[u].state.Completed? || w.prompts[u].state.Failed?)
    && (w.phase.Clearing? || w.phase.Removing? ==>
          forall u :: u in w.prompts && w.prompts[u].step == w.step && w.prompts[u].state.Completed? ==>
            w.prompts[u].produced <= w.phase.keys)
  }

  ghost predicate IsCleared(w: World, u: nat) {
    u in w.prompts && w.prompts[u].state.Completed? && Cleared(w, w.prompts[u].step)
  }

  ghost predicate QueueClean(w: World) {
    forall u :: IsCleared(w, u) ==> w.prompts[u].produced !! w.queue.Keys
  }

  // ---------- the steps ----------

  lemma {:induction false} WorkerClean(w: World, v: World, e: Event)
    requires Inv(w) && TakenWhole(w) && QueueClean(w) && Enabled(w, e) && v == Apply(w, e)
    requires e.PutOutputs? || e.Finish? || e.Fail?
    ensures TakenWhole(v) && QueueClean(v)
  {
    WorkerPrompts(w, v, e);
    hide QueueTable, QueueWhole, ListingOk, BufferTable, WholeIn, BatchInHand, Apply;
    forall u | IsCleared(v, u) ensures v.prompts[u].produced !! v.queue.Keys {
      assert u != e.uid ==> IsCleared(w, u);
      assert OutputsOf(u, v.prompts[u].produced);
    }
  }

  lemma {:induction false} TakeClean(w: World)
    requires Inv(w) && TakenWhole(w) && QueueClean(w) && Enabled(w, TrySample)
    ensures TakenWhole(Apply(w, TrySample)) && QueueClean(Apply(w, TrySample))
  {
    if !MustWait(w.buffer, w.step) {
      forall u | u in w.prompts && w.prompts[u].step == w.step
        ensures w.prompts[u].state.Completed? || w.prompts[u].state.Failed?
        ensures w.prompts[u].state.Completed? ==> w.prompts[u].produced <= Sampled(w.buffer, w.step)
      {
        SettledPrompt(w, u);
      }
    }
    hide Inv, MustWait, Sampled;
  }

  lemma {:induction false} OtherClean(w: World, e: Event)
    requires Inv(w) && TakenWhole(w) && QueueClean(w) && Enabled(w, e)
    requires e.Register? || e.Launch? || e.List? || e.AddListing? || e.Clear? || e.Remove?
    ensures TakenWhole(Apply(w, e)) && QueueClean(Apply(w, e))
  {
    hide QueueTable, QueueWhole, ListingOk, BufferTable, WholeIn, BatchInHand, Merge, OutputsOf;
  }

  lemma {:induction false} EventClean(w: World, e: Event)
    requires Inv(w) && TakenWhole(w) && QueueClean(w) && Enabled(w, e)
    ensures TakenWhole(Apply(w, e)) && QueueClean(Apply(w, e))
  {
    hide Inv, TakenWhole, QueueClean, Apply, Enabled;
    if e.PutOutputs? || e.Finish? || e.Fail? {
      WorkerClean(w, Apply(w, e), e);
    } else if e.TrySample? {
      TakeClean(w);
    } else {
      OtherClean(w, e);
    }
  }

  lemma {:induction false} RunClean(run: seq<World>, i: nat)
    requires IsRun(run) && i < |run|
    ensures TakenWhole(run[i]) && QueueClean(run[i])
  {
    hide Inv, Enabled, Apply;
    if i == 0 {
      assert Initial(run[0]);
    } else {
      hide TakenWhole, QueueClean;
      RunClean(run, i - 1);
      RunInv(run, i - 1);
      assert Next(run[i - 1], run[(i - 1) + 1]);
      var e: Event :| Enabled(run[i - 1], e) && run[i] == Apply(run[i - 1], e);
      EventClean(run[i - 1], e);
    }
  }

  /** In every run, once a batch has been cleared the queue holds no output of any finished prompt of its step. */
  lemma {:induction false} QueueForgets(run: seq<World>, i: nat, u: nat)
    requires IsRun(run) && i < |run| && u in run[i].prompts && run[i].prompts[u].state.Completed?
    requires run[i].prompts[u].step < run[i].step
    ensures run[i].prompts[u].produced !! run[i].queue.Keys
  {
    RunClean(run, i);
    assert IsCleared(run[i], u);
  }

  // ---------- the replay buffer ----------

  /** No output of the prompt is in the queue, the buffer or a listing in hand. */
  ghost predicate Gone(w: World, u: nat) {
    && IsCleared(w, u) && w.prompts[u].produced !! w.queue.Keys && w.prompts[u].produced !! w.buffer.Keys
    && (w.listing.Some? ==> w.prompts[u].produced !! w.listing.value.Keys)
  }

  lemma {:induction false} WorkerGone(w: World, v: World, e: Event, u: nat)
    requires Inv(w) && Gone(w, u) && Enabled(w, e) && v == Apply(w, e) && (e.PutOutputs? || e.Finish? || e.Fail?)
    ensures Gone(v, u) && v.prompts[u].produced == w.prompts[u].produced
  {
    WorkerPrompts(w, v, e);
    hide QueueTable, QueueWhole, ListingOk, BufferTable, WholeIn, BatchInHand, Apply;
    assert OutputsOf(u, w.prompts[u].produced);
  }

  lemma {:induction false} OtherGone(w: World, e: Event, u: nat)
    requires Inv(w) && Gone(w, u) && Enabled(w, e) && !e.PutOutputs? && !e.Finish? && !e.Fail?
    ensures Gone(Apply(w, e), u) && Apply(w, e).prompts[u].produced == w.prompts[u].produced
  {
    hide QueueTable, QueueWhole, ListingOk, BufferTable, WholeIn, BatchInHand, MustWait, Sampled;
    assert OutputsOf(u, w.prompts[u].produced);
  }

  /** What is gone stays gone. */
  lemma {:induction false} StaysGone(run: seq<World>, i: nat, j: nat, u: nat)
    requires IsRun(run) && i <= j < |run| && Gone(run[i], u)
    ensures Gone(run[j], u) && run[j].prompts[u].produced == run[i].prompts[u].produced
  {
    hide Inv, Enabled, Apply, Gone;
    if i < j {
      StaysGone(run, i, j - 1, u);
      RunInv(run, j - 1);
      assert Next(run[j - 1], run[(j - 1) + 1]);
      var e: Event :| Enabled(run[j - 1], e) && run[j] == Apply(run[j - 1], e);
      if e.PutOutputs? || e.Finish? || e.Fail? {
        WorkerGone(run[j - 1], run[j], e, u);
      } else {
        OtherGone(run[j - 1], e, u);
      }
    }
  }

  /** Removing a batch from the buffer leaves nothing of a finished prompt, now or later, if and only if no listing
      taken before the clean-up is still in hand with an output of it. */
  lemma {:induction false} RemoveForgets(run: seq<World>, i: nat, u: nat)
    requires IsRun(run) && i + 1 < |run| && Enabled(run[i], Remove) && run[i + 1] == Apply(run[i], Remove)
    requires u in run[i].prompts && run[i].prompts[u].state.Completed? && run[i].prompts[u].step == run[i].step
    ensures Gone(run[i + 1], u) <==>
            (run[i].listing.Some? ==> run[i].prompts[u].produced !! run[i].listing.value.Keys)
  {
    RunClean(run, i);
    assert IsCleared(run[i], u);
    hide IsRun, QueueClean;
  }
}
