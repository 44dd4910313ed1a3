// The sampler does not wait for ever: once every prompt of its step is over, one
// more listing lets it through.

module RolloutProgress {
  import opened Results
  import opened ReplayTable
  import opened Rollout

  /** Every prompt of step g has finished or failed. */
  ghost predicate Settled(w: World, g: nat) {
    forall u :: u in w.prompts && w.prompts[u].step == g ==> w.prompts[u].state.Completed? || w.prompts[u].state.Failed?
  }

  predicate IsOver(t: Table, u: nat) {
    Prompt(u) in t && (t[Prompt(u)].status == Some(Finished) || t[Prompt(u)].status == Some(Failure))
  }

  /** The table says so of every prompt of step g. */
  ghost predicate Heard(w: World, t: Table, g: nat) {
    forall u :: u in w.prompts && w.prompts[u].step == g ==> IsOver(t, u)
  }

  /** A prompt that is over has said so in the queue, and its entry stays there. */
  ghost predicate Reported(w: World) {
    forall u :: u in w.prompts && (w.prompts[u].state.Completed? || w.prompts[u].state.Failed?) ==> Prompt(u) in w.queue
  }

  /** All prompts of step g have been registered. */
  ghost predicate Begun(w: World, g: nat) {
    w.step > g || (w.step == g && !w.phase.Idle?)
  }

  lemma {:induction false} ReportedStays(w: World, e: Event)
    requires Inv(w) && Reported(w) && Enabled(w, e)
    ensures Reported(Apply(w, e))
  {
    hide QueueTable, QueueWhole, ListingOk, BufferTable, WholeIn, PromptsOk;
  }

  lemma {:induction false} RunReports(run: seq<World>, i: nat)
    requires IsRun(run) && i < |run|
    ensures Reported(run[i])
  {
    hide Inv, Enabled, Apply, Reported;
    if i == 0 {
      NothingReported(run[0]);
    } else {
      RunReports(run, i - 1);
      RunInv(run, i - 1);
      assert Next(run[i - 1], run[(i - 1) + 1]);
      var e: Event :| Enabled(run[i - 1], e) && run[i] == Apply(run[i - 1], e);
      ReportedStays(run[i - 1], e);
    }
  }

  lemma {:induction false} NothingReported(w: World)
    requires Initial(w)
    ensures Reported(w)
  {
  }

  lemma {:induction false} QueueHears(w: World, g: nat)
    requires Inv(w) && Reported(w) && Settled(w, g)
    ensures Heard(w, w.queue, g)
  {
    forall u | u in w.prompts && w.prompts[u].step == g ensures IsOver(w.queue, u) {
      assert QueueEntry(w, Prompt(u), w.queue[Prompt(u)]);
    }
  }

  /** A buffer that has heard of every prompt makes no sampler wait. */
  lemma {:induction false} HeardMeansThrough(w: World, g: nat)
    requires Inv(w) && Heard(w, w.buffer, g)
    ensures !MustWait(w.buffer, g)
  {
    forall k ensures !IsRunning(w.buffer, g, k) {
      if k in w.buffer {
        assert BufferEntry(w, k, w.buffer[k]);
      }
    }
  }

  lemma {:induction false} SamePrompts(w: World, v: World, e: Event, g: nat)
    requires Enabled(w, e) && v == Apply(w, e) && Begun(w, g)
    ensures Begun(v, g)
    ensures forall u :: u in v.prompts && v.prompts[u].step == g ==> u in w.prompts && w.prompts[u].step == g
  {
    hide Merge, Sampled, MustWait;
  }

  /** A listing of the queue never says of a prompt that it is running. */
  lemma {:induction false} ListedIsOver(w: World, u: nat)
    requires Inv(w) && w.listing.Some? && Prompt(u) in w.listing.value
    ensures IsOver(w.listing.value, u)
  {
    assert QueueEntry(w, Prompt(u), w.listing.value[Prompt(u)]);
  }

  lemma {:induction false} BufferStillHears(w: World, v: World, e: Event, u: nat)
    requires Inv(w) && Enabled(w, e) && v == Apply(w, e) && u in w.prompts && IsOver(w.buffer, u)
    ensures IsOver(v.buffer, u)
  {
    if e.AddListing? && Prompt(u) in w.listing.value {
      ListedIsOver(w, u);
    }
    hide QueueTable, QueueWhole, ListingOk, BufferTable, WholeIn, PromptsOk;
  }

  lemma {:induction false} AddingHears(w: World, v: World, u: nat)
    requires Enabled(w, AddListing) && v == Apply(w, AddListing) && IsOver(w.listing.value, u)
    ensures IsOver(v.buffer, u)
  {
  }

  /** The buffer has heard, or is about to. */
  ghost predicate WillHear(w: World, g: nat) {
    Heard(w, w.buffer, g) || (w.listing.Some? && Heard(w, w.listing.value, g))
  }

  lemma {:induction false} HearingStays(w: World, v: World, e: Event, g: nat)
    requires Inv(w) && Enabled(w, e) && v == Apply(w, e) && Begun(w, g)
    ensures Heard(w, w.buffer, g) ==> Heard(v, v.buffer, g)
    ensures WillHear(w, g) ==> WillHear(v, g)
    ensures WillHear(w, g) && w.listing.Some? && v.listing.None? ==> Heard(v, v.buffer, g)
  {
    SamePrompts(w, v, e, g);
    forall u | u in w.prompts && IsOver(w.buffer, u) ensures IsOver(v.buffer, u) {
      BufferStillHears(w, v, e, u);
    }
    if e.AddListing? {
      forall u | u in w.prompts && IsOver(w.listing.value, u) ensures IsOver(v.buffer, u) {
        AddingHears(w, v, u);
      }
    }
    assert w.listing.Some? && !e.AddListing? ==> v.listing == w.listing;
    hide Inv, IsOver, Apply;
  }

  lemma {:induction false} HearingLasts(run: seq<World>, i: nat, k: nat, j: nat, g: nat)
    requires IsRun(run) && i <= k <= j < |run|
    requires Begun(run[i], g) && WillHear(run[i], g)
    ensures Begun(run[j], g) && WillHear(run[j], g)
    ensures Heard(run[k], run[k].buffer, g) ==> Heard(run[j], run[j].buffer, g)
    decreases j - i
  {
    hide Inv, Enabled, Apply, Begun, WillHear, Heard;
    if i < j {
      HearingLasts(run, i, if k < j then k else j - 1, j - 1, g);
      RunInv(run, j - 1);
      assert Next(run[j - 1], run[(j - 1) + 1]);
      var e: Event :| Enabled(run[j - 1], e) && run[j] == Apply(run[j - 1], e);
      SamePrompts(run[j - 1], run[j], e, g);
      HearingStays(run[j - 1], run[j], e, g);
    }
  }

  lemma {:induction false} ListingHears(w: World, v: World)
    requires Inv(w) && Reported(w) && w.phase.Sampling? && Settled(w, w.step)
    requires Enabled(w, List) && v == Apply(w, List)
    ensures Begun(v, w.step) && WillHear(v, w.step)
  {
    QueueHears(w, w.step);
    hide Inv, IsOver;
  }

  lemma {:induction false} AddedAt(run: seq<World>, k: nat, g: nat)
    requires IsRun(run) && k + 1 < |run| && Begun(run[k], g) && WillHear(run[k], g)
    requires run[k].listing.Some? && run[k + 1].listing.None?
    ensures Begun(run[k + 1], g) && WillHear(run[k + 1], g) && Heard(run[k + 1], run[k + 1].buffer, g)
  {
    hide Inv, Enabled, Apply, Begun, Heard, Initial;
    RunInv(run, k);
    assert Next(run[k], run[k + 1]);
    var e: Event :| Enabled(run[k], e) && run[k + 1] == Apply(run[k], e);
    SamePrompts(run[k], run[k + 1], e, g);
    HearingStays(run[k], run[k + 1], e, g);
  }

  /** When the queue is listed at a moment at which every prompt of the sampled step is over, and that listing has been
      added, the sampler never has to wait again. */
  lemma {:induction false} SampleGetsThrough(run: seq<World>, i: nat, k: nat, j: nat)
    requires IsRun(run) && i < k < j < |run|
    requires run[i].phase.Sampling? && Settled(run[i], run[i].step)
    requires Enabled(run[i], List) && run[i + 1] == Apply(run[i], List)
    requires run[k].listing.Some? && run[k + 1].listing.None?
    ensures !MustWait(run[j].buffer, run[i].step)
  {
    hide IsRun, Inv, Reported, Enabled, Apply, Begun, WillHear, Heard, MustWait, Settled;
    var g := run[i].step;
    RunInv(run, i);
    RunReports(run, i);
    ListingHears(run[i], run[i + 1]);
    HearingLasts(run, i + 1, i + 1, k, g);
    AddedAt(run, k, g);
    HearingLasts(run, k + 1, k + 1, j, g);
    RunInv(run, j);
    HeardMeansThrough(run[j], g);
  }
}
