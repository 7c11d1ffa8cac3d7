/** Stage labels of a run and the time spent in each. */
module StageTimes {
  import opened Sorting

  datatype Transition = Transition(offset: real, stage: string)

  function Positive(x: real): real {
    if x > 0.0 then x else 0.0
  }

  /** When transition `i` ended: at the next one, or at the end. */
  function FinishOf(transitions: seq<Transition>, end: real, i: nat): real
    requires i < |transitions|
  {
    if i + 1 < |transitions| then transitions[i + 1].offset else end
  }

  function SegmentOf(transitions: seq<Transition>, end: real, i: nat): real
    requires i < |transitions|
  {
    Positive(FinishOf(transitions, end, i) - transitions[i].offset)
  }

  /** The time of the first `n` segments spent in one stage. */
  function TimeIn(transitions: seq<Transition>, end: real, stage: string, n: nat): real
    requires n <= |transitions|
  {
    if n == 0 then 0.0
    else
      TimeIn(transitions, end, stage, n - 1)
      + (if transitions[n - 1].stage == stage then SegmentOf(transitions, end, n - 1) else 0.0)
  }

  function Stages(transitions: seq<Transition>, n: nat): set<string>
    requires n <= |transitions|
  {
    set i | 0 <= i < n :: transitions[i].stage
  }

  ghost predicate InOrder(transitions: seq<Transition>, end: real) {
    && (forall i | 0 <= i < |transitions| - 1 :: transitions[i].offset <= transitions[i + 1].offset)
    && (transitions != [] ==> transitions[|transitions| - 1].offset <= end)
  }

  class StageTracker {
    const started: real
    var current: string
    var transitions: seq<Transition>

    /** The current stage is that of the last transition, and no transition repeats the stage before it. */
    ghost predicate Valid()
      reads this
    {
      && (transitions != [] ==> current == transitions[|transitions| - 1].stage)
      && forall i | 0 <= i < |transitions| - 1 :: transitions[i].stage != transitions[i + 1].stage
    }

    constructor (started: real)
      ensures Valid() && current == "idle" && transitions == [] && this.started == started
    {
      this.started := started;
      current, transitions := "idle", [];
    }

    method SetStage(stage: string, now: real)
      requires Valid()
      modifies this
      ensures Valid() && current == stage
      ensures transitions == if old(current) == stage && old(transitions) != [] then old(transitions)
                             else old(transitions) + [Transition(now - started, stage)]
    {
      if stage == current && transitions != [] {
        return;
      }
      current := stage;
      transitions := transitions + [Transition(now - started, stage)];
    }

    /** `duration_summary`: the seconds of every stage that occurred; `current` is always one of them. */
    method DurationSummary(end: real) returns (durations: map<string, real>)
      requires Valid()
      ensures durations.Keys == Stages(transitions, |transitions|)
      ensures forall s | s in durations :: durations[s] == TimeIn(transitions, end, s, |transitions|)
    {
      durations := map[];
      for i := 0 to |transitions|
        invariant durations.Keys == Stages(transitions, i)
        invariant forall s: string ::
                    (if s in durations then durations[s] else 0.0) == TimeIn(transitions, end, s, i)
      {
        var event := transitions[i];
        assert Stages(transitions, i + 1) == Stages(transitions, i) + {event.stage};
        durations := durations[event.stage := (if event.stage in durations then durations[event.stage] else 0.0)
                                              + SegmentOf(transitions, end, i)];
      }
      if transitions == [] {
        return;
      }
      assert transitions[|transitions| - 1].stage in Stages(transitions, |transitions|);
      if current !in durations {
        durations := durations[current := 0.0];
      }
    }
  }

  // ---------------------------------------------------------------- no time is lost

  function TotalTime(transitions: seq<Transition>, end: real, stages: seq<string>, n: nat): real
    requires n <= |transitions|
  {
    if stages == [] then 0.0 else TimeIn(transitions, end, stages[0], n) + TotalTime(transitions, end, stages[1..], n)
  }

  /** One more segment adds its length to the one list entry with its stage. */
  lemma {:induction false} SegmentCounted(transitions: seq<Transition>, end: real, stages: seq<string>, n: nat)
    requires n < |transitions| && Distinct(stages)
    ensures TotalTime(transitions, end, stages, n + 1)
            == TotalTime(transitions, end, stages, n)
               + (if transitions[n].stage in stages then SegmentOf(transitions, end, n) else 0.0)
  {
    if stages != [] {
      DistinctTail(stages);
      SegmentCounted(transitions, end, stages[1..], n);
      assert transitions[n].stage in stages
          <==> transitions[n].stage == stages[0] || transitions[n].stage in stages[1..];
    }
  }

  lemma {:induction false} NothingYet(transitions: seq<Transition>, end: real, stages: seq<string>)
    ensures TotalTime(transitions, end, stages, 0) == 0.0
  {
    if stages != [] {
      NothingYet(transitions, end, stages[1..]);
    }
  }

  /** The stages share out the whole time between the first transition and the end. */
  lemma {:induction false} DurationsAddUp(transitions: seq<Transition>, end: real, stages: seq<string>, n: nat)
    requires 1 <= n <= |transitions| && InOrder(transitions, end) && Distinct(stages)
    requires forall i | 0 <= i < |transitions| :: transitions[i].stage in stages
    ensures TotalTime(transitions, end, stages, n) == FinishOf(transitions, end, n - 1) - transitions[0].offset
  {
    SegmentCounted(transitions, end, stages, n - 1);
    if n == 1 {
      NothingYet(transitions, end, stages);
    } else {
      DurationsAddUp(transitions, end, stages, n - 1);
    }
  }
}
