/** From a run to its trace: a recording toolset can always say what it did. */
module ToolsetTraces {
  import opened Basics
  import opened Json
  import opened KernelEvents
  import opened Toolset
  import opened ToolsetRuns
  import opened Pairing
  import opened Trace
  import TraceProofs

  /**
    After any run that starts aligned, as a fresh recorder and governor do, pairing succeeds: each record
    stands with the verdict on that very call, its arguments, its output and the kernel's event at the time.
   */
  lemma RunsArePaired<G(!new), W>(s: Setup<G, W>, st: State<G, W>, fuel: nat, p: Program<W>)
    requires RecordsVerdicts(s.kernel) && s.recording && Aligned(s, st)
    ensures var end := Play(s, st, fuel, p).0;
            var paired := Paired(end.calls, Verdicts(s, end), EveryIntent);
            && paired.Ok? && |paired.value| == |end.calls| == |Places(end.log)|
            && forall i :: 0 <= i < |paired.value| ==>
                 && paired.value[i] == Pair(Some(end.calls[i]), Verdicts(s, end)[i])
                 && RecordStands(s, end, i, Places(end.log)[i])
  {
    RunKeepsAligned(s, st, fuel, p);
  }

  /** So its trace is refused only if the kernel recorded a denial without a category. */
  lemma RunsHaveTraces<G(!new), W>(s: Setup<G, W>, st: State<G, W>, fuel: nat, p: Program<W>, setting: Setting)
    requires RecordsVerdicts(s.kernel) && s.recording && Aligned(s, st)
    ensures var end := Play(s, st, fuel, p).0;
            BuildTrace(setting, end.calls, s.kernel.events(end.governor), EveryIntent).Ok? <==>
            forall i :: 0 <= i < |Verdicts(s, end)| && IsDenial(Verdicts(s, end)[i]) ==> Verdicts(s, end)[i].payload.category.Some?
  {
    var end := Play(s, st, fuel, p).0;
    RunKeepsAligned(s, st, fuel, p);
    ZippedTraces(setting, end.calls, s.kernel.events(end.governor));
  }

  lemma ZippedTraces(setting: Setting, calls: seq<RecordedCall>, events: seq<TraceEvent>)
    requires |calls| == |VerdictEvents(events)|
    ensures var verdicts := VerdictEvents(events);
            BuildTrace(setting, calls, events, EveryIntent).Ok? <==>
            forall i :: 0 <= i < |verdicts| && IsDenial(verdicts[i]) ==> verdicts[i].payload.category.Some?
  {
    var pairs := Zip(calls, VerdictEvents(events));
    TraceProofs.BuildSucceedsIff(setting, pairs);
    assert forall i :: 0 <= i < |pairs| ==> pairs[i].event == VerdictEvents(events)[i];
  }
}
