/** The file movement timeline (src/app/components/FileTimeline.tsx): the
    stage events of one file, looked up by id with an empty fallback, and
    the three summary figures and two warnings the modal shows. Durations
    are JavaScript numbers; the model uses `real`, which is exact for the
    fixture values (all multiples of 0.5). */
module FileTimeline {
  import opened Common

  /** `TimelineEvent`. */
  datatype TimelineEvent = TimelineEvent(
    officer: string,
    department: string,
    action: string,
    date: string,
    duration: real,
    status: StageStatus)

  /** The three entries of `timelineData`. */
  const Timeline001: seq<TimelineEvent> := [
    TimelineEvent("R. Venkat", "Reception", "File Received", "Jan 18, 2026", 0.5, Completed),
    TimelineEvent("P. Meena", "Revenue", "Initial Verification", "Jan 18, 2026", 1.0, Completed),
    TimelineEvent("S. Kumar", "Revenue", "Review & Processing", "Jan 20, 2026", 2.0, Current),
    TimelineEvent("Dept Head", "Revenue", "Final Approval", "Pending", 0.0, Pending)
  ]

  const Timeline003: seq<TimelineEvent> := [
    TimelineEvent("R. Venkat", "Reception", "File Received", "Jan 15, 2026", 0.5, Completed),
    TimelineEvent("K. Anand", "Welfare", "Document Check", "Jan 15, 2026", 2.0, Completed),
    TimelineEvent("R. Selvam", "Welfare", "Processing - DELAYED", "Jan 17, 2026", 6.0, Current)
  ]

  const Timeline004: seq<TimelineEvent> := [
    TimelineEvent("R. Venkat", "Reception", "File Received", "Jan 12, 2026", 0.5, Completed),
    TimelineEvent("V. Ganesh", "Legal", "Case Review", "Jan 12, 2026", 3.0, Completed),
    TimelineEvent("A. Lakshmi", "Legal", "Opinion Draft - CRITICAL", "Jan 15, 2026", 8.0, Current)
  ]

  /** `timelineData`. */
  const TimelineData: map<string, seq<TimelineEvent>> :=
    map["FN-2024-001" := Timeline001, "FN-2024-003" := Timeline003, "FN-2024-004" := Timeline004]

  /** `timelineData[fileId] || []`. */
  function TimelineFor(fileId: string): seq<TimelineEvent>
  {
    if fileId in TimelineData then TimelineData[fileId] else []
  }

  /** `timeline.reduce((sum, event) => sum + event.duration, 0)`, folding
      from the left as `reduce` does. */
  function TotalDuration(events: seq<TimelineEvent>): (total: real)
    ensures (forall i :: 0 <= i < |events| ==> events[i].duration >= 0.0) ==> total >= 0.0
    decreases |events|
  {
    if events == [] then 0.0
    else TotalDuration(events[..|events| - 1]) + events[|events| - 1].duration
  }

  /** `timeline.filter(e => e.status === 'completed')`. */
  function CompletedEvents(events: seq<TimelineEvent>): seq<TimelineEvent>
  {
    Filter(events, (e: TimelineEvent) => e.status == Completed)
  }

  /** The three figures of the summary cards. */
  datatype Summary = Summary(totalStages: nat, completed: nat, totalDays: real)

  function SummaryOf(fileId: string): Summary
  {
    var timeline := TimelineFor(fileId);
    Summary(|timeline|, |CompletedEvents(timeline)|, TotalDuration(timeline))
  }

  /** `event.duration > 0`: the duration label is shown. */
  predicate DurationShown(e: TimelineEvent)
  {
    e.duration > 0.0
  }

  /** The condition, written twice in the source, that both turns the
      duration label red and shows the escalation warning under an event. */
  predicate EscalationWarning(e: TimelineEvent)
  {
    e.status == Current && e.duration > 5.0
  }

  /** An id with no timeline gives the empty timeline: no stages, nothing
      completed, no days. A known id gives its own events. */
  lemma TimelineLookup(fileId: string)
    ensures fileId !in TimelineData ==> TimelineFor(fileId) == [] && SummaryOf(fileId) == Summary(0, 0, 0.0)
    ensures fileId in TimelineData ==> TimelineFor(fileId) == TimelineData[fileId]
  {
  }

  /** The completed count never exceeds the number of stages, and it counts
      exactly the completed events. */
  lemma CompletedCountBounded(events: seq<TimelineEvent>)
    ensures |CompletedEvents(events)| <= |events|
    ensures forall e :: e in CompletedEvents(events) <==> e in events && e.status == Completed
  {
    forall e | e in events && e.status == Completed
      ensures e in CompletedEvents(events)
    {
      FilterComplete(events, (e: TimelineEvent) => e.status == Completed, e);
    }
  }

  /** The total of a concatenation is the sum of the totals. */
  lemma {:induction false} TotalDurationAppend(a: seq<TimelineEvent>, b: seq<TimelineEvent>)
    ensures TotalDuration(a + b) == TotalDuration(a) + TotalDuration(b)
    decreases |b|
  {
    if b == [] {
      assert a + b == a;
    } else {
      var b' := b[..|b| - 1];
      assert (a + b)[..|a + b| - 1] == a + b';
      TotalDurationAppend(a, b');
    }
  }

  /** With non-negative durations the total is at least every single
      duration. */
  lemma {:induction false} TotalDurationAtLeastEach(events: seq<TimelineEvent>, k: nat)
    requires k < |events|
    requires forall i :: 0 <= i < |events| ==> events[i].duration >= 0.0
    ensures TotalDuration(events) >= events[k].duration
    decreases |events|
  {
    var front := events[..|events| - 1];
    assert forall i :: 0 <= i < |front| ==> front[i].duration >= 0.0 by {
      forall i | 0 <= i < |front| ensures front[i].duration >= 0.0 {
        assert front[i] == events[i];
      }
    }
    if k < |events| - 1 {
      assert front[k] == events[k];
      TotalDurationAtLeastEach(front, k);
    }
  }

  /** The warning is raised exactly for a current stage of more than five
      days; pending and completed stages never raise it, and whenever it is
      raised the (red) duration label is shown as well. */
  lemma WarningOnlyForOverdueCurrent(e: TimelineEvent)
    ensures EscalationWarning(e) <==> e.status == Current && e.duration > 5.0
    ensures e.status != Current ==> !EscalationWarning(e)
    ensures EscalationWarning(e) ==> DurationShown(e)
  {
  }

  /** The stage tags of the three fixture timelines. */
  lemma FixtureTags()
    ensures StatusTags(Timeline001) == [Completed, Completed, Current, Pending]
    ensures StatusTags(Timeline003) == [Completed, Completed, Current]
    ensures StatusTags(Timeline004) == [Completed, Completed, Current]
  {
  }

  /** The durations of the three fixture timelines are non-negative. */
  lemma FixtureDurationsNonNegative()
    ensures forall i :: 0 <= i < |Timeline001| ==> Timeline001[i].duration >= 0.0
    ensures forall i :: 0 <= i < |Timeline003| ==> Timeline003[i].duration >= 0.0
    ensures forall i :: 0 <= i < |Timeline004| ==> Timeline004[i].duration >= 0.0
  {
  }

  /** The two tag patterns of the fixture timelines are ordered. */
  lemma FixturePatternsOrdered()
    ensures PhaseOrdered([Completed, Completed, Current, Pending])
    ensures PhaseOrdered([Completed, Completed, Current])
  {
  }

  /** Every fixture timeline is completed events, at most one current event,
      then pending events, with non-negative durations. */
  lemma FixtureTimelinesWellFormed(fileId: string)
    requires fileId in TimelineData
    ensures PhaseOrdered(StatusTags(TimelineData[fileId]))
    ensures forall i :: 0 <= i < |TimelineData[fileId]| ==> TimelineData[fileId][i].duration >= 0.0
  {
    FixtureTags();
    FixtureDurationsNonNegative();
    FixturePatternsOrdered();
    var t := TimelineData[fileId];
    assert t == Timeline001 || t == Timeline003 || t == Timeline004;
  }

  /** The stage tags of a timeline, in order. */
  function StatusTags(events: seq<TimelineEvent>): seq<StageStatus>
  {
    Map(events, (e: TimelineEvent) => e.status)
  }

  /** The fold over a sequence of three events. */
  lemma TotalDurationOfThree(a: TimelineEvent, b: TimelineEvent, c: TimelineEvent)
    ensures TotalDuration([a, b, c]) == a.duration + b.duration + c.duration
  {
    assert [a][..0] == [];
    assert TotalDuration([a]) == a.duration;
    assert [a, b][..1] == [a];
    assert TotalDuration([a, b]) == a.duration + b.duration;
    assert [a, b, c][..2] == [a, b];
  }

  /** The fold over a sequence of four events. */
  lemma TotalDurationOfFour(a: TimelineEvent, b: TimelineEvent, c: TimelineEvent, d: TimelineEvent)
    ensures TotalDuration([a, b, c, d]) == a.duration + b.duration + c.duration + d.duration
  {
    TotalDurationOfThree(a, b, c);
    assert [a, b, c, d][..3] == [a, b, c];
  }

  /** The summary of each fixture file, and which of its events raise the
      escalation warning. */
  lemma FixtureSummary001()
    ensures SummaryOf("FN-2024-001") == Summary(4, 2, 3.5)
    ensures !EscalationWarning(Timeline001[2])
  {
    TotalDurationOfFour(Timeline001[0], Timeline001[1], Timeline001[2], Timeline001[3]);
    assert Timeline001 == [Timeline001[0], Timeline001[1], Timeline001[2], Timeline001[3]];
  }

  lemma FixtureSummary003()
    ensures SummaryOf("FN-2024-003") == Summary(3, 2, 8.5)
    ensures EscalationWarning(Timeline003[2])
  {
    TotalDurationOfThree(Timeline003[0], Timeline003[1], Timeline003[2]);
    assert Timeline003 == [Timeline003[0], Timeline003[1], Timeline003[2]];
  }

  lemma FixtureSummary004()
    ensures SummaryOf("FN-2024-004") == Summary(3, 2, 11.5)
    ensures EscalationWarning(Timeline004[2])
  {
    TotalDurationOfThree(Timeline004[0], Timeline004[1], Timeline004[2]);
    assert Timeline004 == [Timeline004[0], Timeline004[1], Timeline004[2]];
  }
}
