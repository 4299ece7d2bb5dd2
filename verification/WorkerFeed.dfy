/** What a worker publishes about one job: events as they happen, then whatever the result still holds, then its end. */
module WorkerFeed {
  import opened Sequences

  datatype Event = Event(name: string, sequence: int)

  /** How the run of a job ends: with a result and its events, interrupted by the operator, or by raising. */
  datatype Ending = Finished(events: seq<Event>) | Interrupted | Raised

  function Normalized(name: string): string {
    if name == "run_finished" then "task_end"
    else if name == "run_started" then "run"
    else if name == "plan_created" then "step"
    else if name == "approval_required" then "approval"
    else if name == "tool_result" then "tool"
    else if name == "verification_finished" then "terminal"
    else "output"
  }

  /** The entries one event becomes on the stream. */
  function Projected(e: Event): seq<string> {
    [Normalized(e.name)] + if e.name == "tool_result" then ["terminal"] else []
  }

  /** How the names of events appear on the stream; any other appears as output. */
  const KINDS := map["run_finished" := "task_end", "run_started" := "run", "plan_created" := "step",
                     "approval_required" := "approval", "tool_result" := "tool", "verification_finished" := "terminal"]

  /** One entry of the event's kind, and behind a tool's result one more for the terminal. */
  lemma {:induction false} ProjectedIs(e: Event)
    ensures |Projected(e)| == if e.name == "tool_result" then 2 else 1
    ensures Projected(e)[0] == if e.name in KINDS then KINDS[e.name] else "output"
    ensures e.name == "tool_result" ==> Projected(e)[1] == "terminal"
  {
  }

  function ProjectedAll(events: seq<Event>): seq<string> {
    if events == [] then []
    else ProjectedAll(events[..|events| - 1]) + Projected(events[|events| - 1])
  }

  function TaskEnds(entries: seq<string>): nat {
    if entries == [] then 0
    else TaskEnds(entries[..|entries| - 1]) + if entries[|entries| - 1] == "task_end" then 1 else 0
  }

  function RunsFinished(events: seq<Event>): nat {
    if events == [] then 0
    else RunsFinished(events[..|events| - 1]) + if events[|events| - 1].name == "run_finished" then 1 else 0
  }

  lemma {:induction false} TaskEndsAppend(a: seq<string>, b: seq<string>)
    ensures TaskEnds(a + b) == TaskEnds(a) + TaskEnds(b)
  {
    if b == [] {
      assert a + b == a;
    } else {
      var front, last := b[..|b| - 1], b[|b| - 1];
      assert (a + b)[..|a + b| - 1] == a + front && (a + b)[|a + b| - 1] == last;
      TaskEndsAppend(a, front);
    }
  }

  lemma OneTaskEnd(entry: string)
    ensures TaskEnds([entry]) == if entry == "task_end" then 1 else 0
  {
    assert [entry][..0] == [];
  }

  lemma NamesDiffer()
    ensures "task_end" != "run" && "task_end" != "step" && "task_end" != "approval" && "task_end" != "tool"
    ensures "task_end" != "terminal" && "task_end" != "output"
  {
    assert "task_end"[1] != "terminal"[1];
  }

  lemma ProjectedEnds(e: Event)
    ensures TaskEnds(Projected(e)) == if e.name == "run_finished" then 1 else 0
  {
    NamesDiffer();
    OneTaskEnd(Normalized(e.name));
    OneTaskEnd("terminal");
    TaskEndsAppend([Normalized(e.name)], if e.name == "tool_result" then ["terminal"] else []);
  }

  /** Published events hold one `task_end` for every finished run among them. */
  lemma {:induction false} ProjectedAllEnds(events: seq<Event>)
    ensures TaskEnds(ProjectedAll(events)) == RunsFinished(events)
  {
    if events != [] {
      var front, last := events[..|events| - 1], events[|events| - 1];
      ProjectedAllEnds(front);
      ProjectedEnds(last);
      TaskEndsAppend(ProjectedAll(front), Projected(last));
    }
  }

  // ---- live events -------------------------------------------------------------------------

  /** The live events that are published: each positive sequence number once. */
  function Fresh(live: seq<Event>): seq<Event> {
    if live == [] then []
    else
      var front, last := live[..|live| - 1], live[|live| - 1];
      Fresh(front) + if last.sequence > 0 && last.sequence in Sequenced(front) then [] else [last]
  }

  /** The positive sequence numbers seen. */
  function Sequenced(live: seq<Event>): set<int> {
    if live == [] then {}
    else
      var last := live[|live| - 1];
      Sequenced(live[..|live| - 1]) + if last.sequence > 0 then {last.sequence} else {}
  }

  /** The result's events that were not published live. */
  function Left(live: seq<Event>, events: seq<Event>): seq<Event> {
    if events == [] then []
    else
      var last := events[|events| - 1];
      Left(live, events[..|events| - 1]) + if last.sequence in Sequenced(live) then [] else [last]
  }

  function Remaining(live: seq<Event>, ending: Ending): seq<Event> {
    match ending
    case Finished(events) => Left(live, events)
    case Interrupted => []
    case Raised => []
  }

  class JobFeed {
    var liveSequences: set<int>
    var liveFinished: bool
    var stream: seq<string>

    constructor ()
      ensures liveSequences == {} && !liveFinished && stream == []
    {
      liveSequences, liveFinished, stream := {}, false, [];
    }

    /** After these live events: what is known of them, and what the stream has gained. */
    ghost predicate After(before: seq<string>, live: seq<Event>)
      reads this
    {
      && liveSequences == Sequenced(live)
      && (liveFinished <==> RunsFinished(Fresh(live)) > 0)
      && stream == before + ProjectedAll(Fresh(live))
    }

    method PublishEvent(e: Event)
      modifies this`stream
      ensures stream == old(stream) + Projected(e)
    {
      stream := stream + [Normalized(e.name)];
      if e.name == "tool_result" {
        stream := stream + ["terminal"];
      }
    }

    method OnEvent(e: Event, ghost before: seq<string>, ghost live: seq<Event>)
      requires After(before, live)
      modifies this
      ensures After(before, live + [e])
    {
      assert (live + [e])[..|live|] == live;
      if e.sequence > 0 && e.sequence in liveSequences {
        assert Fresh(live + [e]) == Fresh(live);
        return;
      }
      if e.sequence > 0 {
        liveSequences := liveSequences + {e.sequence};
      }
      assert (Fresh(live) + [e])[..|Fresh(live)|] == Fresh(live);
      Associate(before, ProjectedAll(Fresh(live)), Projected(e));
      liveFinished := liveFinished || e.name == "run_finished";
      PublishEvent(e);
    }

    /** Publishes the remaining events, and an end of its own when none of the events was one. */
    method PublishResult(events: seq<Event>)
      modifies this`stream
      ensures stream
        == old(stream) + ProjectedAll(events) + if liveFinished || RunsFinished(events) > 0 then [] else ["task_end"]
    {
      var containsRunFinished := false;
      for i := 0 to |events|
        invariant stream == old(stream) + ProjectedAll(events[..i])
        invariant containsRunFinished <==> RunsFinished(events[..i]) > 0
      {
        assert events[..i + 1][..i] == events[..i];
        containsRunFinished := containsRunFinished || events[i].name == "run_finished";
        Associate(old(stream), ProjectedAll(events[..i]), Projected(events[i]));
        PublishEvent(events[i]);
      }
      assert events[..|events|] == events;
      if !liveFinished && !containsRunFinished {
        stream := stream + ["task_end"];
      }
    }

    /** One job: whether its workspace could be prepared, its live events, then how it ended. */
    method Process(prepared: bool, live: seq<Event>, ending: Ending)
      requires liveSequences == {} && !liveFinished
      requires !prepared ==> live == [] && ending == Raised
      modifies this
      ensures stream == old(stream) + JobEntries(prepared, live, ending)
    {
      if prepared {
        stream := stream + ["run"];
      }
      ghost var before := old(stream) + Opening(prepared);
      for i := 0 to |live|
        invariant After(before, live[..i])
      {
        assert live[..i + 1] == live[..i] + [live[i]];
        OnEvent(live[i], before, live[..i]);
      }
      assert live[..|live|] == live;
      var remaining := Unpublished(ending);
      PublishResult(remaining);
      JobEntriesAre(old(stream), prepared, live, ending, stream);
    }

    method Unpublished(ending: Ending) returns (remaining: seq<Event>)
      ensures forall live :: liveSequences == Sequenced(live) ==> remaining == Remaining(live, ending)
    {
      remaining := [];
      if ending.Finished? {
        var events := ending.events;
        for i := 0 to |events|
          invariant forall live :: liveSequences == Sequenced(live) ==> remaining == Left(live, events[..i])
        {
          assert events[..i + 1][..i] == events[..i];
          if events[i].sequence !in liveSequences {
            remaining := remaining + [events[i]];
          }
        }
        assert events[..|events|] == events;
      }
    }
  }

  function Opening(prepared: bool): seq<string> {
    if prepared then ["run"] else []
  }

  /** Everything a job puts on its stream. */
  function JobEntries(prepared: bool, live: seq<Event>, ending: Ending): seq<string> {
    var remaining := Remaining(live, ending);
    Opening(prepared) + ProjectedAll(Fresh(live)) + ProjectedAll(remaining)
    + if RunsFinished(Fresh(live)) > 0 || RunsFinished(remaining) > 0 then [] else ["task_end"]
  }

  lemma JobEntriesAre(before: seq<string>, prepared: bool, live: seq<Event>, ending: Ending, after: seq<string>)
    requires var remaining := Remaining(live, ending);
      after == before + Opening(prepared) + ProjectedAll(Fresh(live)) + ProjectedAll(remaining)
               + if RunsFinished(Fresh(live)) > 0 || RunsFinished(remaining) > 0 then [] else ["task_end"]
    ensures after == before + JobEntries(prepared, live, ending)
  {
    var remaining := Remaining(live, ending);
    var tail := if RunsFinished(Fresh(live)) > 0 || RunsFinished(remaining) > 0 then [] else ["task_end"];
    AllTogether(before, Opening(prepared), ProjectedAll(Fresh(live)), ProjectedAll(remaining), tail);
  }

  lemma AllTogether<T>(a: seq<T>, b: seq<T>, c: seq<T>, d: seq<T>, e: seq<T>)
    ensures a + b + c + d + e == a + (b + c + d + e)
  {
  }

  /** A job begins with `run` exactly when its workspace was prepared, and one that never got so far only ends. */
  lemma {:induction false} JobBegins(live: seq<Event>, ending: Ending)
    ensures JobEntries(true, live, ending) == ["run"] + JobEntries(false, live, ending)
    ensures JobEntries(false, [], Raised) == ["task_end"]
  {
    var remaining := Remaining(live, ending);
    AllTogether([], ["run"], ProjectedAll(Fresh(live)), ProjectedAll(remaining),
                if RunsFinished(Fresh(live)) > 0 || RunsFinished(remaining) > 0 then [] else ["task_end"]);
    assert [] + ProjectedAll(Fresh(live)) == ProjectedAll(Fresh(live));
  }

  // ---- one end -----------------------------------------------------------------------------

  lemma OpeningEnds(prepared: bool)
    ensures TaskEnds(Opening(prepared)) == 0
  {
    NamesDiffer();
    OneTaskEnd("run");
  }

  /** A job publishes as many `task_end` entries as finished runs, live or from the result, but at least one. */
  lemma {:induction false} JobEnds(prepared: bool, live: seq<Event>, ending: Ending)
    ensures var finished := RunsFinished(Fresh(live)) + RunsFinished(Remaining(live, ending));
      TaskEnds(JobEntries(prepared, live, ending)) == if finished == 0 then 1 else finished
  {
    var remaining := Remaining(live, ending);
    ProjectedAllEnds(Fresh(live));
    ProjectedAllEnds(remaining);
    OpeningEnds(prepared);
    TaskEndsAppend(Opening(prepared), ProjectedAll(Fresh(live)));
    TaskEndsAppend(Opening(prepared) + ProjectedAll(Fresh(live)), ProjectedAll(remaining));
    var tail := if RunsFinished(Fresh(live)) > 0 || RunsFinished(remaining) > 0 then [] else ["task_end"];
    TaskEndsAppend(Opening(prepared) + ProjectedAll(Fresh(live)) + ProjectedAll(remaining), tail);
    OneTaskEnd("task_end");
  }

  /** Every finished run among the events carries this sequence number. */
  predicate FinishedAt(events: seq<Event>, sequence: int) {
    events == []
    || (FinishedAt(events[..|events| - 1], sequence)
        && (events[|events| - 1].name == "run_finished" ==> events[|events| - 1].sequence == sequence))
  }

  lemma {:induction false} LiveOnce(live: seq<Event>, sequence: int)
    requires sequence > 0 && FinishedAt(live, sequence)
    ensures RunsFinished(Fresh(live)) <= 1
    ensures RunsFinished(Fresh(live)) == 1 ==> sequence in Sequenced(live)
  {
    if live != [] {
      var front, last := live[..|live| - 1], live[|live| - 1];
      LiveOnce(front, sequence);
      if !(last.sequence > 0 && last.sequence in Sequenced(front)) {
        assert (Fresh(front) + [last])[..|Fresh(front)|] == Fresh(front);
      } else {
        assert Fresh(live) == Fresh(front);
      }
    }
  }

  lemma {:induction false} LeftAtMost(live: seq<Event>, events: seq<Event>, sequence: int)
    requires FinishedAt(events, sequence)
    ensures RunsFinished(Left(live, events)) <= RunsFinished(events)
    ensures sequence in Sequenced(live) ==> RunsFinished(Left(live, events)) == 0
  {
    if events != [] {
      var front, last := events[..|events| - 1], events[|events| - 1];
      LeftAtMost(live, front, sequence);
      if last.sequence !in Sequenced(live) {
        assert (Left(live, front) + [last])[..|Left(live, front)|] == Left(live, front);
      } else {
        assert Left(live, events) == Left(live, front);
      }
    }
  }

  /**
   * When the run finishes at most once, under one positive sequence number wherever it is reported, a job publishes
   * exactly one `task_end`, however it ends.
   */
  lemma {:induction false} ClosedOnce(prepared: bool, live: seq<Event>, ending: Ending, sequence: int)
    requires sequence > 0 && FinishedAt(live, sequence)
    requires ending.Finished? ==> FinishedAt(ending.events, sequence) && RunsFinished(ending.events) <= 1
    ensures TaskEnds(JobEntries(prepared, live, ending)) == 1
  {
    JobEnds(prepared, live, ending);
    LiveOnce(live, sequence);
    if ending.Finished? {
      LeftAtMost(live, ending.events, sequence);
    }
  }

  /**
   * A job publishes exactly one `task_end` if and only if at most one finished run gets through, live or from the
   * result.
   */
  lemma {:induction false} ClosedOnceIff(prepared: bool, live: seq<Event>, ending: Ending)
    ensures TaskEnds(JobEntries(prepared, live, ending)) == 1
      <==> RunsFinished(Fresh(live)) + RunsFinished(Remaining(live, ending)) <= 1
  {
    JobEnds(prepared, live, ending);
  }

  // ---- nothing lost ------------------------------------------------------------------------

  /** No positive sequence number occurs twice. */
  predicate NoneRepeats(live: seq<Event>) {
    live == []
    || (NoneRepeats(live[..|live| - 1])
        && !(live[|live| - 1].sequence > 0 && live[|live| - 1].sequence in Sequenced(live[..|live| - 1])))
  }

  lemma {:induction false} SequencedIs(live: seq<Event>, n: int)
    ensures n in Sequenced(live) <==> n > 0 && exists i :: 0 <= i < |live| && live[i].sequence == n
  {
    if live != [] {
      var front, last := live[..|live| - 1], live[|live| - 1];
      SequencedIs(front, n);
      if i :| 0 <= i < |front| && front[i].sequence == n {
        assert live[i].sequence == n;
      }
      if i :| 0 <= i < |live| && live[i].sequence == n {
        assert i < |front| ==> front[i].sequence == n;
      }
    }
  }

  /** Read position by position: equal positive numbers only at equal positions. */
  lemma {:induction false} NoneRepeatsIs(live: seq<Event>)
    ensures NoneRepeats(live) <==>
      forall i, j :: 0 <= i < j < |live| && live[i].sequence == live[j].sequence ==> live[j].sequence <= 0
  {
    if live != [] {
      var front, last := live[..|live| - 1], live[|live| - 1];
      NoneRepeatsIs(front);
      SequencedIs(front, last.sequence);
      assert forall i :: 0 <= i < |front| ==> live[i] == front[i];
    }
  }

  lemma ProjectedSnoc(events: seq<Event>, e: Event)
    ensures ProjectedAll(events + [e]) == ProjectedAll(events) + Projected(e) && |Projected(e)| >= 1
  {
    assert (events + [e])[..|events|] == events;
  }

  lemma FreshSnoc(live: seq<Event>, e: Event)
    ensures Fresh(live + [e])
      == if e.sequence > 0 && e.sequence in Sequenced(live) then Fresh(live) else Fresh(live) + [e]
    ensures NoneRepeats(live + [e]) <==> NoneRepeats(live) && !(e.sequence > 0 && e.sequence in Sequenced(live))
  {
    assert (live + [e])[..|live|] == live;
  }

  lemma {:induction false} FreshIsLess(live: seq<Event>)
    ensures |ProjectedAll(Fresh(live))| <= |ProjectedAll(live)|
    ensures NoneRepeats(live) ==> Fresh(live) == live
    ensures !NoneRepeats(live) ==> |ProjectedAll(Fresh(live))| < |ProjectedAll(live)|
  {
    if live != [] {
      var front, last := live[..|live| - 1], live[|live| - 1];
      assert live == front + [last];
      FreshIsLess(front);
      FreshSnoc(front, last);
      ProjectedSnoc(front, last);
      ProjectedSnoc(Fresh(front), last);
    }
  }

  /** The stream holds every live event, once, if and only if no positive sequence number is used twice. */
  lemma {:induction false} AllPublishedIff(live: seq<Event>)
    ensures ProjectedAll(Fresh(live)) == ProjectedAll(live)
      <==> forall i, j :: 0 <= i < j < |live| && live[i].sequence == live[j].sequence ==> live[j].sequence <= 0
  {
    FreshIsLess(live);
    NoneRepeatsIs(live);
  }

  /**
   * A run and its sub-agent both number from 1, so the sub-agent's first event is dropped once the run's has been seen.
   */
  lemma {:induction false} SubAgentEventLost(name: string, subAgentName: string)
    ensures Fresh([Event(name, 1), Event(subAgentName, 1)]) == [Event(name, 1)]
  {
    var a, b := Event(name, 1), Event(subAgentName, 1);
    assert [a, b][..1] == [a] && [a][..0] == [];
    assert Sequenced([a]) == {1} by { assert Sequenced([]) == {}; }
    assert Fresh([a]) == [a] by { assert Fresh([]) == []; }
  }
}
