/** The disconnect automaton in runs: what the coordinator's failure counters hold, and what ends a session. */
module LinkRuns {
  import opened LinkHealth
  import opened Flows
  import opened JointSystem
  import opened JointInvariant
  import opened RunHistory
  import CM = CoordinatorModel

  /** No failure has been counted since the last success, or since the beginning. */
  predicate Fresh(l: Link) {
    !l.disconnected && l.sendStreak == 0 && l.timeoutStreak == 0
  }

  /** Every iteration that nothing is lost in, unless it sleeps, leaves a fresh link and a session. */
  lemma SuccessRefreshes(w: World, ev: Event)
    requires Inv(w) && ev.Loop? && ev.outcome.Both? && !CM.Sleeps(w.coord, ev.t)
    ensures Fresh(Step(w, ev).coord.link) && Connected(Step(w, ev))
  {
    hide InSession, Kept, Tracked, CM.PerformExchange, Respond, FlowsAfter, TraceOk, OutageOk, LinkOk, AnswerOf,
         CM.HandleFailure, TraceAfter, OutageAfter, CM.IsResetReply, CM.ChooseTx;
    LinkFacts(w.coord.link);
    if Connected(w) {
      ExchangeStage(w, ev);
    } else {
      ResetStage(w, ev);
    }
  }

  /** Events without a successful iteration; the tunnels may be active. */
  predicate AllFail(events: seq<Event>) {
    forall ev <- events :: ev.Loop? ==> !ev.outcome.Both?
  }

  /** How a failing iteration is counted: by what Send reported in a session, as a protocol failure outside. */
  function FailureOf(w: World, ev: Event): Failure
    requires ev.Loop?
  {
    if !Connected(w) || ev.outcome.Both? then ProtocolFailure
    else if ev.outcome.reported then TimeoutFailure
    else SendFailure
  }

  /** The failures of a stretch, in order. */
  function FailureWord(w: World, events: seq<Event>): seq<Failure> {
    if events == [] then
      []
    else
      var front, last := events[..|events| - 1], events[|events| - 1];
      FailureWord(w, front) + if last.Loop? then [FailureOf(RunFrom(w, front), last)] else []
  }

  predicate SameStreaks(l: Link, m: Link) {
    && l.disconnected == m.disconnected
    && l.sendStreak == m.sendStreak && l.timeoutStreak == m.timeoutStreak && l.pollFailCount == m.pollFailCount
  }

  /** One failing step, on the link: counted while the link is up, without effect on the streaks afterwards. */
  lemma FailingStep(w: World, ev: Event)
    requires Inv(w) && (ev.Loop? ==> !ev.outcome.Both?)
    ensures var l, m := w.coord.link, Step(w, ev).coord.link;
            if ev.Loop? && !l.disconnected then m == OnFailure(l, FailureOf(w, ev), ev.t.later) else SameStreaks(l, m)
    ensures Connected(Step(w, ev)) ==> Connected(w)
    ensures Connected(w) ==> (Connected(Step(w, ev)) <==> !Step(w, ev).coord.link.disconnected)
  {
    hide InSession, Kept, Tracked, CM.PerformExchange, Respond, FlowsAfter, TraceOk, OutageOk, LinkOk, AnswerOf,
         TraceAfter, OutageAfter, CM.IsResetReply, CM.ChooseTx, OverThreshold, Offer;
    LinkFacts(w.coord.link);
    if ev.Loop? && !CM.Sleeps(w.coord, ev.t) {
      if Connected(w) {
        ExchangeStage(w, ev);
      } else {
        ResetStage(w, ev);
      }
    }
  }

  /** OnFailure reads the streaks only, as far as streaks go. */
  lemma StreaksStep(l: Link, m: Link, f: Failure, t: nat, u: nat)
    requires SameStreaks(l, m)
    ensures SameStreaks(OnFailure(l, f, t), OnFailure(m, f, u))
  {}

  /**
   From every fresh world of every run: after any stretch of failing iterations, mixed with any tunnel
   activity, the link's streaks and its disconnected flag are those of the automaton on the stretch's word.
   */
  lemma {:induction false} StretchIsWord(w: World, events: seq<Event>)
    requires Inv(w) && Fresh(w.coord.link) && ClockOk(events) && AllFail(events)
    ensures SameStreaks(RunFrom(w, events).coord.link, AfterFailures(FailureWord(w, events), 0))
  {
    hide Step, Inv, OnFailure, FailureOf;
    if events == [] {
      FreshLink(w);
    } else {
      var front, last := events[..|events| - 1], events[|events| - 1];
      assert last in events;
      StretchIsWord(w, front);
      RunFromFacts(w, front);
      var v := RunFrom(w, front);
      FailingStep(v, last);
      if last.Loop? {
        var f := FailureOf(v, last);
        var word := FailureWord(w, front) + [f];
        assert word[..|word| - 1] == FailureWord(w, front);
        StreaksStep(v.coord.link, AfterFailures(FailureWord(w, front), 0), f, last.t.later, 0);
      } else {
        assert FailureWord(w, front) + [] == FailureWord(w, front);
      }
    }
  }

  lemma FreshLink(w: World)
    requires Inv(w) && Fresh(w.coord.link)
    ensures SameStreaks(w.coord.link, HEALTHY)
  {
    hide Kept, Tracked, Duplex, TraceOk, OutageOk;
  }

  /** The link is down after a failing stretch exactly when some prefix of its failures trips. */
  lemma StretchDisconnectsExactly(before: seq<Event>, stretch: seq<Event>)
    requires ClockOk(before) && ClockOk(stretch) && Fresh(Run(before).coord.link) && AllFail(stretch)
    ensures var word := FailureWord(Run(before), stretch);
            Run(before + stretch).coord.link.disconnected <==> exists k :: 0 <= k <= |word| && Trips(word[..k])
  {
    hide Step, Inv, Run, RunFrom, FailureWord, Trips;
    RunKeepsInv(before);
    RunSplits(before, stretch);
    StretchIsWord(Run(before), stretch);
    DisconnectExactly(FailureWord(Run(before), stretch), 0);
  }

  /** While a session lasts, its failures are the link's own. */
  lemma {:induction false} SessionWord(w: World, events: seq<Event>)
    requires Inv(w) && ClockOk(events) && AllFail(events)
    requires events != [] ==> Connected(RunFrom(w, events[..|events| - 1]))
    ensures ProtocolFailure !in FailureWord(w, events)
  {
    hide Step, Inv;
    if events != [] {
      var front, last := events[..|events| - 1], events[|events| - 1];
      if front != [] {
        var before := front[..|front| - 1];
        assert front[|front| - 1] in events;
        RunFromFacts(w, before);
        FailingStep(RunFrom(w, before), front[|front| - 1]);
      }
      SessionWord(w, front);
    }
  }

  ghost predicate EndsIn(word: seq<Failure>, n: nat, f: Failure) {
    |word| >= n && forall i :: |word| - n <= i < |word| ==> word[i] == f
  }

  /**
   What ends a session. After any success, a stretch of failing exchanges of the session drops the link at
   its last event exactly when that event makes it five send failures, or seven timeouts, in a row.
   */
  lemma SessionEndsExactly(before: seq<Event>, stretch: seq<Event>)
    requires ClockOk(before) && ClockOk(stretch) && Fresh(Run(before).coord.link) && AllFail(stretch)
    requires stretch != [] && Connected(Run(before + stretch[..|stretch| - 1]))
    ensures var word := FailureWord(Run(before), stretch);
            !Connected(Run(before + stretch)) <==> EndsIn(word, 5, SendFailure) || EndsIn(word, 7, TimeoutFailure)
  {
    hide Step, Inv, Run, Trips, OnFailure, FailureOf;
    var w, front, last := Run(before), stretch[..|stretch| - 1], stretch[|stretch| - 1];
    var word := FailureWord(w, stretch);
    assert last in stretch;
    RunKeepsInv(before);
    RunSplits(before, stretch);
    RunSplits(before, front);
    RunFromFacts(w, front);
    FailingStep(RunFrom(w, front), last);
    ConnectedLink(RunFrom(w, front));
    StretchIsWord(w, front);
    StretchIsWord(w, stretch);
    if last.Loop? {
      assert word[..|word| - 1] == FailureWord(w, front);
    } else {
      assert FailureWord(w, front) + [] == FailureWord(w, front);
    }
    TripsAtLast(word, 0);
    SessionWord(w, stretch);
    SendTimeoutTrips(word);
  }

  lemma ConnectedLink(w: World)
    requires Inv(w) && Connected(w)
    ensures !w.coord.link.disconnected
  {
    hide Kept, Tracked, Duplex, TraceOk, OutageOk;
  }
}
