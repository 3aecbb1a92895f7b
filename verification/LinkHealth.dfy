/** Failure streaks, disconnection and the retry backoff of the coordinator. */
module LinkHealth {
  import opened Bytes

  const DISCONNECT_FAILURE_THRESHOLD := 5
  const INITIAL_BACKOFF_US := 100000
  const MAX_BACKOFF_US := 1000000

  datatype Failure = SendFailure | TimeoutFailure | ProtocolFailure

  datatype Link = Link(
    disconnected: bool,
    resetRequired: bool,
    sendStreak: nat,
    timeoutStreak: nat,
    pollFailCount: nat,
    backoffUs: nat,
    nextRetryUs: nat)

  const NEW_LINK := Link(false, true, 0, 0, 0, INITIAL_BACKOFF_US, 0)
  const HEALTHY := NEW_LINK.(resetRequired := false)

  /** The streak counters after one more failure. */
  function Count(l: Link, f: Failure): Link {
    var send := if f.TimeoutFailure? then 0 else l.sendStreak + 1;
    var timeout := if f.SendFailure? then 0 else l.timeoutStreak + 1;
    l.(sendStreak := send, timeoutStreak := timeout, pollFailCount := send + timeout)
  }

  predicate OverThreshold(l: Link) {
    || l.sendStreak >= DISCONNECT_FAILURE_THRESHOLD
    || l.timeoutStreak >= DISCONNECT_FAILURE_THRESHOLD + 2
    || l.sendStreak + l.timeoutStreak >= DISCONNECT_FAILURE_THRESHOLD + 3
  }

  function OnFailure(l: Link, f: Failure, now: nat): Link {
    var counted := Count(l, f);
    if OverThreshold(counted) then
      counted.(disconnected := true, resetRequired := true, nextRetryUs := now + l.backoffUs)
    else
      counted
  }

  /** A reset attempt failed while disconnected. */
  function OnRetryFailed(l: Link, now: nat): Link {
    l.(nextRetryUs := now + l.backoffUs, backoffUs := Min(l.backoffUs * 2, MAX_BACKOFF_US))
  }

  /** An exchange succeeded. */
  function OnSuccess(l: Link): Link {
    HEALTHY.(resetRequired := l.resetRequired)
  }

  ghost predicate LinkOk(l: Link) {
    && (l.disconnected ==> l.resetRequired)
    && (!l.disconnected ==> l.backoffUs == INITIAL_BACKOFF_US && l.nextRetryUs == 0 && !OverThreshold(l))
    && l.pollFailCount == l.sendStreak + l.timeoutStreak <= 9
  }

  lemma NewLinkIsOk()
    ensures LinkOk(NEW_LINK)
  {}

  /** The combined streak never exceeds 9, and a link that has not disconnected keeps the initial backoff. */
  lemma LinkStepsKeepOk(l: Link, f: Failure, now: nat)
    requires LinkOk(l)
    ensures !l.disconnected ==> LinkOk(OnFailure(l, f, now))
    ensures l.disconnected ==> LinkOk(OnRetryFailed(l, now))
    ensures LinkOk(OnSuccess(l))
  {}

  // ---- The disconnect automaton over words of failures. ----

  /** The link after a word of consecutive failures; once disconnected, failures are no longer counted. */
  function AfterFailures(word: seq<Failure>, now: nat): Link {
    if word == [] then
      HEALTHY
    else
      var l := AfterFailures(word[..|word| - 1], now);
      if l.disconnected then l else OnFailure(l, word[|word| - 1], now)
  }

  /** The last n failures exist and none of them is `x`. */
  predicate TailAvoids(word: seq<Failure>, n: nat, x: Failure) {
    n <= |word| && forall i :: |word| - n <= i < |word| ==> word[i] != x
  }

  /** What trips the disconnect, read off the word alone. */
  ghost predicate Trips(word: seq<Failure>) {
    || TailAvoids(word, 5, TimeoutFailure)
    || TailAvoids(word, 7, SendFailure)
    || exists a :: 0 <= a <= 8 && TailAvoids(word, a, TimeoutFailure) && TailAvoids(word, 8 - a, SendFailure)
  }

  /** Every failure of the word was counted: the link was still connected before the last one. */
  predicate Counted(word: seq<Failure>, now: nat) {
    word == [] || !AfterFailures(word[..|word| - 1], now).disconnected
  }

  lemma {:induction false} StreaksAreTails(word: seq<Failure>, now: nat, n: nat)
    requires Counted(word, now)
    ensures AfterFailures(word, now).sendStreak >= n <==> TailAvoids(word, n, TimeoutFailure)
    ensures AfterFailures(word, now).timeoutStreak >= n <==> TailAvoids(word, n, SendFailure)
  {
    if word != [] {
      var front, last := word[..|word| - 1], word[|word| - 1];
      if n > 0 {
        StreaksAreTails(front, now, n - 1);
        TailStep(word, n, TimeoutFailure);
        TailStep(word, n, SendFailure);
      }
    }
  }

  lemma TailStep(word: seq<Failure>, n: nat, x: Failure)
    requires word != [] && n > 0
    ensures TailAvoids(word, n, x) <==> word[|word| - 1] != x && TailAvoids(word[..|word| - 1], n - 1, x)
  {
    var front := word[..|word| - 1];
    if word[|word| - 1] != x && TailAvoids(front, n - 1, x) {
      forall i | |word| - n <= i < |word|
        ensures word[i] != x
      {
        assert i < |front| ==> word[i] == front[i];
      }
    }
  }

  lemma OverThresholdIsTrips(word: seq<Failure>, now: nat)
    requires Counted(word, now)
    ensures OverThreshold(AfterFailures(word, now)) <==> Trips(word)
  {
    var l := AfterFailures(word, now);
    StreaksAreTails(word, now, 5);
    StreaksAreTails(word, now, 7);
    forall n: nat
      ensures l.sendStreak >= n <==> TailAvoids(word, n, TimeoutFailure)
      ensures l.timeoutStreak >= n <==> TailAvoids(word, n, SendFailure)
    {
      StreaksAreTails(word, now, n);
    }
    if l.sendStreak + l.timeoutStreak >= 8 && l.sendStreak <= 8 {
      assert TailAvoids(word, l.sendStreak, TimeoutFailure) && TailAvoids(word, 8 - l.sendStreak, SendFailure);
    }
  }

  /** A word whose last failure was counted disconnects exactly when it trips. */
  lemma TripsAtLast(word: seq<Failure>, now: nat)
    requires Counted(word, now)
    ensures AfterFailures(word, now).disconnected <==> Trips(word)
  {
    OverThresholdIsTrips(word, now);
  }

  /** Any word of failures: the link is disconnected exactly when some prefix trips. */
  lemma {:induction false} DisconnectExactly(word: seq<Failure>, now: nat)
    ensures AfterFailures(word, now).disconnected <==> exists k :: 0 <= k <= |word| && Trips(word[..k])
  {
    if word == [] {
      assert word[..0] == [];
    } else {
      var front := word[..|word| - 1];
      DisconnectExactly(front, now);
      assert forall k :: 0 <= k <= |front| ==> word[..k] == front[..k];
      assert word[..|word|] == word;
      if !AfterFailures(front, now).disconnected {
        TripsAtLast(word, now);
      }
    }
  }

  /** Without protocol failures, a trip is a run of five sends or seven timeouts, and nothing else. */
  lemma SendTimeoutTrips(word: seq<Failure>)
    requires ProtocolFailure !in word
    ensures Trips(word) <==>
              || (|word| >= 5 && forall i :: |word| - 5 <= i < |word| ==> word[i] == SendFailure)
              || (|word| >= 7 && forall i :: |word| - 7 <= i < |word| ==> word[i] == TimeoutFailure)
  {
    forall i | 0 <= i < |word|
      ensures word[i] == SendFailure || word[i] == TimeoutFailure
    {
      assert word[i] in word;
    }
    forall a | 0 <= a <= 8 && TailAvoids(word, a, TimeoutFailure) && TailAvoids(word, 8 - a, SendFailure)
      ensures a == 0 || a == 8
    {
      var last := word[|word| - 1];
    }
  }

  /** Four protocol failures in a row disconnect by the fourth, whatever came before. */
  lemma FourProtocolFailuresDisconnect(word: seq<Failure>, now: nat)
    ensures AfterFailures(word + [ProtocolFailure, ProtocolFailure, ProtocolFailure, ProtocolFailure], now).disconnected
  {
    var w := word + [ProtocolFailure, ProtocolFailure, ProtocolFailure, ProtocolFailure];
    assert TailAvoids(w, 4, TimeoutFailure) && TailAvoids(w, 8 - 4, SendFailure);
    assert Trips(w);
    assert w[..|w|] == w;
    DisconnectExactly(w, now);
  }

  /** Alternating send and timeout failures never disconnect, however long they go on. */
  lemma AlternatingNeverDisconnects(word: seq<Failure>, now: nat)
    requires forall i :: 0 <= i < |word| ==> word[i] == if i % 2 == 0 then SendFailure else TimeoutFailure
    ensures !AfterFailures(word, now).disconnected
  {
    forall k | 0 <= k <= |word|
      ensures !Trips(word[..k])
    {
      assert ProtocolFailure !in word[..k];
      SendTimeoutTrips(word[..k]);
      if k >= 2 {
        assert word[..k][k - 1] != word[..k][k - 2];
      }
    }
    DisconnectExactly(word, now);
  }

  // ---- The backoff schedule. ----

  function Pow2(n: nat): nat {
    if n == 0 then 1 else 2 * Pow2(n - 1)
  }

  /** The stored backoff after k failed attempts of an outage. */
  function StoredBackoff(k: nat): nat {
    Min(INITIAL_BACKOFF_US * Pow2(k), MAX_BACKOFF_US)
  }

  /** The wait imposed before attempt i of an outage: 100, 100, 200, 400, 800, 1000, 1000, ... ms. */
  function WaitBefore(i: nat): nat {
    if i == 0 then INITIAL_BACKOFF_US else StoredBackoff(i - 1)
  }

  /** A step of an outage: `begin` is the clock at the loop head, `end` the clock when it was over. */
  datatype Attempt = Attempt(begin: nat, end: nat)

  /**
   An outage so far: the disconnect itself, then one entry per failed attempt. Attempts
   keep the schedule, and the link holds what the schedule says.
   */
  ghost predicate OutageOk(l: Link, outage: seq<Attempt>) {
    && outage != []
    && l.backoffUs == StoredBackoff(|outage| - 1)
    && l.nextRetryUs == outage[|outage| - 1].end + WaitBefore(|outage| - 1)
    && (forall i :: 0 <= i < |outage| ==> outage[i].begin <= outage[i].end)
    && (forall i :: 0 < i < |outage| ==> outage[i].begin >= outage[i - 1].end + WaitBefore(i - 1))
  }

  lemma OutageBegins(l: Link, f: Failure, now: nat, later: nat)
    requires LinkOk(l) && !l.disconnected && now <= later
    ensures OnFailure(l, f, later).disconnected ==> OutageOk(OnFailure(l, f, later), [Attempt(now, later)])
  {}

  /** A failure while the link is up disconnects exactly when a streak is over its threshold. */
  lemma FailureEffect(l: Link, f: Failure, now: nat, later: nat)
    requires LinkOk(l) && !l.disconnected && now <= later
    ensures LinkOk(OnFailure(l, f, later))
    ensures OnFailure(l, f, later).disconnected <==> OverThreshold(Count(l, f))
    ensures OnFailure(l, f, later).resetRequired <==> l.resetRequired || OverThreshold(Count(l, f))
    ensures OnFailure(l, f, later).disconnected ==> OutageOk(OnFailure(l, f, later), [Attempt(now, later)])
  {
    hide OutageOk;
    OutageBegins(l, f, now, later);
  }

  lemma OutageContinues(l: Link, outage: seq<Attempt>, now: nat, later: nat)
    requires OutageOk(l, outage)
    requires l.nextRetryUs <= now <= later
    ensures OutageOk(OnRetryFailed(l, later), outage + [Attempt(now, later)])
  {
    assert Pow2(|outage|) == 2 * Pow2(|outage| - 1);
  }

  /** The time the schedule takes up to attempt n. */
  function Elapsed(n: nat): nat {
    if n == 0 then 0 else Elapsed(n - 1) + WaitBefore(n - 1)
  }

  /** In any stretch of an outage: attempt n cannot begin before the waits since the end of step m have elapsed. */
  lemma {:induction false} AttemptsAreSpaced(l: Link, outage: seq<Attempt>, m: nat, n: nat)
    requires OutageOk(l, outage) && m < n < |outage|
    ensures outage[n].begin >= outage[m].end + Elapsed(n) - Elapsed(m)
  {
    if m < n - 1 {
      AttemptsAreSpaced(l, outage, m, n - 1);
    }
  }

  /** So attempt n of an outage cannot begin before the schedule has elapsed. */
  lemma {:induction false} AttemptsAreBounded(l: Link, outage: seq<Attempt>, n: nat)
    requires OutageOk(l, outage)
    requires n < |outage|
    ensures outage[n].begin >= (if n == 0 then outage[0].begin else outage[0].end + Elapsed(n))
    ensures n < 6 || outage[n].begin >= outage[0].end + 1600000 + 1000000 * (n - 5)
  {
    if n > 0 {
      AttemptsAreBounded(l, outage, n - 1);
      ElapsedClosedForm(n);
    }
  }

  lemma {:induction false} ElapsedClosedForm(n: nat)
    ensures n >= 5 ==> Pow2(n - 1) >= 16
    ensures n >= 5 ==> Elapsed(n) == 1600000 + 1000000 * (n - 5)
  {
    if n == 5 {
      assert Pow2(0) == 1 && Pow2(1) == 2 && Pow2(2) == 4 && Pow2(3) == 8 && Pow2(4) == 16;
      assert Elapsed(1) == 100000 && Elapsed(2) == 200000 && Elapsed(3) == 400000 && Elapsed(4) == 800000;
    } else if n > 5 {
      ElapsedClosedForm(n - 1);
    }
  }
}
