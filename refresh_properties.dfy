/** Properties of the coordinator's refresh policy: one refresh at a time,
    and whole runs of refreshes driven by the host's timer. */
module RefreshProperties {
  import opened Wrappers
  import opened Api
  import opened Integration

  // ---------------------------------------------------------------- one refresh

  /** Shutdown, or a timer firing while the host stops: nothing changes,
      nothing is requested, scheduled or notified. */
  lemma EarlyExitChangesNothing(s: CoordinatorState, c: Cycle)
    requires !Proceeds(c)
    ensures RefreshStep(s, c) == (s, Effects(false, false, false, false))
  {
  }

  /** Both kinds of failure keep the last reading and clear the success
      flag; only an unexpected error is recorded as the last exception. */
  lemma FailedPollKeepsData(s: CoordinatorState, c: Cycle)
    requires Proceeds(c) && c.output.Failure?
    ensures var s' := RefreshStep(s, c).0;
      && s'.data == s.data
      && !s'.lastUpdateSuccess
      && s'.lastException == if c.output.error.ResponseError? then Some(c.output.error) else s.lastException
  {
  }

  /** A successful poll replaces the reading and sets the success flag,
      and leaves the last exception as it was. */
  lemma SuccessfulPollReplacesData(s: CoordinatorState, c: Cycle)
    requires PollSucceeds(c)
    ensures var s' := RefreshStep(s, c).0;
      && s'.data == Some(DecodeOutputData(c.output.value))
      && s'.lastUpdateSuccess
      && s'.lastException == s.lastException
  {
  }

  /** The next refresh is scheduled exactly when this one went ahead, there
      are listeners and the host is not stopping, whatever the outcome. */
  lemma RescheduleRule(s: CoordinatorState, c: Cycle)
    ensures RefreshStep(s, c).1.rescheduled <==> Proceeds(c) && c.hasListeners && !c.isStopping
  {
  }

  /** A failure right after a failure notifies nobody. */
  lemma RepeatedFailureIsSilent(s: CoordinatorState, c: Cycle)
    requires !s.lastUpdateSuccess && c.output.Failure?
    ensures !RefreshStep(s, c).1.notified
  {
  }

  /** A success right after a failure always notifies, whether or not the
      reading changed and whether or not every cycle notifies. */
  lemma RecoveryNotifies(s: CoordinatorState, c: Cycle)
    requires !s.lastUpdateSuccess && PollSucceeds(c)
    ensures RefreshStep(s, c).1.notified
  {
  }

  /** With every cycle notifying (the coordinator's setting), listeners hear
      of each refresh that went ahead except a failure after a failure. */
  lemma AlwaysUpdateNotifies(s: CoordinatorState, c: Cycle)
    requires s.alwaysUpdate
    ensures RefreshStep(s, c).1.notified <==> Proceeds(c) && (s.lastUpdateSuccess || c.output.Success?)
  {
  }

  // ---------------------------------------------------------------- runs of refreshes

  /** The state after a run of refreshes. */
  function Run(s: CoordinatorState, cycles: seq<Cycle>): CoordinatorState
    decreases |cycles|
  {
    if cycles == [] then s else Run(RefreshStep(s, cycles[0]).0, cycles[1..])
  }

  /** The effects of each refresh of a run, one per cycle. */
  function Trace(s: CoordinatorState, cycles: seq<Cycle>): (t: seq<Effects>)
    ensures |t| == |cycles|
    decreases |cycles|
  {
    if cycles == [] then []
    else [RefreshStep(s, cycles[0]).1] + Trace(RefreshStep(s, cycles[0]).0, cycles[1..])
  }

  lemma {:induction false} RunAppend(s: CoordinatorState, a: seq<Cycle>, b: seq<Cycle>)
    ensures Run(s, a + b) == Run(Run(s, a), b)
    decreases |a|
  {
    if a == [] {
      assert a + b == b;
    } else {
      assert (a + b)[1..] == a[1..] + b;
      RunAppend(RefreshStep(s, a[0]).0, a[1..], b);
    }
  }

  /** The effects of refresh j are those of one refresh from the state the
      earlier cycles left. */
  lemma {:induction false} TraceAt(s: CoordinatorState, cycles: seq<Cycle>, j: int)
    requires 0 <= j < |cycles|
    ensures Trace(s, cycles)[j] == RefreshStep(Run(s, cycles[..j]), cycles[j]).1
    decreases j
  {
    if j > 0 {
      assert cycles[..j][1..] == cycles[1..][..j - 1];
      TraceAt(RefreshStep(s, cycles[0]).0, cycles[1..], j - 1);
    }
  }

  lemma {:induction false} SkippedCyclesChangeNothing(s: CoordinatorState, cycles: seq<Cycle>)
    requires forall k | 0 <= k < |cycles| :: !Proceeds(cycles[k])
    ensures Run(s, cycles) == s
    decreases |cycles|
  {
    if cycles != [] {
      SkippedCyclesChangeNothing(s, cycles[1..]);
    }
  }

  /** The reading survives any run without a successful poll. */
  lemma {:induction false} FailedPollsKeepData(s: CoordinatorState, cycles: seq<Cycle>)
    requires forall k | 0 <= k < |cycles| :: !PollSucceeds(cycles[k])
    ensures Run(s, cycles).data == s.data
    decreases |cycles|
  {
    if cycles != [] {
      FailedPollsKeepData(RefreshStep(s, cycles[0]).0, cycles[1..]);
    }
  }

  /** After a run, the reading is that of the last successful poll. */
  lemma {:induction false} DataIsLastSuccessfulPayload(s: CoordinatorState, cycles: seq<Cycle>, i: int)
    requires 0 <= i < |cycles| && PollSucceeds(cycles[i])
    requires forall k | i < k < |cycles| :: !PollSucceeds(cycles[k])
    ensures Run(s, cycles).data == Some(DecodeOutputData(cycles[i].output.value))
    decreases i
  {
    var s1 := RefreshStep(s, cycles[0]).0;
    if i == 0 {
      FailedPollsKeepData(s1, cycles[1..]);
    } else {
      DataIsLastSuccessfulPayload(s1, cycles[1..], i - 1);
    }
  }

  /** A cycle in which the device information was fetched successfully. */
  predicate InfoFetched(c: Cycle) {
    Proceeds(c) && c.info.Success?
  }

  /** The device information is requested by every refresh that goes ahead
      until one such request succeeds, and by no refresh after that (nor by
      any refresh, if it was known at the start). */
  lemma {:induction false} InfoRequestedUntilFirstSuccess(s: CoordinatorState, cycles: seq<Cycle>, i: int)
    requires 0 <= i < |cycles|
    ensures Trace(s, cycles)[i].infoRequested <==>
      Proceeds(cycles[i]) && s.deviceInfo.None? && forall k | 0 <= k < i :: !InfoFetched(cycles[k])
    decreases i
  {
    if i > 0 {
      var s1 := RefreshStep(s, cycles[0]).0;
      InfoRequestedUntilFirstSuccess(s1, cycles[1..], i - 1);
      assert s1.deviceInfo.None? <==> s.deviceInfo.None? && !InfoFetched(cycles[0]);
      assert (forall k | 0 <= k < i :: !InfoFetched(cycles[k])) <==>
        !InfoFetched(cycles[0]) && forall k | 0 <= k < i - 1 :: !InfoFetched(cycles[1..][k]);
    }
  }

  /** Once fetched successfully, the device information is never requested
      again. */
  lemma NoInfoRequestAfterFetch(s: CoordinatorState, cycles: seq<Cycle>, i: int, j: int)
    requires 0 <= i < j < |cycles| && InfoFetched(cycles[i])
    ensures !Trace(s, cycles)[j].infoRequested
  {
    InfoRequestedUntilFirstSuccess(s, cycles, j);
  }

  /** Over any run, at most one device-information request succeeds. */
  lemma AtMostOneInfoFetch(s: CoordinatorState, cycles: seq<Cycle>, i: int, j: int)
    requires 0 <= i < j < |cycles|
    requires Trace(s, cycles)[i].infoRequested && cycles[i].info.Success?
    ensures !(Trace(s, cycles)[j].infoRequested && cycles[j].info.Success?)
  {
    InfoRequestedUntilFirstSuccess(s, cycles, i);
    NoInfoRequestAfterFetch(s, cycles, i, j);
  }

  /** Known device information is kept; unknown information stays unknown
      through a run without a successful fetch. */
  lemma {:induction false} DeviceInfoKept(s: CoordinatorState, cycles: seq<Cycle>)
    requires s.deviceInfo.Some? || forall k | 0 <= k < |cycles| :: !InfoFetched(cycles[k])
    ensures Run(s, cycles).deviceInfo == s.deviceInfo
    decreases |cycles|
  {
    if cycles != [] {
      DeviceInfoKept(RefreshStep(s, cycles[0]).0, cycles[1..]);
    }
  }

  /** The device information ends up as the answer to its first successful
      request. */
  lemma {:induction false} DeviceInfoIsFirstFetch(s: CoordinatorState, cycles: seq<Cycle>, i: int)
    requires s.deviceInfo.None?
    requires 0 <= i < |cycles| && InfoFetched(cycles[i])
    requires forall k | 0 <= k < i :: !InfoFetched(cycles[k])
    ensures Run(s, cycles).deviceInfo == Some(cycles[i].info.value)
    decreases i
  {
    var s1 := RefreshStep(s, cycles[0]).0;
    if i == 0 {
      DeviceInfoKept(s1, cycles[1..]);
    } else {
      DeviceInfoIsFirstFetch(s1, cycles[1..], i - 1);
    }
  }

  /** The success flag a refresh starts from is the outcome of the last
      refresh that went ahead before it. */
  lemma FlagFromLastPoll(s: CoordinatorState, cycles: seq<Cycle>, i: int, j: int)
    requires 0 <= i < j <= |cycles| && Proceeds(cycles[i])
    requires forall k | i < k < j :: !Proceeds(cycles[k])
    ensures Run(s, cycles[..j]).lastUpdateSuccess == cycles[i].output.Success?
  {
    assert cycles[..j] == cycles[..i] + [cycles[i]] + cycles[i + 1..j];
    RunAppend(s, cycles[..i] + [cycles[i]], cycles[i + 1..j]);
    RunAppend(s, cycles[..i], [cycles[i]]);
    var before := Run(s, cycles[..i]);
    assert Run(before, [cycles[i]]) == Run(RefreshStep(before, cycles[i]).0, []);
    SkippedCyclesChangeNothing(Run(s, cycles[..i] + [cycles[i]]), cycles[i + 1..j]);
  }

  /** Two polls in a row that fail: the second notifies nobody. */
  lemma RepeatedFailureIsSilentInRun(s: CoordinatorState, cycles: seq<Cycle>, i: int, j: int)
    requires 0 <= i < j < |cycles|
    requires Proceeds(cycles[i]) && cycles[i].output.Failure? && cycles[j].output.Failure?
    requires forall k | i < k < j :: !Proceeds(cycles[k])
    ensures !Trace(s, cycles)[j].notified
  {
    FlagFromLastPoll(s, cycles, i, j);
    TraceAt(s, cycles, j);
  }

  /** A failed poll followed by a successful one: the second notifies. */
  lemma RecoveryNotifiesInRun(s: CoordinatorState, cycles: seq<Cycle>, i: int, j: int)
    requires 0 <= i < j < |cycles|
    requires Proceeds(cycles[i]) && cycles[i].output.Failure? && PollSucceeds(cycles[j])
    requires forall k | i < k < j :: !Proceeds(cycles[k])
    ensures Trace(s, cycles)[j].notified
  {
    FlagFromLastPoll(s, cycles, i, j);
    TraceAt(s, cycles, j);
  }
}
