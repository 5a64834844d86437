/**
 Clients of `Heading.HeadingRequest` that drive one request through a
 lifecycle and state what is observed, using only the request's contracts.
 They record what the code does: delivery is not gated by state, and an
 expired request can be started, paused and dispatched to again.
 */
module HeadingScenarios {
  import opened Heading

  /** Two callbacks, start, dispatch, pause, dispatch, start, dispatch, stop. */
  method Lifecycle(id: RequestID, first: CallbackId, second: CallbackId,
                   a: HeadingReading, b: HeadingReading, c: HeadingReading)
    returns (trace: seq<Effect>, active: set<RequestID>, final: RequestState)
    ensures trace == [Invoked(first, Success(a), Running), Invoked(second, Success(a), Running),
                      Invoked(first, Success(b), Paused), Invoked(second, Success(b), Paused),
                      Invoked(first, Success(c), Running), Invoked(second, Success(c), Running),
                      Invoked(first, Failure(Cancelled), Expired),
                      Invoked(second, Failure(Cancelled), Expired),
                      Removed(id)]
    ensures active == {}
    ensures final == Expired
  {
    var log := new EffectLog();
    var manager := new Manager({id});
    var request := new HeadingRequest(id, None, None);
    request.callbacks := [first, second];
    FanoutSnoc([first], second, Success(a), Running);
    FanoutSnoc([first], second, Success(b), Paused);
    FanoutSnoc([first], second, Success(c), Running);
    FanoutSnoc([first], second, Failure(Cancelled), Expired);
    assert [first] + [second] == [first, second];
    request.Start();
    request.Dispatch(Success(a), log);
    request.Pause();
    request.Dispatch(Success(b), log);
    request.Start();
    request.Dispatch(Success(c), log);
    request.Stop(log, manager);
    trace, active, final := log.entries, manager.headingRequests, request.state;
  }

  /** A request stopped without removal stays registered, and a terminal
      failure with a provider reason reaches every callback. */
  method StopKeepingRegistration(id: RequestID, cbs: seq<CallbackId>, code: nat)
    returns (trace: seq<Effect>, active: set<RequestID>)
    ensures trace == Fanout(cbs, Failure(Other(code)), Expired)
    ensures |trace| == |cbs|
    ensures active == {id}
  {
    var log := new EffectLog();
    var manager := new Manager({id});
    var request := new HeadingRequest(id, None, None);
    request.callbacks := cbs;
    request.StopWithReason(Other(code), false, log, manager);
    trace, active := log.entries, manager.headingRequests;
  }

  /** After `stop()`, `start()` and `pause()` still change the state, and a
      dispatch still reaches every callback. */
  method ExpiredIsNotTerminal(id: RequestID, cbs: seq<CallbackId>, h: HeadingReading)
    returns (afterStart: RequestState, afterPause: RequestState, delivered: seq<Effect>)
    ensures afterStart == Running
    ensures afterPause == Paused
    ensures delivered == Fanout(cbs, Success(h), Paused)
    ensures Recipients(delivered) == cbs
  {
    var log := new EffectLog();
    var manager := new Manager({id});
    var request := new HeadingRequest(id, None, None);
    request.callbacks := cbs;
    request.Stop(log, manager);
    request.Start();
    afterStart := request.state;
    request.Pause();
    afterPause := request.state;
    var before := log.entries;
    request.Dispatch(Success(h), log);
    assert log.entries[|before|..] == Fanout(cbs, Success(h), Paused);
    delivered := log.entries[|before|..];
    RecipientsOfFanout(cbs, Success(h), Paused);
  }

  /** An idle request with filters set delivers every heading unfiltered. */
  method IdleDispatchIsUnfiltered(id: RequestID, cbs: seq<CallbackId>, h: HeadingReading,
                                  accuracy: real, minInterval: real)
    returns (delivered: seq<Effect>, state: RequestState)
    ensures delivered == Fanout(cbs, Success(h), Idle)
    ensures state == Idle
    ensures forall e :: e in delivered ==> e.Invoked? && e.data == Success(h)
  {
    var log := new EffectLog();
    var request := new HeadingRequest(id, Some(accuracy), Some(minInterval));
    request.callbacks := cbs;
    request.Dispatch(Success(h), log);
    delivered, state := log.entries, request.state;
    FanoutCarries(cbs, Success(h), Idle);
  }

  /** Identity: same id means equal and equally hashed even with different
      filters and states; equal filters with different ids are not equal. */
  method Identity(id: RequestID, other: RequestID, accuracy: real, hasher: Hasher)
    returns (sameIdEqual: bool, sameIdHashesAgree: bool, sameFiltersEqual: bool)
    requires id != other
    ensures sameIdEqual && sameIdHashesAgree && !sameFiltersEqual
  {
    var r1 := new HeadingRequest(id, Some(accuracy), None);
    var r2 := new HeadingRequest(id, None, Some(accuracy));
    r2.callbacks := [0];
    r2.Start();
    var r3 := new HeadingRequest(other, Some(accuracy), None);
    sameIdEqual := HeadingRequest.Equal(r1, r2);
    EqualRequestsHashEqually(r1, r2, hasher);
    sameIdHashesAgree := r1.HashInto(hasher) == r2.HashInto(hasher);
    sameFiltersEqual := HeadingRequest.Equal(r1, r3);
  }
}
