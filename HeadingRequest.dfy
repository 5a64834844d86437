/**
 A model of SwiftLocation's `HeadingRequest`: a subscription to compass
 heading updates. A request has an identity, a lifecycle state, two stored
 (and otherwise unused) filter values and an ordered list of callbacks; it
 fans every dispatched value out to all of its callbacks and, when stopped,
 delivers one terminal failure and optionally asks the location manager to
 forget it.

 Closures are modelled by handles: calling one appends an `Invoked` entry to
 an `EffectLog`, and the manager's removal of a request appends a `Removed`
 entry to the same log, so the order of observable effects is explicit.
 */
module Heading {

  datatype Option<T> = None | Some(value: T)

  /** Identifier of a request (a UUID string in SwiftLocation). */
  type RequestID = string

  /** Handle standing for one registered callback closure. */
  type CallbackId = nat

  /** Opaque stand-in for a CoreLocation heading reading. */
  datatype HeadingReading = HeadingReading(token: nat)

  /** Failure reasons. Only `cancelled` is produced by the request itself;
      every other reason of the location manager is carried opaquely. */
  datatype ErrorReason = Cancelled | Other(code: nat)

  /** What a callback receives: a heading or a failure reason. */
  datatype Data = Success(heading: HeadingReading) | Failure(reason: ErrorReason)

  datatype RequestState = Idle | Running | Paused | Expired

  /** Opaque stand-in for the shared timeout mode; never set on a heading request. */
  datatype TimeoutMode = TimeoutMode(token: nat)

  /** One observable effect: a callback invoked with a value while the request
      was in state `seen`, or the manager dropping a request from its registry. */
  datatype Effect =
    | Invoked(callback: CallbackId, data: Data, seen: RequestState)
    | Removed(request: RequestID)

  /** The effects of calling every callback of `cbs`, in list order, with `data`. */
  function Fanout(cbs: seq<CallbackId>, data: Data, seen: RequestState): (r: seq<Effect>)
    ensures |r| == |cbs|
  {
    if cbs == [] then [] else [Invoked(cbs[0], data, seen)] + Fanout(cbs[1..], data, seen)
  }

  /** The callbacks invoked in a sequence of effects, in order. */
  function Recipients(effects: seq<Effect>): (r: seq<CallbackId>)
    ensures |r| <= |effects|
  {
    if effects == [] then []
    else match effects[0]
      case Invoked(cb, _, _) => [cb] + Recipients(effects[1..])
      case Removed(_) => Recipients(effects[1..])
  }

  /** The i-th effect of a fan-out is the i-th callback receiving the value. */
  lemma {:induction false} FanoutAt(cbs: seq<CallbackId>, data: Data, seen: RequestState, i: nat)
    requires i < |cbs|
    ensures Fanout(cbs, data, seen)[i] == Invoked(cbs[i], data, seen)
  {
    if i > 0 {
      FanoutAt(cbs[1..], data, seen, i - 1);
    }
  }

  /** Fanning out to one more callback appends exactly one invocation at the end. */
  lemma {:induction false} FanoutSnoc(cbs: seq<CallbackId>, cb: CallbackId, data: Data, seen: RequestState)
    ensures Fanout(cbs + [cb], data, seen) == Fanout(cbs, data, seen) + [Invoked(cb, data, seen)]
  {
    if cbs != [] {
      assert (cbs + [cb])[1..] == cbs[1..] + [cb];
      FanoutSnoc(cbs[1..], cb, data, seen);
    }
  }

  /** A fan-out invokes exactly the registered callbacks, each registration
      once, in list order. */
  lemma {:induction false} RecipientsOfFanout(cbs: seq<CallbackId>, data: Data, seen: RequestState)
    ensures Recipients(Fanout(cbs, data, seen)) == cbs
    ensures multiset(Recipients(Fanout(cbs, data, seen))) == multiset(cbs)
  {
    if cbs != [] {
      RecipientsOfFanout(cbs[1..], data, seen);
      assert [cbs[0]] + cbs[1..] == cbs;
    }
  }

  /** Every effect of a fan-out carries the dispatched value and the state the
      request was in, whatever that state is: delivery is not gated by state. */
  lemma {:induction false} FanoutCarries(cbs: seq<CallbackId>, data: Data, seen: RequestState)
    ensures forall e :: e in Fanout(cbs, data, seen) ==> e.Invoked? && e.data == data && e.seen == seen
  {
    if cbs != [] {
      FanoutCarries(cbs[1..], data, seen);
    }
  }

  /** A fan-out is empty exactly when there are no callbacks. */
  lemma FanoutEmpty(cbs: seq<CallbackId>, data: Data, seen: RequestState)
    ensures Fanout(cbs, data, seen) == [] <==> cbs == []
  {
  }

  /** Hashing state: the sequence of identifiers combined into it. */
  datatype Hasher = Hasher(combined: seq<RequestID>)

  /** The observable trace of callback invocations and registry removals. */
  class EffectLog {
    var entries: seq<Effect>

    constructor ()
      ensures entries == []
    {
      entries := [];
    }

    /** Calls the closure behind `callback` with `data`. */
    method Invoke(callback: CallbackId, data: Data, seen: RequestState)
      modifies this
      ensures entries == old(entries) + [Invoked(callback, data, seen)]
    {
      entries := entries + [Invoked(callback, data, seen)];
    }
  }

  /** The part of the location manager a heading request talks to: the
      collection of active heading requests (keyed, like SwiftLocation's hashable
      requests, by identifier). */
  class Manager {
    var headingRequests: set<RequestID>

    constructor (active: set<RequestID>)
      ensures headingRequests == active
    {
      headingRequests := active;
    }

    /** Forgets `request`; a no-op on the registry when it is not registered. */
    method RemoveHeadingRequest(request: HeadingRequest, log: EffectLog)
      modifies this, log
      ensures headingRequests == old(headingRequests) - {request.id}
      ensures log.entries == old(log.entries) + [Removed(request.id)]
    {
      headingRequests := headingRequests - {request.id};
      log.entries := log.entries + [Removed(request.id)];
    }
  }

  class HeadingRequest {
    /** Unique identifier; assigned by the constructor and written by no method. */
    var id: RequestID
    /** Not applicable to heading requests: always `None`. */
    var timeout: Option<TimeoutMode>
    var state: RequestState
    /** Accuracy filter in degrees; stored only. */
    var accuracy: Option<real>
    /** Minimum interval between headings; stored only. */
    var minInterval: Option<real>
    /** Registered callbacks, in registration order. */
    var callbacks: seq<CallbackId>

    /** A new request is idle, has no timeout and no callbacks, and keeps the
        filters it is given unchanged. */
    constructor (id: RequestID, accuracy: Option<real>, minInterval: Option<real>)
      ensures this.id == id && this.accuracy == accuracy && this.minInterval == minInterval
      ensures timeout == None && state == Idle && callbacks == []
    {
      this.id := id;
      this.timeout := None;
      this.state := Idle;
      this.accuracy := accuracy;
      this.minInterval := minInterval;
      this.callbacks := [];
    }

    /** Cancels the request: the same as stopping with `Cancelled` and removal. */
    method Stop(log: EffectLog, manager: Manager)
      modifies this`state, log, manager
      ensures state == Expired
      ensures log.entries == old(log.entries) + Fanout(callbacks, Failure(Cancelled), Expired) + [Removed(id)]
      ensures manager.headingRequests == old(manager.headingRequests) - {id}
    {
      StopWithReason(Cancelled, true, log, manager);
    }

    /** Sets the state to running, whatever it was (expired included). */
    method Start()
      modifies this`state
      ensures state == Running
    {
      state := Running;
    }

    /** Sets the state to paused, whatever it was (expired included). */
    method Pause()
      modifies this`state
      ensures state == Paused
    {
      state := Paused;
    }

    /** Swift's `hash(into:)`: feeds the identifier, and only it, to the hasher. */
    function HashInto(hasher: Hasher): (r: Hasher)
      reads this
      ensures r.combined == hasher.combined + [id]
    {
      Hasher(hasher.combined + [id])
    }

    /** Swift's `==`: requests are equal exactly when their identifiers are. */
    static function Equal(lhs: HeadingRequest, rhs: HeadingRequest): (r: bool)
      reads lhs, rhs
      ensures r <==> lhs.id == rhs.id
    {
      lhs.id == rhs.id
    }

    /** Marks the request expired, then delivers `Failure(reason)` to every
        callback; when `remove` holds, the manager forgets the request after
        that delivery (SwiftLocation's `defer`). */
    method StopWithReason(reason: ErrorReason := Cancelled, remove: bool, log: EffectLog, manager: Manager)
      modifies this`state, log, manager
      ensures state == Expired
      ensures log.entries == old(log.entries) + Fanout(callbacks, Failure(reason), Expired)
                             + (if remove then [Removed(id)] else [])
      ensures manager.headingRequests
              == if remove then old(manager.headingRequests) - {id} else old(manager.headingRequests)
    {
      state := Expired;
      Dispatch(Failure(reason), log);
      if remove {
        manager.RemoveHeadingRequest(this, log);
      }
    }

    /** Calls every registered callback once with `data`, in list order,
        whatever the state and the filters; changes nothing in the request. */
    method Dispatch(data: Data, log: EffectLog)
      modifies log
      ensures unchanged(this)
      ensures log.entries == old(log.entries) + Fanout(callbacks, data, state)
    {
      var list := callbacks;
      var i := 0;
      while i < |list|
        invariant i <= |list|
        invariant log.entries == old(log.entries) + Fanout(list[..i], data, state)
      {
        FanoutSnoc(list[..i], list[i], data, state);
        assert list[..i + 1] == list[..i] + [list[i]];
        log.Invoke(list[i], data, state);
        i := i + 1;
      }
      assert list[..i] == list;
    }
  }

  /** Equality of requests is an equivalence relation. */
  lemma EqualIsEquivalence(a: HeadingRequest, b: HeadingRequest, c: HeadingRequest)
    ensures HeadingRequest.Equal(a, a)
    ensures HeadingRequest.Equal(a, b) == HeadingRequest.Equal(b, a)
    ensures HeadingRequest.Equal(a, b) && HeadingRequest.Equal(b, c) ==> HeadingRequest.Equal(a, c)
  {
  }

  /** Equal requests hash equally, whatever their state, filters and callbacks. */
  lemma EqualRequestsHashEqually(a: HeadingRequest, b: HeadingRequest, hasher: Hasher)
    requires HeadingRequest.Equal(a, b)
    ensures a.HashInto(hasher) == b.HashInto(hasher)
  {
  }
}
