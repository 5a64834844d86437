# HeadingRequest — a verified model

This project models SwiftLocation's `HeadingRequest`, the object a client
holds while subscribed to compass heading updates. A request has an
identifier fixed when it is created, a lifecycle state (`idle`, `running`,
`paused`, `expired`), two stored filter values (`accuracy`, `minInterval`),
an always-`nil` timeout and an ordered list of callbacks. `dispatch` calls
every callback with the value it is given. `stop(reason:remove:)` marks the
request expired, sends one failure to every callback and, when asked,
removes the request from the location manager afterwards (a `defer`).
Public `stop()` is that call with `.cancelled` and removal.

Files:

- `HeadingRequest.dfy`, module `Heading`: the data types, the request class,
  the manager's registry, the effect log, the fan-out specification function
  and the lemmas about it.
- `Scenarios.dfy`, module `HeadingScenarios`: client methods that build
  their own request, drive it through a lifecycle, and state the observed
  trace using only the class contracts.

Modelling choices:

- A callback closure is a handle (`CallbackId`). Calling one appends
  `Invoked(callback, data, seen)` to an `EffectLog`. `seen` is the request's
  state at the moment of the call. It is what a closure would read if it
  looked at the request.
- `LocationManager.shared` is an explicit `Manager` object holding the set of
  registered request identifiers. SwiftLocation's requests hash and compare by
  identifier, so a set of identifiers is the same collection. Its
  `removeHeadingRequest` removes the identifier and appends `Removed(id)` to
  the same log. That single log makes the order "terminal failures first,
  removal last" checkable.
- `dispatch` walks a snapshot of the callback list with a loop, one call per
  element. Its postcondition ties the new log to the function `Fanout`.
  The lemmas about `Fanout` say what a fan-out is: one entry per
  registration, in list order, each carrying the value and the state.
- `start` and `pause` may change only `state` (frame `this`state`).
  `dispatch` changes nothing in the request. So no operation ever writes
  `id`, the filters, the timeout or the callbacks. In the Swift class `id`
  is a `var`, but nothing in `HeadingRequest.swift` writes it.

Behaviour of the Swift code: `start()` and `pause()`
(`HeadingRequest.swift:56-62`) assign the state without a guard, even from
`expired`. `dispatch` (`HeadingRequest.swift:94-98`) calls every callback
in every state. `accuracy` and `minInterval` (`HeadingRequest.swift:34-37`,
`:46-47`) are only stored. The comments at `:33` and `:36` say a non-nil
value filters, but nothing in this file applies a filter.
`HeadingScenarios.ExpiredIsNotTerminal` and
`HeadingScenarios.IdleDispatchIsUnfiltered` state this behaviour.

## Model

| member | source | states |
|---|---|---|
| `Heading.HeadingRequest.constructor` | Sources/Heading/HeadingRequest.swift:28-48 | a new request has the given identifier, stores the given accuracy and minimum interval unchanged, is idle, has no timeout and no callbacks |
| `Heading.HeadingRequest.Start` | Sources/Heading/HeadingRequest.swift:56-58 | the state becomes running from any prior state, expired included; nothing else in the request changes |
| `Heading.HeadingRequest.Pause` | Sources/Heading/HeadingRequest.swift:60-62 | the state becomes paused from any prior state; nothing else changes |
| `Heading.HeadingRequest.Stop` | Sources/Heading/HeadingRequest.swift:52-54 | the same effect as stopping with reason cancelled and removal: expired, one cancelled failure per callback seen in the expired state, then removal from the registry |
| `Heading.HeadingRequest.StopWithReason` | Sources/Heading/HeadingRequest.swift:81-89 | state is expired; the log grows by one `Failure(reason)` per callback in list order, each observed while already expired; with removal, the identifier leaves the registry and the removal is logged after every failure; without removal, the registry and log tail are untouched |
| `Heading.HeadingRequest.Dispatch` | Sources/Heading/HeadingRequest.swift:94-98 | the log grows by exactly the fan-out of the value over the callback list, whatever the state; the request itself is unchanged |
| `Heading.HeadingRequest.Equal` | Sources/Heading/HeadingRequest.swift:70-72 | two requests are equal exactly when their identifiers are, regardless of state, filters and callbacks |
| `Heading.HeadingRequest.HashInto` | Sources/Heading/HeadingRequest.swift:66-68 | hashing feeds the identifier, and nothing else, to the hasher |
| `Heading.Manager.RemoveHeadingRequest` | Sources/Heading/HeadingRequest.swift:84 | the request's identifier is no longer registered (a no-op on the set if it was absent); the removal is logged |
| `Heading.EffectLog.Invoke` | Sources/Heading/HeadingRequest.swift:96 | calling one callback appends exactly one invocation with that value |
| `Heading.Fanout` | Sources/Heading/HeadingRequest.swift:95-97 | a fan-out has exactly as many effects as there are callbacks |
| `Heading.FanoutAt` | Sources/Heading/HeadingRequest.swift:95-97 | the i-th effect of a fan-out is the i-th callback receiving the value |
| `Heading.FanoutSnoc` | Sources/Heading/HeadingRequest.swift:95-97 | one more callback at the end of the list adds exactly one invocation at the end of the fan-out |
| `Heading.RecipientsOfFanout` | Sources/Heading/HeadingRequest.swift:95-97 | the callbacks invoked by a fan-out are exactly the list, in order, each registration once (also as multisets) |
| `Heading.FanoutCarries` | Sources/Heading/HeadingRequest.swift:94-98 | every effect of a fan-out is an invocation carrying the dispatched value and the current state, for every state: delivery is not gated |
| `Heading.FanoutEmpty` | Sources/Heading/HeadingRequest.swift:95-97 | with no callbacks a fan-out adds nothing, and only then |
| `Heading.EqualIsEquivalence` | Sources/Heading/HeadingRequest.swift:70-72 | request equality is reflexive, symmetric and transitive |
| `Heading.EqualRequestsHashEqually` | Sources/Heading/HeadingRequest.swift:66-72 | equal requests produce the same hasher state, as Hashable requires |
| `HeadingScenarios.Lifecycle` | Sources/Heading/HeadingRequest.swift:52-98 | two callbacks, start, dispatch, pause, dispatch, start, dispatch, stop: every dispatch reaches both callbacks in order (also while paused), stop sends both a cancelled failure seen as expired and then removes the request |
| `HeadingScenarios.StopKeepingRegistration` | Sources/Heading/HeadingRequest.swift:81-89 | stopping with a provider reason and no removal delivers that failure to every callback and leaves the registry as it was |
| `HeadingScenarios.ExpiredIsNotTerminal` | Sources/Heading/HeadingRequest.swift:52-62 | after stop, start gives running and pause gives paused, and a later dispatch still reaches every callback |
| `HeadingScenarios.IdleDispatchIsUnfiltered` | Sources/Heading/HeadingRequest.swift:34-47 | an idle request with both filters set still delivers the heading to every callback: the filters are only stored |
| `HeadingScenarios.Identity` | Sources/Heading/HeadingRequest.swift:66-72 | requests with one identifier are equal and hash alike despite different filters, state and callbacks; requests with equal filters and different identifiers are not equal |

## Left out

- CoreLocation values: a heading is an opaque token, and accuracy and minimum interval are stored as optional `real`s. Nothing in the file compares them.
- `UUID().uuidString`: the identifier is a constructor argument. Uniqueness of generated UUIDs is a property of the platform library and is not modelled.
- `LocationManager.shared` and `removeHeadingRequest`: their internals are not part of this model. Only the effect on an explicit registry of identifiers is modelled.
- `Observers<T>`: its implementation is not part of this model. The callback list is a sequence of handles, and clients assign it directly. No add/remove API is modelled.
- `LocationManager.ErrorReason`: its cases are not part of this model. Only `.cancelled` is named; every other reason is an opaque `Other(code)`.
- `Timeout.Mode`: an opaque placeholder. The field is always `None`.
- Re-entrancy: a callback that changes the request or its callback list while a dispatch is running is not modelled. The loop walks a snapshot of the list, and an invocation only appends to the log.
- Concurrency and thread-safety: none exists in the file, and none is modelled.
- Swift `Hasher` finalisation to an integer: not modelled. The hasher is the sequence of values that were combined into it.
