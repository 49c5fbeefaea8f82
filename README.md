# jQuery MouseMotion, modelled in Dafny

jQuery MouseMotion adds a `mousemotion` event binding whose handler receives, with every
mouse move, a Frame: the pointer's position and time and, after the first move, the
differences from the previous frame. The binding can be throttled so that the handler runs
at most once per `throttleWait` milliseconds.

This project models the integer bookkeeping of that plugin:

- `Frames` (frames.dfy): the Frame value with its `x, y, t` and optional `dx, dy, dt`, the
  constructor that measures deltas from the previous frame, and what chains of frames satisfy.
- `Throttling` (throttling.dfy): the throttle closure as a class with one `int` field,
  `lastCalledAt`, whose gate admits a call at clock value `now` iff `now > lastCalledAt + wait`;
  and the sequence of admitted clock values for a sequence of calls, with its spacing laws.
- `MouseMotion` (mousemotion.dfy): argument defaulting; one binding as a class holding the
  `lastFrame` slot, the throttle and the list of frames handed to the consumer's handler; and
  the pure step and run functions the binding's methods are proved against.
- `Optional` (optional.dfy): the Option type used for absent values.

The clock (`+new Date()`) is a parameter: every mouse move carries the wall-clock value `now`
at which it is dispatched, separate from the event's own `timeStamp` that goes into the frame.
The consumer's handler is represented by what it receives: the binding records the frames
delivered to it, in order. `Throttle.Call` models the throttled wrapper of an arbitrary
function; the binding, whose wrapped proxy handler changes state, goes through the same gate
(`Throttle.Admit`) and then runs the proxy handler only when admitted.

Policy of the throttled binding: the source wraps the whole proxy handler, including the
assignment `lastFrame = frame`, in the throttle (jquery.mousemotion.js:51). A move the throttle
drops therefore leaves `lastFrame` as it was, and the next delivered frame's deltas are measured
from the last delivered frame, not from the dropped move. The model reproduces exactly this
(`RunChained`, `DroppedMoveNotMeasured`); the alternative of advancing `lastFrame` on every move
is not what the code does.

Two facts about the throttle:
- `lastCalledAt` starts at 0 (jquery.mousemotion.js:64), so a fresh gate admits its first call
  iff `now > wait` (`FirstCallAdmittedIff`), so with real epoch clock values the first call is
  always admitted. On a clock that starts at 0 and with wait 50, calls at 0, 10, 60, 70 and
  130 are admitted at 60 and 130 (`SimulatedClockTrace`).
- Consecutive admitted calls are more than `wait` apart, for any call times (`AdmittedSpaced`).

## Model

| member | source | states |
|---|---|---|
| Frames.NewFrame | jquery.mousemotion.js:86-97 | the frame has the given x, y, t; it has deltas iff a previous frame was given; then dx = x - last.x, dy = y - last.y, dt = t - last.t |
| Frames.OriginIsPredecessor | jquery.mousemotion.js:95-97 | subtracting a built frame's deltas from its position and time gives back exactly the previous frame's x, y, t; a first frame has no origin |
| Frames.ChainTelescopes | jquery.mousemotion.js:86-97 | over a chain of frames each built after the one before, the deltas sum to the net movement from the frame before the chain to its last frame |
| Throttling.Throttle.constructor | jquery.mousemotion.js:63-64 | a new throttle has the given wait and lastCalledAt = 0 |
| Throttling.Throttle.Admit | jquery.mousemotion.js:66-74 | the call is admitted iff now > lastCalledAt + wait (strict); admitted moves lastCalledAt to now, dropped leaves it unchanged |
| Throttling.Throttle.Call | jquery.mousemotion.js:66-74 | the throttled wrapper returns the wrapped function's result when admitted and nothing (undefined) when dropped, updating lastCalledAt only on admission |
| Throttling.AdmittedTimes | jquery.mousemotion.js:63-75 | the clock values, in order, of the calls one throttle closure admits from a sequence of calls; never more than the calls made |
| Throttling.LastCalledAfter | jquery.mousemotion.js:63-75 | the closure's lastCalledAt after a sequence of calls: either its starting value or the clock value of one of the calls |
| Throttling.AdmittedSpaced | jquery.mousemotion.js:63-75 | the first admitted call is after lastCalledAt + wait, each later admitted call is more than wait after the previous admitted one, and lastCalledAt ends at the last admitted call |
| Throttling.AdmittedAreCalls | jquery.mousemotion.js:70-73 | every admitted clock value is one of the calls made |
| Throttling.FirstCallAdmittedIff | jquery.mousemotion.js:64-70 | from the initial lastCalledAt = 0 the first call is admitted iff now > wait |
| Throttling.AdmittedStrictlyIncrease | jquery.mousemotion.js:70-71 | with a non-negative wait the admitted clock values strictly increase, so two calls in the same millisecond are never both admitted |
| Throttling.ZeroWaitAdmitsIncreasing | jquery.mousemotion.js:70 | with wait 0, every call at a strictly later clock value than the last admitted one is admitted |
| Throttling.BoundaryCallDropped | jquery.mousemotion.js:70 | a call at exactly lastCalledAt + wait is dropped and leaves lastCalledAt unchanged |
| Throttling.SimulatedClockTrace | jquery.mousemotion.js:63-75 | with wait 50 and a fresh gate, calls at 0, 10, 60, 70, 130 are admitted at 60 and 130 only |
| MouseMotion.Normalise | jquery.mousemotion.js:30-43 | a null or undefined handler takes eventData's value and eventData becomes null; an undefined shouldThrottle becomes true; an undefined throttleWait becomes 100; supplied arguments are kept |
| MouseMotion.HandlerOnlyShapesAgree | jquery.mousemotion.js:30-33 | the call shapes (handler) and (null, handler) give the same configuration |
| MouseMotion.NormaliseIdempotent | jquery.mousemotion.js:30-43 | normalising a configuration that already names its handler leaves it unchanged |
| MouseMotion.Step | jquery.mousemotion.js:45-51 | one dispatch through the listener of line 51: when throttling the gate decides first, and the move is delivered iff now > lastCalledAt + wait, with lastCalledAt becoming now on delivery; a dropped move leaves lastFrame and lastCalledAt unchanged and delivers nothing; a delivered move runs the whole proxyHandler of lines 45-49, delivering one frame at the move's position and time, measured from the old lastFrame, which becomes the new lastFrame; without throttling lastCalledAt never changes |
| MouseMotion.Run | jquery.mousemotion.js:45-53 | the moves dispatched one after another from a binding state: at most one frame per move is delivered |
| MouseMotion.RunChained | jquery.mousemotion.js:45-51 | each delivered frame's deltas are measured from the previously delivered frame (the first from the binding's lastFrame), and lastFrame ends as the last delivered frame, unchanged when a move is dropped |
| MouseMotion.FirstDeliveredHasNoDeltas | jquery.mousemotion.js:45-51 | the first frame a new binding delivers has only x, y, t |
| MouseMotion.UnthrottledDeliversEveryMove | jquery.mousemotion.js:51 | without throttling every move is delivered, in order, with its own page position and timestamp |
| MouseMotion.AdmittedMoves | jquery.mousemotion.js:51-75 | the moves, in order, that the throttled wrapper lets through to proxyHandler; never more than the moves dispatched |
| MouseMotion.AdmittedMovesAtAdmittedTimes | jquery.mousemotion.js:51 | the moves the throttled binding lets through are dispatched at exactly the clock values the throttle gate admits |
| MouseMotion.ThrottledDeliversAdmitted | jquery.mousemotion.js:51 | with throttling exactly the moves the gate admits are delivered, in order, each with its own page position and timestamp, and the binding's lastCalledAt evolves as the gate's |
| MouseMotion.UnthrottledExample | jquery.mousemotion.js:45-51 | moves at (0,0,0), (3,4,100), (3,4,200) deliver frames with no deltas, then (3,4,100), then (0,0,100) |
| MouseMotion.DroppedMoveNotMeasured | jquery.mousemotion.js:45-51 | a move dropped by the throttle is skipped in the deltas: the next delivered frame is measured from the last delivered one |
| MouseMotion.MotionStream.constructor | jquery.mousemotion.js:28-51 | a new binding has no lastFrame, has delivered nothing, and holds a fresh throttle with the configured wait exactly when it throttles |
| MouseMotion.MotionStream.ProxyHandler | jquery.mousemotion.js:45-49 | builds the frame from the move and the old lastFrame, stores it as lastFrame and hands it to the handler |
| MouseMotion.MotionStream.OnMouseMove | jquery.mousemotion.js:45-51 | one dispatched move changes lastFrame, lastCalledAt and the delivered frames exactly as the step function says: through the gate when throttling, directly otherwise |
| MouseMotion.MotionStream.Feed | jquery.mousemotion.js:45-53 | dispatching a sequence of moves leaves the binding in the state the run function gives and appends exactly the frames it delivers |
| MouseMotion.Attach | jquery.mousemotion.js:27-53 | mousemotion normalises its arguments and attaches a fresh binding with no lastFrame, configured by the normalised shouldThrottle and throttleWait, whose throttle, when it has one, is a fresh closure of its own |

## Left out

- displacement, direction, speed, acceleration and the atan2 helper (jquery.mousemotion.js:99-106, 117-119): floating-point square root, arctangent and division, with NaN and Infinity when dt is 0; the model's Frame carries only the integer fields.
- Numbers are unbounded integers: page coordinates and timestamps are JavaScript doubles in the source, so fractional values and rounding of very large values are not modelled.
- The wall clock `+new Date()` (jquery.mousemotion.js:67) is the `now` parameter of each call.
- The jQuery glue: `$.MouseMotion`, `$.fn.mousemotion`, the `this.mousemove(eventData, proxyHandler)` subscription and its return value, and the forwarding of `this` and `arguments` through `call`/`apply` (jquery.mousemotion.js:12, 53, 68, 72, 122). The event source is represented by `MotionStream.Feed` handing moves to the binding one at a time.
- The consumer's handler is not invoked; the binding records the frames it would receive. The handler's first argument, the event object, is not recorded, only the frame. Exceptions thrown by a handler are not modelled, and neither is the TypeError at jquery.mousemotion.js:48 when no handler was given at all (eventData and handler both null or undefined): the source throws there after lastFrame, and when throttling lastCalledAt, have already been updated, while the model records a delivered frame.
- JavaScript truthiness in `shouldThrottle && throttle(...) || proxyHandler` (jquery.mousemotion.js:51): shouldThrottle is a boolean; a null shouldThrottle or throttleWait (rather than undefined) is not modelled.
- Removing a binding is not part of the plugin's source (it registers through mousemove and offers no teardown of its own), so it is not modelled.
- MouseMotion.Normalise: eventData and handler share one value type, since a handler passed in the eventData position moves to the handler position.
