/**
 * The mousemotion entry point: normalises its arguments, keeps the last
 * delivered frame of one binding, builds a Frame for every mouse move that
 * reaches the proxy handler and, when throttling, lets the throttle gate decide
 * which moves reach it at all. The whole proxy handler, including its update of
 * the last frame, sits behind the gate, so a dropped move changes nothing and
 * deltas are measured from the last delivered frame.
 */
module MouseMotion {
  import opened Optional
  import opened Frames
  import opened Throttling

  /** Milliseconds between handler executions when no wait is given. */
  const ThrottleDefaultWait := 100

  /** A JavaScript argument: not passed (undefined), null, or a value. */
  datatype Arg<V> = Undefined | Null | Given(value: V)

  /** The canonical arguments of one binding after defaults are filled in. */
  datatype Config<V> = Config(eventData: Arg<V>, handler: Arg<V>, shouldThrottle: bool, throttleWait: int)

  /**
   * Argument defaulting: a handler that is null or undefined (loose `== null`)
   * means the caller passed only the handler, in the eventData position; an
   * undefined shouldThrottle means throttle; an undefined throttleWait means the
   * default wait. `None` stands for an undefined shouldThrottle or throttleWait.
   */
  function Normalise<V>(eventData: Arg<V>, handler: Arg<V>, shouldThrottle: Option<bool>, throttleWait: Option<int>): (c: Config<V>)
    ensures handler.Given? ==> c.eventData == eventData && c.handler == handler
    ensures !handler.Given? ==> c.eventData == Null && c.handler == eventData
    ensures c.shouldThrottle <==> (shouldThrottle == None || shouldThrottle == Some(true))
    ensures throttleWait.Some? ==> c.throttleWait == throttleWait.value
    ensures throttleWait.None? ==> c.throttleWait == 100
  {
    var (data, h) := if handler.Undefined? || handler.Null? then (Null, eventData) else (eventData, handler);
    Config(data, h,
      match shouldThrottle { case None => true case Some(b) => b },
      match throttleWait { case None => ThrottleDefaultWait case Some(w) => w })
  }

  /** The call shapes `(handler)` and `(null, handler)` bind the same handler with the same data. */
  lemma HandlerOnlyShapesAgree<V>(h: V, shouldThrottle: Option<bool>, throttleWait: Option<int>)
    ensures Normalise(Given(h), Undefined, shouldThrottle, throttleWait)
         == Normalise(Null, Given(h), shouldThrottle, throttleWait)
  {
  }

  /** Normalising a configuration that already names its handler changes nothing. */
  lemma NormaliseIdempotent<V>(c: Config<V>)
    requires c.handler.Given?
    ensures Normalise(c.eventData, c.handler, Some(c.shouldThrottle), Some(c.throttleWait)) == c
  {
  }

  /** One mouse move: its page position and timestamp, and the wall clock when it is dispatched. */
  datatype MouseMove = MouseMove(pageX: int, pageY: int, timeStamp: int, now: int)

  /** The state of one binding: the last delivered frame and the throttle's last admitted call. */
  datatype StreamState = StreamState(lastFrame: Option<Frame>, lastCalledAt: int)

  /** The state after some moves and the frames handed to the handler, in order. */
  datatype Trace = Trace(state: StreamState, frames: seq<Frame>)

  /** The state of a binding just attached. */
  const Initial := StreamState(None, 0)

  /** Dispatch of one move: dropped by the gate (no frame), or a frame built after lastFrame. */
  function Step(shouldThrottle: bool, wait: int, s: StreamState, e: MouseMove): (r: Trace)
    ensures |r.frames| <= 1
    ensures r.frames == [] ==> r.state == s
    ensures r.frames != [] ==>
      && Sample(r.frames[0]) == (e.pageX, e.pageY, e.timeStamp)
      && FollowsFrom(r.frames[0], s.lastFrame)
      && r.state.lastFrame == Some(r.frames[0])
    ensures !shouldThrottle ==> r.frames != [] && r.state.lastCalledAt == s.lastCalledAt
    ensures shouldThrottle ==> (r.frames != [] <==> e.now > s.lastCalledAt + wait)
    ensures shouldThrottle && r.frames != [] ==> r.state.lastCalledAt == e.now
  {
    if shouldThrottle && !Admits(s.lastCalledAt, wait, e.now) then Trace(s, [])
    else
      var f := NewFrame(e.pageX, e.pageY, e.timeStamp, s.lastFrame);
      Trace(StreamState(Some(f), if shouldThrottle then e.now else s.lastCalledAt), [f])
  }

  /** Dispatch of a sequence of moves, one after another, from state `s`. */
  function Run(shouldThrottle: bool, wait: int, s: StreamState, events: seq<MouseMove>): (r: Trace)
    ensures |r.frames| <= |events|
    decreases |events|
  {
    if events == [] then Trace(s, [])
    else
      var first := Step(shouldThrottle, wait, s, events[0]);
      var rest := Run(shouldThrottle, wait, first.state, events[1..]);
      Trace(rest.state, first.frames + rest.frames)
  }

  /** The wall-clock values at which the moves are dispatched. */
  function Nows(events: seq<MouseMove>): (r: seq<int>)
    ensures |r| == |events|
    ensures forall i :: 0 <= i < |events| ==> r[i] == events[i].now
    decreases |events|
  {
    if events == [] then [] else [events[0].now] + Nows(events[1..])
  }

  /**
   * Deltas are measured from the last delivered frame: the delivered frames
   * form a chain starting after the binding's lastFrame, and lastFrame ends as
   * the last delivered frame (unchanged when nothing was delivered).
   */
  lemma {:induction false} RunChained(shouldThrottle: bool, wait: int, s: StreamState, events: seq<MouseMove>)
    ensures var r := Run(shouldThrottle, wait, s, events);
      && Chained(s.lastFrame, r.frames)
      && r.state.lastFrame == (if r.frames == [] then s.lastFrame else Some(r.frames[|r.frames| - 1]))
    decreases |events|
  {
    if events != [] {
      var first := Step(shouldThrottle, wait, s, events[0]);
      RunChained(shouldThrottle, wait, first.state, events[1..]);
      var rest := Run(shouldThrottle, wait, first.state, events[1..]);
      if first.frames != [] {
        var fs := first.frames + rest.frames;
        assert fs[0] == first.frames[0];
        forall i | 0 < i < |fs| ensures FollowsFrom(fs[i], Some(fs[i - 1])) {
          assert fs[i] == rest.frames[i - 1];
          if i > 1 {
            assert fs[i - 1] == rest.frames[i - 2];
          }
        }
      }
    }
  }

  /** A binding that was just attached delivers a first frame without deltas. */
  lemma FirstDeliveredHasNoDeltas(shouldThrottle: bool, wait: int, events: seq<MouseMove>)
    ensures var r := Run(shouldThrottle, wait, Initial, events);
      r.frames != [] ==> r.frames[0].delta == None
  {
    RunChained(shouldThrottle, wait, Initial, events);
  }

  /** Without throttling every move is delivered, in order, at its own position and time. */
  lemma {:induction false} UnthrottledDeliversEveryMove(wait: int, s: StreamState, events: seq<MouseMove>)
    ensures var r := Run(false, wait, s, events);
      && |r.frames| == |events|
      && (forall i :: 0 <= i < |events| ==>
            Sample(r.frames[i]) == (events[i].pageX, events[i].pageY, events[i].timeStamp))
      && r.state.lastCalledAt == s.lastCalledAt
    decreases |events|
  {
    if events != [] {
      var first := Step(false, wait, s, events[0]);
      UnthrottledDeliversEveryMove(wait, first.state, events[1..]);
      var rest := Run(false, wait, first.state, events[1..]);
      var fs := first.frames + rest.frames;
      forall i | 0 < i < |events|
        ensures Sample(fs[i]) == (events[i].pageX, events[i].pageY, events[i].timeStamp)
      {
        assert fs[i] == rest.frames[i - 1];
        assert events[1..][i - 1] == events[i];
      }
    }
  }

  /** The moves, in order, that a gate which last admitted a call at `lastCalledAt` lets through. */
  function AdmittedMoves(wait: int, lastCalledAt: int, events: seq<MouseMove>): (r: seq<MouseMove>)
    ensures |r| <= |events|
    decreases |events|
  {
    if events == [] then []
    else if Admits(lastCalledAt, wait, events[0].now) then [events[0]] + AdmittedMoves(wait, events[0].now, events[1..])
    else AdmittedMoves(wait, lastCalledAt, events[1..])
  }

  /** The moves let through are dispatched at exactly the clock values the throttle admits. */
  lemma {:induction false} AdmittedMovesAtAdmittedTimes(wait: int, lastCalledAt: int, events: seq<MouseMove>)
    ensures Nows(AdmittedMoves(wait, lastCalledAt, events)) == AdmittedTimes(wait, lastCalledAt, Nows(events))
    decreases |events|
  {
    if events != [] {
      var next := if Admits(lastCalledAt, wait, events[0].now) then events[0].now else lastCalledAt;
      AdmittedMovesAtAdmittedTimes(wait, next, events[1..]);
      assert Nows(events)[1..] == Nows(events[1..]);
    }
  }

  /**
   * With throttling, exactly the moves the throttle gate admits are delivered,
   * in order, each at its own page position and timestamp, and the binding's
   * lastCalledAt evolves as the gate's does.
   */
  lemma {:induction false} ThrottledDeliversAdmitted(wait: int, s: StreamState, events: seq<MouseMove>)
    ensures var r := Run(true, wait, s, events);
      var admitted := AdmittedMoves(wait, s.lastCalledAt, events);
      && |r.frames| == |admitted|
      && (forall i :: 0 <= i < |admitted| ==>
            Sample(r.frames[i]) == (admitted[i].pageX, admitted[i].pageY, admitted[i].timeStamp))
      && r.state.lastCalledAt == LastCalledAfter(wait, s.lastCalledAt, Nows(events))
    decreases |events|
  {
    if events != [] {
      var first := Step(true, wait, s, events[0]);
      ThrottledDeliversAdmitted(wait, first.state, events[1..]);
      assert Nows(events)[1..] == Nows(events[1..]);
      if first.frames != [] {
        var rest := Run(true, wait, first.state, events[1..]);
        var fs := first.frames + rest.frames;
        var admitted := AdmittedMoves(wait, s.lastCalledAt, events);
        var later := AdmittedMoves(wait, events[0].now, events[1..]);
        assert admitted == [events[0]] + later;
        forall i | 0 < i < |admitted|
          ensures Sample(fs[i]) == (admitted[i].pageX, admitted[i].pageY, admitted[i].timeStamp)
        {
          assert fs[i] == rest.frames[i - 1];
          assert admitted[i] == later[i - 1];
        }
      }
    }
  }

  /**
   * Moves through a binding without throttling at (0, 0, 0), (3, 4, 100) and
   * (3, 4, 200) deliver three frames, the later two with deltas (3, 4, 100) and (0, 0, 100).
   */
  lemma UnthrottledExample()
    ensures Run(false, 100, Initial,
                [MouseMove(0, 0, 0, 0), MouseMove(3, 4, 100, 100), MouseMove(3, 4, 200, 200)]).frames
         == [Frame(0, 0, 0, None),
             Frame(3, 4, 100, Some(Delta(3, 4, 100))),
             Frame(3, 4, 200, Some(Delta(0, 0, 100)))]
  {
  }

  /**
   * A move dropped by the throttle is not measured: after moves at (0, 0),
   * (5, 5) (dropped) and (10, 10), the second delivered frame moved by (10, 10) from the first.
   */
  lemma DroppedMoveNotMeasured()
    ensures Run(true, 100, Initial,
                [MouseMove(0, 0, 1000, 1000), MouseMove(5, 5, 1050, 1050), MouseMove(10, 10, 1200, 1200)]).frames
         == [Frame(0, 0, 1000, None), Frame(10, 10, 1200, Some(Delta(10, 10, 200)))]
  {
  }

  /** One binding: the closure of a mousemotion call over its lastFrame slot and its throttle. */
  class MotionStream {
    const shouldThrottle: bool
    const throttleWait: int
    /** The throttled wrapper's state; present exactly when the binding throttles. */
    const throttle: Throttle?
    /** The frame most recently passed to the handler. */
    var lastFrame: Option<Frame>
    /** The frames passed to the consumer's handler so far, in order. */
    var delivered: seq<Frame>

    ghost predicate Valid()
      reads this, throttle
    {
      (shouldThrottle <==> throttle != null) &&
      (throttle != null ==> throttle.wait == throttleWait)
    }

    /** The binding's state; a binding that does not throttle keeps lastCalledAt at 0. */
    ghost function State(): StreamState
      reads this, throttle
    {
      StreamState(lastFrame, if throttle != null then throttle.lastCalledAt else 0)
    }

    constructor (shouldThrottle: bool, throttleWait: int)
      ensures Valid() && State() == Initial && delivered == []
      ensures this.shouldThrottle == shouldThrottle && this.throttleWait == throttleWait
      ensures throttle != null ==> fresh(throttle)
    {
      this.shouldThrottle := shouldThrottle;
      this.throttleWait := throttleWait;
      if shouldThrottle {
        throttle := new Throttle(throttleWait);
      } else {
        throttle := null;
      }
      lastFrame := None;
      delivered := [];
    }

    /** The unthrottled handler: builds the frame, stores it as lastFrame and hands it over. */
    method ProxyHandler(e: MouseMove) returns (f: Frame)
      modifies this`lastFrame, this`delivered
      ensures f == NewFrame(e.pageX, e.pageY, e.timeStamp, old(lastFrame))
      ensures lastFrame == Some(f) && delivered == old(delivered) + [f]
    {
      f := NewFrame(e.pageX, e.pageY, e.timeStamp, lastFrame);
      lastFrame := Some(f);
      delivered := delivered + [f];
    }

    /** The listener registered for mouse moves: the proxy handler, behind the gate when throttling. */
    method OnMouseMove(e: MouseMove)
      requires Valid()
      modifies this`lastFrame, this`delivered, throttle
      ensures Valid()
      ensures var r := Step(shouldThrottle, throttleWait, old(State()), e);
        State() == r.state && delivered == old(delivered) + r.frames
    {
      if throttle != null {
        var admitted := throttle.Admit(e.now);
        if admitted {
          var _ := ProxyHandler(e);
        }
      } else {
        var _ := ProxyHandler(e);
      }
    }

    /** Dispatches the moves one after another, as the event source delivers them. */
    method Feed(events: seq<MouseMove>)
      requires Valid()
      modifies this`lastFrame, this`delivered, throttle
      ensures Valid()
      ensures var r := Run(shouldThrottle, throttleWait, old(State()), events);
        State() == r.state && delivered == old(delivered) + r.frames
    {
      var i := 0;
      while i < |events|
        invariant 0 <= i <= |events| && Valid()
        invariant var rest := Run(shouldThrottle, throttleWait, State(), events[i..]);
          var all := Run(shouldThrottle, throttleWait, old(State()), events);
          rest.state == all.state && delivered + rest.frames == old(delivered) + all.frames
      {
        assert events[i..][1..] == events[i + 1..];
        OnMouseMove(events[i]);
        i := i + 1;
      }
    }
  }

  /**
   * mousemotion: normalises the arguments and attaches a binding configured by them.
   */
  method Attach<V>(eventData: Arg<V>, handler: Arg<V>, shouldThrottle: Option<bool>, throttleWait: Option<int>)
    returns (c: Config<V>, stream: MotionStream)
    ensures c == Normalise(eventData, handler, shouldThrottle, throttleWait)
    ensures fresh(stream) && stream.Valid() && stream.State() == Initial && stream.delivered == []
    ensures stream.throttle != null ==> fresh(stream.throttle)
    ensures stream.shouldThrottle == c.shouldThrottle && stream.throttleWait == c.throttleWait
  {
    c := Normalise(eventData, handler, shouldThrottle, throttleWait);
    stream := new MotionStream(c.shouldThrottle, c.throttleWait);
  }
}
