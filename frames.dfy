/**
 * The integer skeleton of a motion Frame: the absolute position and time of one
 * mouse observation and, when a previous frame was supplied, the differences
 * from that frame. The floating-point kinematics a frame also carries
 * (displacement, direction, speed, acceleration) are not part of this model.
 */
module Frames {
  import opened Optional

  /** The differences of a frame from its predecessor. */
  datatype Delta = Delta(dx: int, dy: int, dt: int)

  /** Position (x, y) and time t of one observation; delta is absent on a first frame. */
  datatype Frame = Frame(x: int, y: int, t: int, delta: Option<Delta>)

  /** Builds the frame for a sample at (x, y, t) that follows `last`, if there is one. */
  function NewFrame(x: int, y: int, t: int, last: Option<Frame>): (f: Frame)
    ensures f.x == x && f.y == y && f.t == t
    ensures f.delta.None? <==> last.None?
    ensures last.Some? ==>
      f.delta.value.dx == x - last.value.x &&
      f.delta.value.dy == y - last.value.y &&
      f.delta.value.dt == t - last.value.t
  {
    match last
    case None => Frame(x, y, t, None)
    case Some(p) => Frame(x, y, t, Some(Delta(x - p.x, y - p.y, t - p.t)))
  }

  /** Where and when the predecessor of `f` was observed, read back from f's deltas. */
  function Origin(f: Frame): Option<(int, int, int)>
  {
    match f.delta
    case None => None
    case Some(d) => Some((f.x - d.dx, f.y - d.dy, f.t - d.dt))
  }

  /** The position and time of a frame, without its deltas. */
  function Sample(f: Frame): (int, int, int)
  {
    (f.x, f.y, f.t)
  }

  /** The deltas of a frame built from its sample and `last` are measured from `last`. */
  lemma OriginIsPredecessor(x: int, y: int, t: int, last: Option<Frame>)
    ensures Origin(NewFrame(x, y, t, last)) ==
      (if last.None? then None else Some(Sample(last.value)))
  {
  }

  /** `f` carries exactly the deltas NewFrame would give it after `last`. */
  predicate FollowsFrom(f: Frame, last: Option<Frame>)
  {
    f == NewFrame(f.x, f.y, f.t, last)
  }

  /** Each frame of `frames` follows the one before it; the first one follows `prev`. */
  predicate Chained(prev: Option<Frame>, frames: seq<Frame>)
  {
    && (frames != [] ==> FollowsFrom(frames[0], prev))
    && forall i :: 0 < i < |frames| ==> FollowsFrom(frames[i], Some(frames[i - 1]))
  }

  /** The component-wise sum of the deltas that are present in `frames`. */
  function TotalDelta(frames: seq<Frame>): Delta
  {
    if frames == [] then Delta(0, 0, 0)
    else
      var rest := TotalDelta(frames[1..]);
      match frames[0].delta
      case None => rest
      case Some(d) => Delta(d.dx + rest.dx, d.dy + rest.dy, d.dt + rest.dt)
  }

  /**
   * Deltas do not drift: over a chain of frames that starts after frame `p`, the
   * deltas add up to the net movement from `p` to the last frame of the chain.
   */
  lemma {:induction false} ChainTelescopes(p: Frame, frames: seq<Frame>)
    requires frames != []
    requires Chained(Some(p), frames)
    decreases |frames|
    ensures TotalDelta(frames) ==
      Delta(frames[|frames| - 1].x - p.x, frames[|frames| - 1].y - p.y, frames[|frames| - 1].t - p.t)
  {
    if |frames| > 1 {
      var rest := frames[1..];
      assert FollowsFrom(rest[0], Some(frames[0])) by { assert rest[0] == frames[1]; }
      forall i | 0 < i < |rest|
        ensures FollowsFrom(rest[i], Some(rest[i - 1]))
      {
        assert FollowsFrom(frames[i + 1], Some(frames[i]));
      }
      ChainTelescopes(frames[0], rest);
    }
  }
}
