/**
 * One shape's animation progress (the source's `State`): the current `scale`, the last
 * settled value `prevScale` and the sweep direction `dir` (0 while idle).  The value-level
 * meaning of its two operations is given by `Advance` and `Begin`; the class `State` holds
 * the fields and updates them in place.  Callbacks become returned events.
 */
module Progress {
  import opened Base

  datatype ScaleState = ScaleState(scale: real, prevScale: real, dir: real)

  /** The default `State()`: every field zero. */
  const Origin: ScaleState := ScaleState(0.0, 0.0, 0.0)

  function Abs(x: real): real { if x < 0.0 then -x else x }

  /** A shape at rest on the extreme v. */
  function RestingAt(v: real): ScaleState { ScaleState(v, v, 0.0) }

  predicate Idle(s: ScaleState) { s.dir == 0.0 }

  /**
   * What every reachable state satisfies: it rests on 0 or 1, or it is sweeping
   * away from its resting value and its scale has not left [0, 1].
   */
  predicate Inv(s: ScaleState) {
    && (s.prevScale == 0.0 || s.prevScale == 1.0)
    && (s.dir == 0.0 || s.dir == 1.0 || s.dir == -1.0)
    && (s.dir == 0.0 ==> s.scale == s.prevScale)
    && (s.dir != 0.0 ==> s.dir == 1.0 - 2.0 * s.prevScale && 0.0 <= s.scale <= 1.0)
  }

  /** The new state after `update`, and the value passed to its callback if it fired. */
  datatype Updated = Updated(state: ScaleState, settled: Option<real>)

  /** `State.update`: move scale by 0.1*dir; settle once it is more than 1 away from prevScale. */
  function Advance(s: ScaleState): Updated {
    var moved := s.scale + 0.1 * s.dir;
    if Abs(moved - s.prevScale) > 1.0 then
      var v := s.prevScale + s.dir;
      Updated(RestingAt(v), Some(v))
    else
      Updated(s.(scale := moved), None)
  }

  /**
   * What an update does: unless it settles it changes only scale, by 0.1*dir; a settle
   * leaves the shape at rest on the value it reports.  From a consistent state the update
   * keeps it consistent, does nothing while idle, settles exactly when the moved scale
   * leaves [0, 1], and then settles on the extreme opposite the one it left.
   */
  lemma AdvanceSpec(s: ScaleState)
    ensures var u := Advance(s);
            u.settled.None? ==> u.state == s.(scale := s.scale + 0.1 * s.dir)
    ensures var u := Advance(s); u.settled.Some? ==> u.state == RestingAt(u.settled.value)
    ensures Inv(s) ==> Inv(Advance(s).state)
    ensures Inv(s) && Idle(s) ==> Advance(s) == Updated(s, None)
    ensures Inv(s) && !Idle(s) ==>
              (Advance(s).settled.Some? <==> !(0.0 <= s.scale + 0.1 * s.dir <= 1.0))
    ensures Inv(s) && Advance(s).settled.Some? ==> Advance(s).settled.value == 1.0 - s.prevScale
  {
  }

  /** The new state after `startUpdating`, and whether its callback fired. */
  datatype Begun = Begun(state: ScaleState, started: bool)

  /** `State.startUpdating`: an idle shape starts sweeping away from where it rests. */
  function Begin(s: ScaleState): Begun {
    if s.dir == 0.0 then Begun(s.(dir := 1.0 - 2.0 * s.prevScale), true) else Begun(s, false)
  }

  /**
   * What a start does: it starts exactly an idle shape and is a no-op otherwise; it never
   * moves scale or prevScale; from a consistent state it heads away from the resting value
   * (+1 from 0, -1 from 1) and keeps the state consistent.
   */
  lemma BeginSpec(s: ScaleState)
    ensures Begin(s).started <==> Idle(s)
    ensures !Begin(s).started ==> Begin(s).state == s
    ensures Begin(s).state.scale == s.scale && Begin(s).state.prevScale == s.prevScale
    ensures Inv(s) && Idle(s) ==> Begin(s).state.dir == (if s.prevScale == 0.0 then 1.0 else -1.0)
    ensures Inv(s) ==> Inv(Begin(s).state)
  {
  }

  /** Direction of a sweep that starts from rest at p. */
  function Toward(p: real): real { if p == 0.0 then 1.0 else -1.0 }

  /** Scale after k exact steps of a sweep that started from rest at p. */
  function Partway(p: real, k: nat): real {
    if p == 0.0 then (k as real) * 0.1 else 1.0 - (k as real) * 0.1
  }

  /** The state k updates into a sweep that started from rest at p. */
  function Sweeping(p: real, k: nat): ScaleState { ScaleState(Partway(p, k), p, Toward(p)) }

  /**
   * One update in the middle of a sweep: in exact arithmetic the first ten leave the sweep
   * running, and the eleventh settles on the opposite extreme.
   */
  lemma AdvanceSweeping(p: real, k: nat)
    requires p == 0.0 || p == 1.0
    requires k <= 10
    ensures k < 10 ==> Advance(Sweeping(p, k)) == Updated(Sweeping(p, k + 1), None)
    ensures k == 10 ==> Advance(Sweeping(p, k)) == Updated(RestingAt(1.0 - p), Some(1.0 - p))
  {
  }

  /** Starting a shape at rest on 0 or 1 puts it at the first point of a sweep. */
  lemma BeginResting(s: ScaleState)
    requires Inv(s) && Idle(s)
    ensures Begin(s) == Begun(Sweeping(s.prevScale, 0), true)
  {
  }

  /** The state and the settled values after k successive updates. */
  datatype Trace = Trace(state: ScaleState, settles: seq<real>)

  function Run(s: ScaleState, k: nat): Trace
    decreases k
  {
    if k == 0 then Trace(s, [])
    else
      var t := Run(s, k - 1);
      var u := Advance(t.state);
      Trace(u.state, t.settles + (if u.settled.Some? then [u.settled.value] else []))
  }

  lemma {:induction false} RunSweeping(p: real, k: nat)
    requires p == 0.0 || p == 1.0
    requires k <= 10
    ensures Run(Begin(RestingAt(p)).state, k) == Trace(Sweeping(p, k), [])
  {
    if k == 0 {
      BeginResting(RestingAt(p));
    } else {
      RunSweeping(p, k - 1);
      AdvanceSweeping(p, k - 1);
    }
  }

  /** The k-th update of a run appends its settled value, if any. */
  lemma RunAppend(s: ScaleState, k: nat)
    requires k > 0
    ensures var t := Run(s, k - 1);
            var u := Advance(t.state);
            Run(s, k) == Trace(u.state, t.settles + if u.settled.Some? then [u.settled.value] else [])
  {
  }

  /**
   * A whole sweep: started from rest at p, the shape settles on 1 - p and reports it
   * exactly once, on the eleventh update; after that, further updates change nothing and
   * report nothing.
   */
  lemma {:induction false} Sweep(p: real, k: nat)
    requires p == 0.0 || p == 1.0
    requires k >= 11
    ensures Run(Begin(RestingAt(p)).state, k) == Trace(RestingAt(1.0 - p), [1.0 - p])
  {
    var start := Begin(RestingAt(p)).state;
    var rest := RestingAt(1.0 - p);
    if k == 11 {
      RunSweeping(p, 10);
      AdvanceSweeping(p, 10);
      RunAppend(start, 11);
      assert Run(start, k) == Trace(rest, [1.0 - p]);
    } else {
      Sweep(p, k - 1);
      assert Advance(rest) == Updated(rest, None);
      RunAppend(start, k);
      assert Run(start, k) == Trace(rest, [1.0 - p]);
    }
  }

  /** The source's mutable `State`. */
  class State {
    var scale: real
    var prevScale: real
    var dir: real

    function Value(): ScaleState
      reads this
    {
      ScaleState(scale, prevScale, dir)
    }

    constructor ()
      ensures Value() == Origin
    {
      scale, prevScale, dir := 0.0, 0.0, 0.0;
    }

    /** `update`; the value its callback would receive is returned. */
    method Update() returns (settled: Option<real>)
      modifies this
      ensures Updated(Value(), settled) == Advance(old(Value()))
    {
      scale := scale + 0.1 * dir;
      if Abs(scale - prevScale) > 1.0 {
        scale := prevScale + dir;
        dir := 0.0;
        prevScale := scale;
        settled := Some(prevScale);
      } else {
        settled := None;
      }
    }

    /** `startUpdating`; `started` says whether its callback would fire. */
    method StartUpdating() returns (started: bool)
      modifies this
      ensures Begun(Value(), started) == Begin(old(Value()))
    {
      if dir == 0.0 {
        dir := 1.0 - 2.0 * prevScale;
        started := true;
      } else {
        started := false;
      }
    }
  }
}
