/**
 * The source's `Renderer`: one sequencer step per repaint while the animator runs, the
 * mapping of settle events onto the listener's `onReset`/`onComplete`, and the tap that
 * starts the current node.  `System` is the renderer's state as a value; `RenderStep` and
 * `TapStep` give the meaning of `render` and `handleTap`, and the lemmas below follow
 * whole sessions from the widget's creation.
 */
module View {
  import opened Base
  import opened Progress
  import opened Chain
  import opened Ticker

  /** A listener callback fired during a render, with the index it receives. */
  datatype Notice = OnReset(i: nat) | OnComplete(i: nat)

  /** The renderer's state: the sequencer and the animator's flag. */
  datatype System = System(chain: Config, animated: bool)

  /** The renderer as the view creates it. */
  function InitialSystem(): System { System(InitialConfig(), false) }

  /** `when (scl)`: 0 fires `onReset`, 1 fires `onComplete`, any other value nothing. */
  function Notify(e: Settle): Option<Notice> {
    if e.value == 0.0 then Some(OnReset(e.i))
    else if e.value == 1.0 then Some(OnComplete(e.i))
    else None
  }

  datatype Rendered = Rendered(system: System, notice: Option<Notice>)

  /**
   * `render` without the drawing: when animating, one sequencer update; on a settle the
   * animator is stopped, then the settled value picks the listener callback.
   */
  function RenderStep(s: System): (r: Rendered)
    requires WellFormed(s.chain)
    ensures WellFormed(r.system.chain)
  {
    if !s.animated then Rendered(s, None)
    else
      var st := ChainAdvance(s.chain);
      match st.settled
      case None => Rendered(System(st.config, true), None)
      case Some(e) => Rendered(System(st.config, false), Notify(e))
  }

  /**
   * What a render does: nothing at all unless the animator runs; otherwise exactly one
   * sequencer update, after which the animator is still running unless that update settled.
   * A callback fires only on a settle, with the index of the node that settled.
   */
  lemma RenderStepSpec(s: System)
    requires WellFormed(s.chain)
    ensures !s.animated ==> RenderStep(s) == Rendered(s, None)
    ensures s.animated ==> RenderStep(s).system.chain == ChainAdvance(s.chain).config
    ensures RenderStep(s).system.animated <==> s.animated && ChainAdvance(s.chain).settled.None?
    ensures RenderStep(s).notice.Some? ==>
              s.animated && ChainAdvance(s.chain).settled.Some?
              && RenderStep(s).notice.value.i == s.chain.curr
  {
    if s.animated {
      ChainAdvanceSpec(s.chain);
    }
  }

  datatype Tapped = Tapped(system: System, repaint: bool)

  /** `handleTap`: start the current node; only a start switches the animator on. */
  function TapStep(s: System): (r: Tapped)
    requires WellFormed(s.chain)
    ensures WellFormed(r.system.chain)
  {
    var b := ChainBegin(s.chain);
    if b.started then Tapped(System(b.config, true), !s.animated)
    else Tapped(System(b.config, s.animated), false)
  }

  /**
   * What a tap does: it starts the current node; the animator is switched on exactly when
   * that node was idle (and was already on, or stays off, otherwise); a repaint is requested
   * exactly when the animator goes from off to on.
   */
  lemma TapStepSpec(s: System)
    requires WellFormed(s.chain)
    ensures TapStep(s).system.chain == ChainBegin(s.chain).config
    ensures TapStep(s).system.animated <==> s.animated || Idle(s.chain.scales[s.chain.curr])
    ensures TapStep(s).repaint <==> !s.animated && Idle(s.chain.scales[s.chain.curr])
  {
    ChainBeginSpec(s.chain);
  }

  /**
   * What every reachable renderer state satisfies: each node's progress is consistent,
   * only the current node can be mid-sweep, and the animator runs exactly while it is.
   */
  predicate Consistent(s: System) {
    && WellFormed(s.chain)
    && (forall k :: 0 <= k < Nodes ==> Inv(s.chain.scales[k]))
    && (forall k :: 0 <= k < Nodes && k != s.chain.curr ==> Idle(s.chain.scales[k]))
    && (s.animated <==> !Idle(s.chain.scales[s.chain.curr]))
  }

  lemma InitialConsistent()
    ensures Consistent(InitialSystem())
  {
  }

  /**
   * A render keeps the renderer consistent, and it fires a listener callback exactly when
   * the current node settles: `onComplete` for a sweep up to 1, `onReset` for one down to 0.
   */
  lemma RenderKeeps(s: System)
    requires Consistent(s)
    ensures Consistent(RenderStep(s).system)
    ensures var c := s.chain;
            RenderStep(s).notice ==
              if s.animated && Advance(c.scales[c.curr]).settled.Some? then
                Some(if c.scales[c.curr].prevScale == 0.0 then OnComplete(c.curr) else OnReset(c.curr))
              else None
  {
    var c := s.chain;
    var r := RenderStep(s);
    if s.animated {
      var u := Advance(c.scales[c.curr]);
      assert Inv(c.scales[c.curr]);
      forall k | 0 <= k < Nodes
        ensures Inv(r.system.chain.scales[k])
      {
        assert k != c.curr ==> r.system.chain.scales[k] == c.scales[k];
      }
      if u.settled.Some? {
        assert r.system.chain.scales[c.curr] == RestingAt(1.0 - c.scales[c.curr].prevScale);
      }
    }
  }

  /** A tap keeps the renderer consistent, and a tap during a sweep changes nothing. */
  lemma TapKeeps(s: System)
    requires Consistent(s)
    ensures Consistent(TapStep(s).system)
    ensures s.animated ==> TapStep(s) == Tapped(s, false)
  {
    var c := s.chain;
    var r := TapStep(s);
    assert Inv(c.scales[c.curr]);
    forall k | 0 <= k < Nodes
      ensures Inv(r.system.chain.scales[k])
    {
      assert k != c.curr ==> r.system.chain.scales[k] == c.scales[k];
    }
    if s.animated {
      assert c.scales[c.curr := c.scales[c.curr]] == c.scales;
    }
  }

  /** The renderer state and the callbacks fired over a run of repaints. */
  datatype Session = Session(system: System, notices: seq<Notice>)

  /** k successive renders. */
  function Renders(s: System, k: nat): (r: Session)
    requires WellFormed(s.chain)
    ensures WellFormed(r.system.chain)
    decreases k
  {
    if k == 0 then Session(s, [])
    else
      var t := Renders(s, k - 1);
      var r := RenderStep(t.system);
      Session(r.system, t.notices + (if r.notice.Some? then [r.notice.value] else []))
  }

  /**
   * The reference meaning of one tap followed by a full sweep: the current node lands on
   * the opposite extreme, `curr` moves one step along `dir` (or, at an end, stays while
   * `dir` reverses), and the animator is off again.
   */
  function Swept(s: System): System
    requires WellFormed(s.chain)
  {
    var c := s.chain;
    var p := c.scales[c.curr].prevScale;
    var inside := 0 <= c.curr + c.dir < Nodes;
    System(Config(c.scales[c.curr := RestingAt(1.0 - p)],
                  if inside then c.curr + c.dir else c.curr,
                  if inside then c.dir else -c.dir),
           false)
  }

  /** The callback that one sweep fires. */
  function SweepNotice(s: System): Notice
    requires WellFormed(s.chain)
  {
    var c := s.chain;
    if c.scales[c.curr].prevScale == 0.0 then OnComplete(c.curr) else OnReset(c.curr)
  }

  /** A render while the current node is mid-sweep and does not settle. */
  lemma RenderUnsettled(c: Config)
    requires WellFormed(c) && Advance(c.scales[c.curr]).settled.None?
    ensures RenderStep(System(c, true)) ==
              Rendered(System(c.(scales := c.scales[c.curr := Advance(c.scales[c.curr]).state]), true), None)
  {
  }

  /** A render on which the current node settles on v. */
  lemma RenderSettled(c: Config, v: real)
    requires WellFormed(c) && Advance(c.scales[c.curr]).settled == Some(v)
    ensures var inside := 0 <= c.curr + c.dir < Nodes;
            RenderStep(System(c, true)) ==
              Rendered(System(Config(c.scales[c.curr := Advance(c.scales[c.curr]).state],
                                     if inside then c.curr + c.dir else c.curr,
                                     if inside then c.dir else -c.dir), false),
                       Notify(Settle(c.curr, v)))
  {
  }

  /** The state the i-th render of a sweep starts from: the current node k updates in. */
  function InFlight(s: System, k: nat): System
    requires WellFormed(s.chain)
  {
    var c := s.chain;
    System(c.(scales := c.scales[c.curr := Sweeping(c.scales[c.curr].prevScale, k)]), true)
  }

  /** The animator is off and the current node rests on 0 or 1. */
  predicate Ready(s: System) {
    WellFormed(s.chain) && !s.animated && Inv(s.chain.scales[s.chain.curr])
    && Idle(s.chain.scales[s.chain.curr])
  }

  /** A tap on an idle renderer starts the current node's sweep. */
  lemma TapIdle(s: System)
    requires Ready(s)
    ensures TapStep(s).system == InFlight(s, 0)
  {
    BeginResting(s.chain.scales[s.chain.curr]);
  }

  /** While a sweep is in flight, renders only move the current node's scale. */
  lemma {:induction false} RendersSweeping(s: System, k: nat)
    requires WellFormed(s.chain)
    requires s.chain.scales[s.chain.curr].prevScale == 0.0 || s.chain.scales[s.chain.curr].prevScale == 1.0
    requires k <= 10
    ensures Renders(InFlight(s, 0), k) == Session(InFlight(s, k), [])
  {
    if k > 0 {
      RendersSweeping(s, k - 1);
      RendersAppend(InFlight(s, 0), k - 1);
      var c := s.chain;
      var p := c.scales[c.curr].prevScale;
      AdvanceSweeping(p, k - 1);
      var before := InFlight(s, k - 1).chain;
      assert before.scales[before.curr] == Sweeping(p, k - 1);
      RenderUnsettled(before);
      var after := before.(scales := before.scales[before.curr := Sweeping(p, k)]);
      assert after == InFlight(s, k).chain;
      assert RenderStep(InFlight(s, k - 1)) == Rendered(InFlight(s, k), None);
    }
  }

  /** The render that ends a sweep: the eleventh in exact arithmetic. */
  lemma LastRender(s: System)
    requires WellFormed(s.chain)
    requires s.chain.scales[s.chain.curr].prevScale == 0.0 || s.chain.scales[s.chain.curr].prevScale == 1.0
    ensures RenderStep(InFlight(s, 10)) == Rendered(Swept(s), Some(SweepNotice(s)))
  {
    var c := s.chain;
    var p := c.scales[c.curr].prevScale;
    AdvanceSweeping(p, 10);
    var before := InFlight(s, 10).chain;
    assert before.scales[before.curr] == Sweeping(p, 10);
    RenderSettled(before, 1.0 - p);
    assert before.scales[before.curr := RestingAt(1.0 - p)] == c.scales[c.curr := RestingAt(1.0 - p)];
  }

  /** One more render after a quiet run appends its callback, if any. */
  lemma RendersAppend(x: System, k: nat)
    requires WellFormed(x.chain)
    ensures var t := Renders(x, k);
            var r := RenderStep(t.system);
            Renders(x, k + 1) == Session(r.system, t.notices + if r.notice.Some? then [r.notice.value] else [])
  {
  }

  /** The eleventh render of a sweep settles it, fires its callback and stops the animator. */
  lemma SweepSettles(s: System)
    requires WellFormed(s.chain)
    requires s.chain.scales[s.chain.curr].prevScale == 0.0 || s.chain.scales[s.chain.curr].prevScale == 1.0
    ensures Renders(InFlight(s, 0), 11) == Session(Swept(s), [SweepNotice(s)])
  {
    RendersSweeping(s, 10);
    LastRender(s);
    RendersAppend(InFlight(s, 0), 10);
  }

  /**
   * Tapping an idle renderer and then repainting: in exact arithmetic the eleventh repaint
   * settles the sweep, fires its one callback and stops the animator.
   */
  lemma SweepOnce(s: System)
    requires Ready(s)
    ensures Renders(TapStep(s).system, 11) == Session(Swept(s), [SweepNotice(s)])
  {
    TapIdle(s);
    SweepSettles(s);
  }

  /** After a sweep the renderer is idle and consistent again. */
  lemma SweptConsistent(s: System)
    requires Consistent(s) && !s.animated
    ensures Consistent(Swept(s))
  {
    var c := s.chain;
    var w := Swept(s);
    assert Inv(c.scales[c.curr]);
    forall k | 0 <= k < Nodes
      ensures Inv(w.chain.scales[k]) && Idle(w.chain.scales[k])
    {
      assert k != c.curr ==> w.chain.scales[k] == c.scales[k];
    }
  }

  /** k rounds of: a tap, then eleven repaints. */
  function Rounds(s: System, k: nat): (r: Session)
    requires WellFormed(s.chain)
    ensures WellFormed(r.system.chain)
    decreases k
  {
    if k == 0 then Session(s, [])
    else
      var t := Rounds(s, k - 1);
      var r := Renders(TapStep(t.system).system, 11);
      Session(r.system, t.notices + r.notices)
  }

  /** Every node at rest, the first m on 1 and the rest on 0. */
  function Filled(m: nat): seq<ScaleState> {
    seq(Nodes, k => RestingAt(if k < m then 1.0 else 0.0))
  }

  /** After k forward sweeps (k <= nodes); the last node reverses `dir` and stays. */
  function Forward(k: nat): System
    requires k <= Nodes
  {
    System(Config(Filled(k), if k < Nodes then k else Nodes - 1, if k < Nodes then 1 else -1), false)
  }

  /** After all forward sweeps and j backward ones (j <= nodes). */
  function Backward(j: nat): System
    requires j <= Nodes
  {
    System(Config(Filled(Nodes - j), if j < Nodes then Nodes - 1 - j else 0, if j < Nodes then -1 else 1), false)
  }

  /** Where the renderer is after n tap-and-sweep rounds from creation (n <= 2 * nodes). */
  function Phase(n: nat): System
    requires n <= 2 * Nodes
  {
    if n <= Nodes then Forward(n) else Backward(n - Nodes)
  }

  /**
   * The callback fired by round i + 1: `onComplete(i)` on the way out, then
   * `onReset(nodes-1)`, ..., `onReset(0)` on the way back.
   */
  function NoticeAt(i: nat): Notice
    requires i < 2 * Nodes
  {
    if i < Nodes then OnComplete(i) else OnReset(2 * Nodes - 1 - i)
  }

  /** The callbacks of the first n rounds, in order. */
  function Notices(n: nat): seq<Notice>
    requires n <= 2 * Nodes
  {
    if n == 0 then [] else Notices(n - 1) + [NoticeAt(n - 1)]
  }

  lemma {:induction false} NoticesAt(n: nat)
    requires n <= 2 * Nodes
    ensures |Notices(n)| == n
    ensures forall i :: 0 <= i < n ==> Notices(n)[i] == NoticeAt(i)
  {
    if n > 0 {
      NoticesAt(n - 1);
    }
  }

  lemma FilledAt(m: nat, k: nat)
    requires k < Nodes
    ensures |Filled(m)| == Nodes
    ensures Filled(m)[k] == RestingAt(if k < m then 1.0 else 0.0)
  {
  }

  lemma FilledNone()
    ensures Filled(0) == seq(Nodes, _ => Origin)
  {
    forall k | 0 <= k < Nodes
      ensures Filled(0)[k] == Origin
    {
      FilledAt(0, k);
    }
  }

  /** One more round after k rounds. */
  lemma RoundsAppend(x: System, k: nat)
    requires WellFormed(x.chain)
    ensures var t := Rounds(x, k);
            var r := Renders(TapStep(t.system).system, 11);
            Rounds(x, k + 1) == Session(r.system, t.notices + r.notices)
  {
  }

  /** Round k, started from a ready renderer, is one reference sweep. */
  lemma RoundStep(x: System, k: nat, s: System, ns: seq<Notice>, t: System, e: Notice)
    requires WellFormed(x.chain) && 0 < k && Ready(s) && Swept(s) == t && SweepNotice(s) == e
    ensures Rounds(x, k - 1) == Session(s, ns) ==> Rounds(x, k) == Session(t, ns + [e])
  {
    if Rounds(x, k - 1) == Session(s, ns) {
      SweepOnce(s);
      RoundsAppend(x, k - 1);
    }
  }

  /** The k-th forward sweep fills node k - 1 and fires `onComplete(k - 1)`. */
  lemma ForwardStep(k: nat)
    requires 0 < k <= Nodes
    ensures Ready(Forward(k - 1))
    ensures Swept(Forward(k - 1)) == Forward(k)
    ensures SweepNotice(Forward(k - 1)) == OnComplete(k - 1)
  {
    FilledAt(k - 1, k - 1);
    assert Filled(k - 1)[k - 1 := RestingAt(1.0)] == Filled(k);
  }

  /** The j-th backward sweep empties node nodes - j and fires `onReset(nodes - j)`. */
  lemma BackwardStep(j: nat)
    requires 0 < j <= Nodes
    ensures Ready(Backward(j - 1))
    ensures Swept(Backward(j - 1)) == Backward(j)
    ensures SweepNotice(Backward(j - 1)) == OnReset(Nodes - j)
  {
    FilledAt(Nodes - j + 1, Nodes - j);
    assert Filled(Nodes - j + 1)[Nodes - j := RestingAt(0.0)] == Filled(Nodes - j);
  }

  /** Round n takes the renderer from phase n - 1 to phase n and fires the n-th callback. */
  lemma PhaseStep(n: nat)
    requires 0 < n <= 2 * Nodes
    ensures Ready(Phase(n - 1))
    ensures Swept(Phase(n - 1)) == Phase(n)
    ensures SweepNotice(Phase(n - 1)) == NoticeAt(n - 1)
  {
    if n <= Nodes {
      ForwardStep(n);
    } else {
      BackwardStep(n - Nodes);
      if n == Nodes + 1 {
        assert Forward(Nodes) == Backward(0);
      }
    }
  }

  /** `Rounds(x, k)` ends in r. */
  predicate Reaches(x: System, k: nat, r: Session)
    requires WellFormed(x.chain)
  {
    Rounds(x, k) == r
  }

  /** Before any round the renderer is in phase 0 and nothing has fired. */
  lemma CycleStart(x: System)
    requires x == InitialSystem()
    ensures Reaches(x, 0, Session(Phase(0), Notices(0)))
  {
    FilledNone();
  }

  lemma {:induction false} CycleRounds(x: System, n: nat)
    requires x == InitialSystem()
    requires n <= 2 * Nodes
    ensures Reaches(x, n, Session(Phase(n), Notices(n)))
  {
    if n == 0 {
      CycleStart(x);
    } else {
      CycleRounds(x, n - 1);
      PhaseStep(n);
      RoundStep(x, n, Phase(n - 1), Notices(n - 1), Phase(n), NoticeAt(n - 1));
    }
  }

  /**
   * From creation, 2 * nodes tap-and-sweep rounds walk the chain forward and back: each
   * end node sweeps twice in a row and the renderer is back where it started.
   */
  lemma FullCycle()
    ensures Rounds(InitialSystem(), 2 * Nodes).system == InitialSystem()
  {
    CycleRounds(InitialSystem(), 2 * Nodes);
    FilledNone();
  }

  /**
   * The callbacks of the first n of those rounds, one per round: `onComplete(0..nodes-1)`
   * on the way out, then `onReset(nodes-1..0)` on the way back.
   */
  lemma CycleNotices(n: nat)
    requires n <= 2 * Nodes
    ensures var ns := Rounds(InitialSystem(), n).notices;
            && |ns| == n
            && (forall i :: 0 <= i < n && i < Nodes ==> ns[i] == OnComplete(i))
            && (forall i :: Nodes <= i < n ==> ns[i] == OnReset(2 * Nodes - 1 - i))
  {
    CycleRounds(InitialSystem(), n);
    NoticesAt(n);
  }

  /** The source's `Renderer`: the animator and the sequencer it drives. */
  class Renderer {
    const animator: Animator
    const lrtl: LinkedRingToLine
    ghost var Repr: set<object>

    ghost predicate Valid()
      reads this, Repr
    {
      && this in Repr && animator in Repr && lrtl in Repr
      && lrtl.Repr <= Repr && this !in lrtl.Repr && animator !in lrtl.Repr
      && lrtl.Valid()
    }

    ghost function Model(): System
      reads this, lrtl, animator
    {
      System(lrtl.Model(), animator.animated)
    }

    constructor ()
      ensures Valid() && fresh(Repr)
      ensures Model() == InitialSystem()
    {
      animator := new Animator();
      lrtl := new LinkedRingToLine();
      new;
      Repr := {this, animator} + lrtl.Repr;
    }

    /**
     * `render`: the chain is drawn first, from the state before this repaint's update; the
     * listener callback it would fire is returned.
     */
    method Render() returns (calls: seq<DrawCall>, notice: Option<Notice>)
      requires Valid()
      modifies Repr
      ensures Valid() && Repr == old(Repr)
      ensures calls == Drawn(old(Model()).chain.scales, 0)
      ensures Rendered(Model(), notice) == RenderStep(old(Model()))
    {
      calls := lrtl.Draw();
      notice := None;
      var fire := animator.Animate();
      if fire {
        var settled := lrtl.Update();
        if settled.Some? {
          animator.Stop();
          notice := Notify(settled.value);
        }
      }
    }

    /** `handleTap`; `repaint` says whether starting the animator requested a repaint. */
    method HandleTap() returns (repaint: bool)
      requires Valid()
      modifies Repr
      ensures Valid() && Repr == old(Repr)
      ensures Tapped(Model(), repaint) == TapStep(old(Model()))
    {
      var started := lrtl.StartUpdating();
      if started {
        repaint := animator.Start();
      } else {
        repaint := false;
      }
    }
  }
}
