/**
 * The chain of shapes (`LRLNode`) and the sequencer over it (`LinkedRingToLine`).
 * Each node is named by its index; a link to a neighbour holds the neighbour's index
 * (`None` for a null link).  `Config` is the sequencer's state as a value and
 * `ChainAdvance`/`ChainBegin` give the meaning of its two operations; the class
 * `LinkedRingToLine` holds one `State` object per node and updates them in place.
 */
module Chain {
  import opened Base
  import opened Progress

  /** One `LRLNode`: its index and its `next`/`prev` links. */
  datatype Node = Node(i: nat, next: Option<nat>, prev: Option<nat>)

  /**
   * The nodes that `LRLNode(i)` creates, with `prev` already set by its parent: `init`
   * calls `addNeighbor`, which (for i < nodes - 1) creates `LRLNode(i + 1)` in turn and
   * points that node's `prev` back at this one.
   */
  function Build(i: nat, prev: Option<nat>): seq<Node>
    decreases Nodes - i
  {
    if i < Nodes - 1 then [Node(i, Some(i + 1), prev)] + Build(i + 1, Some(i))
    else [Node(i, None, prev)]
  }

  lemma {:induction false} BuildShape(i: nat, prev: Option<nat>)
    requires i < Nodes
    ensures |Build(i, prev)| == Nodes - i
    ensures Build(i, prev)[0].prev == prev
    ensures forall k :: 0 <= k < Nodes - i ==> Build(i, prev)[k].i == i + k
    ensures forall k :: 0 <= k < Nodes - i - 1 ==> Build(i, prev)[k].next == Some(i + k + 1)
    ensures Build(i, prev)[Nodes - i - 1].next == None
    ensures forall k :: 0 < k < Nodes - i ==> Build(i, prev)[k].prev == Some(i + k - 1)
    decreases Nodes - i
  {
    if i < Nodes - 1 {
      BuildShape(i + 1, Some(i));
      var rest := Build(i + 1, Some(i));
      assert Build(i, prev) == [Node(i, Some(i + 1), prev)] + rest;
      forall k | 0 < k < Nodes - i
        ensures Build(i, prev)[k] == rest[k - 1]
      {
      }
    }
  }

  /**
   * The chain built from `LRLNode(0)`: nodes 0 .. nodes-1 in order, each `next` one
   * further and each `prev` one back, with no `prev` on the first node and no `next` on
   * the last; so `next` and `prev` are inverse to each other.
   */
  function Topology(): (t: seq<Node>)
    ensures |t| == Nodes
    ensures forall k :: 0 <= k < Nodes ==> t[k].i == k
    ensures forall k :: 0 <= k < Nodes ==> t[k].next == if k < Nodes - 1 then Some(k + 1) else None
    ensures forall k :: 0 <= k < Nodes ==> t[k].prev == if k > 0 then Some(k - 1) else None
    ensures forall k :: 0 <= k < Nodes && t[k].next.Some? ==>
              t[k].next.value < Nodes && t[t[k].next.value].prev == Some(k)
    ensures forall k :: 0 <= k < Nodes && t[k].prev.Some? ==>
              t[k].prev.value < Nodes && t[t[k].prev.value].next == Some(k)
  {
    BuildShape(0, None);
    Build(0, None)
  }

  /** Result of `getNext`: the node returned, and whether the callback fired. */
  datatype Lookup = Lookup(node: nat, missing: bool)

  /** `getNext`: `next` when dir is 1, `prev` otherwise; a null link returns the node itself. */
  function GetNext(n: Node, dir: int): Lookup {
    var link := if dir == 1 then n.next else n.prev;
    match link
    case Some(j) => Lookup(j, false)
    case None => Lookup(n.i, true)
  }

  /** On the built chain, `getNext` moves one index in direction dir, or stays at an end. */
  lemma GetNextOnChain(k: nat, dir: int)
    requires k < Nodes
    ensures GetNext(Topology()[k], dir) ==
              if dir == 1 then (if k < Nodes - 1 then Lookup(k + 1, false) else Lookup(k, true))
              else (if k > 0 then Lookup(k - 1, false) else Lookup(k, true))
  {
  }

  /** The sequencer's state: every node's progress, the current node and the direction. */
  datatype Config = Config(scales: seq<ScaleState>, curr: nat, dir: int)

  /** `curr` is a chain member and `dir` is +1 or -1. */
  predicate WellFormed(c: Config) {
    |c.scales| == Nodes && c.curr < Nodes && (c.dir == 1 || c.dir == -1)
  }

  /** The sequencer at construction: every node at rest on 0, the root current, moving forward. */
  function InitialConfig(): Config { Config(seq(Nodes, _ => Origin), 0, 1) }

  /** A node's settle event: its index and the value it settled on. */
  datatype Settle = Settle(i: nat, value: real)

  datatype Stepped = Stepped(config: Config, settled: Option<Settle>)

  /**
   * `LinkedRingToLine.update`: update the current node; when it settles, move `curr` to
   * its neighbour in direction `dir`, or at an end of the chain reverse `dir` and stay.
   * The event names the node that settled, not the new current node.
   */
  function ChainAdvance(c: Config): (r: Stepped)
    requires WellFormed(c)
    ensures WellFormed(r.config)
  {
    var n := Topology()[c.curr];
    var u := Advance(c.scales[c.curr]);
    var scales := c.scales[c.curr := u.state];
    match u.settled
    case None => Stepped(Config(scales, c.curr, c.dir), None)
    case Some(v) =>
      var l := GetNext(n, c.dir);
      Stepped(Config(scales, l.node, if l.missing then -c.dir else c.dir), Some(Settle(n.i, v)))
  }

  /**
   * What a sequencer update does: only the current node's progress changes, by one update;
   * `curr` and `dir` change only when that node settles, and then `curr` moves one step
   * along `dir`, except at an end of the chain, where exactly `dir` reverses and `curr`
   * stays.  The event reports the node that settled.
   */
  lemma ChainAdvanceSpec(c: Config)
    requires WellFormed(c)
    ensures var r := ChainAdvance(c);
            r.config.scales == c.scales[c.curr := Advance(c.scales[c.curr]).state]
    ensures ChainAdvance(c).settled.None? <==> Advance(c.scales[c.curr]).settled.None?
    ensures var r := ChainAdvance(c);
            r.settled.None? ==> r.config.curr == c.curr && r.config.dir == c.dir
    ensures var r := ChainAdvance(c);
            r.settled.Some? ==> r.settled.value == Settle(c.curr, Advance(c.scales[c.curr]).settled.value)
    ensures var r := ChainAdvance(c);
            var inside := 0 <= c.curr + c.dir < Nodes;
            r.settled.Some? ==>
              r.config.curr == (if inside then c.curr + c.dir else c.curr)
              && (r.config.dir == -c.dir <==> !inside)
              && (r.config.dir == c.dir <==> inside)
  {
    GetNextOnChain(c.curr, c.dir);
  }

  datatype Started = Started(config: Config, started: bool)

  /** `LinkedRingToLine.startUpdating`: start the current node if it is idle. */
  function ChainBegin(c: Config): (r: Started)
    requires WellFormed(c)
    ensures WellFormed(r.config)
  {
    var b := Begin(c.scales[c.curr]);
    Started(c.(scales := c.scales[c.curr := b.state]), b.started)
  }

  /** A start touches only the current node, and fires exactly when that node is idle. */
  lemma ChainBeginSpec(c: Config)
    requires WellFormed(c)
    ensures ChainBegin(c).started <==> Idle(c.scales[c.curr])
    ensures ChainBegin(c).config == c.(scales := c.scales[c.curr := Begin(c.scales[c.curr]).state])
  {
  }

  /** What `drawLRLNode` is called with: the node index and its scale. */
  datatype DrawCall = DrawCall(i: nat, scale: real)

  /** `LRLNode.draw` from node k: draw it, then follow `next`. */
  function Drawn(scales: seq<ScaleState>, k: nat): seq<DrawCall>
    requires |scales| == Nodes && k < Nodes
    decreases Nodes - k
  {
    var n := Topology()[k];
    [DrawCall(n.i, scales[k].scale)]
      + match n.next
        case Some(j) => Drawn(scales, j)
        case None => []
  }

  /** Drawing from node k visits nodes k .. nodes-1 once each, in index order. */
  lemma {:induction false} DrawnOrder(scales: seq<ScaleState>, k: nat)
    requires |scales| == Nodes && k < Nodes
    ensures |Drawn(scales, k)| == Nodes - k
    ensures forall m :: 0 <= m < Nodes - k ==> Drawn(scales, k)[m] == DrawCall(k + m, scales[k + m].scale)
    decreases Nodes - k
  {
    if k < Nodes - 1 {
      DrawnOrder(scales, k + 1);
      var rest := Drawn(scales, k + 1);
      assert Drawn(scales, k) == [DrawCall(k, scales[k].scale)] + rest;
      forall m | 0 < m < Nodes - k
        ensures Drawn(scales, k)[m] == rest[m - 1]
      {
      }
    }
  }

  /** `LRLNode`'s default states: count fresh, distinct `State()` objects. */
  method NewStates(count: nat) returns (ss: seq<State>)
    ensures |ss| == count
    ensures forall k :: 0 <= k < count ==> fresh(ss[k]) && ss[k].Value() == Origin
    ensures forall j, k :: 0 <= j < k < count ==> ss[j] != ss[k]
  {
    if count == 0 {
      ss := [];
    } else {
      var rest := NewStates(count - 1);
      var s := new State();
      ss := [s] + rest;
    }
  }

  /** The source's `LinkedRingToLine`: the chain, `curr` and `dir`. */
  class LinkedRingToLine {
    const nodes: seq<Node>
    const states: seq<State>
    var curr: nat
    var dir: int

    ghost var Scales: seq<ScaleState>
    ghost var Repr: set<object>

    ghost predicate Valid()
      reads this, Repr
    {
      && this in Repr
      && nodes == Topology()
      && |states| == Nodes
      && (forall k :: 0 <= k < |states| ==> states[k] in Repr)
      && (forall j, k :: 0 <= j < k < |states| ==> states[j] != states[k])
      && |Scales| == Nodes
      && (forall k :: 0 <= k < |states| ==> Scales[k] == states[k].Value())
      && WellFormed(Config(Scales, curr, dir))
    }

    ghost function Model(): Config
      reads this
    {
      Config(Scales, curr, dir)
    }

    constructor ()
      ensures Valid() && fresh(Repr)
      ensures Model() == InitialConfig()
    {
      var ss := NewStates(Nodes);
      nodes := Topology();
      states := ss;
      curr := 0;
      dir := 1;
      Scales := seq(Nodes, _ => Origin);
      Repr := {this} + set k | 0 <= k < Nodes :: ss[k];
    }

    /** `draw`: the calls `drawLRLNode` receives, from the root along `next`. */
    method Draw() returns (calls: seq<DrawCall>)
      requires Valid()
      ensures calls == Drawn(Scales, 0)
    {
      calls := DrawFrom(0);
    }

    /** `LRLNode.draw` on node k: draw it, then recurse into `next` if there is one. */
    method DrawFrom(k: nat) returns (calls: seq<DrawCall>)
      requires Valid() && k < Nodes
      ensures calls == Drawn(Scales, k)
      decreases Nodes - k
    {
      var n := nodes[k];
      calls := [DrawCall(n.i, states[k].scale)];
      match n.next
      case Some(j) =>
        var rest := DrawFrom(j);
        calls := calls + rest;
      case None =>
    }

    /** `update`; the event its callback would receive is returned. */
    method Update() returns (settled: Option<Settle>)
      requires Valid()
      modifies Repr
      ensures Valid() && Repr == old(Repr)
      ensures Stepped(Model(), settled) == ChainAdvance(old(Model()))
    {
      var node := nodes[curr];
      var s := UpdateCurrent();
      match s
      case None =>
        settled := None;
      case Some(v) =>
        GetNextOnChain(curr, dir);
        var l := GetNext(node, dir);
        if l.missing {
          dir := -dir;
        }
        curr := l.node;
        settled := Some(Settle(node.i, v));
    }

    /** `curr.update`: the current node's `State` updates in place; nothing else changes. */
    method UpdateCurrent() returns (s: Option<real>)
      requires Valid()
      modifies Repr
      ensures Valid() && Repr == old(Repr)
      ensures curr == old(curr) && dir == old(dir)
      ensures var u := Advance(old(Scales[curr]));
              Scales == old(Scales)[curr := u.state] && s == u.settled
    {
      var st := states[curr];
      s := st.Update();
      Scales := Scales[curr := st.Value()];
      forall k | 0 <= k < |states|
        ensures Scales[k] == states[k].Value()
      {
        if k != curr {
          assert states[k] != st;
        }
      }
    }

    /** `startUpdating`; `started` says whether its callback would fire. */
    method StartUpdating() returns (started: bool)
      requires Valid()
      modifies Repr
      ensures Valid() && Repr == old(Repr)
      ensures Started(Model(), started) == ChainBegin(old(Model()))
    {
      started := states[curr].StartUpdating();
      Scales := Scales[curr := states[curr].Value()];
    }
  }
}
