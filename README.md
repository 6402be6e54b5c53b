# LinkedRingToLineView — a verified model of its animation core

`LinkedRingToLineView` is an Android view. It draws a chain of five rings. On a tap, the
current ring animates: it first slides from the top-left slot into its own slot, then
flattens into a line. When that ring's animation settles, the next ring becomes current.
At either end of the chain the direction reverses, so the same rings unfold again in the
opposite order. Each settle fires a listener callback: `onComplete(i)` when ring i
reaches 1 and `onReset(i)` when it comes back to 0.

The model follows the source's layers. There is one module per layer, and `Base` holds
`nodes = 5` and an `Option` type.

- `Progress`: the per-ring `State` (`scale`, `prevScale`, `dir`).
  - `Advance` and `Begin` give the meaning of `update` and `startUpdating` on values.
  - The class `State` holds the three mutable fields. Its methods are proved equal to those functions.
  - A callback becomes a returned value: the settled scale, or whether the shape started.
- `Chain`: the `LRLNode` chain and the `LinkedRingToLine` sequencer.
  - Nodes are named by their index, and `next`/`prev` links hold indices.
  - `Build` mirrors the recursive construction in `init`/`addNeighbor`.
  - `ChainAdvance` and `ChainBegin` give the meaning of the sequencer's `update` and `startUpdating`.
  - The class `LinkedRingToLine` holds one `State` object per node, plus `curr` and `dir`.
  - Its `Draw`/`DrawFrom` methods follow `next` the way `LRLNode.draw` does.
- `Ticker`: the `Animator` on/off flag.
- `View`: the `Renderer`.
  - `RenderStep` and `TapStep` give the meaning of `render` and `handleTap` on a `System` value (sequencer plus animator flag).
  - The class `Renderer` drives an `Animator` and a `LinkedRingToLine` object.
  - Whole sessions are followed from creation: a tap followed by repaints, and the full forward-and-back pass over the chain.
- `Drawing`: the pure arithmetic of `drawLRLNode`, meaning the half-phase factors `sc1`/`sc2` and the translation.

Scales are `real` numbers, so the arithmetic is exact. The snapped values 0 and 1 are
exact in the source as well, so the `when (scl)` dispatch is modelled faithfully. The
number of updates a sweep takes is a property of exact arithmetic (see "Left out").

At a chain end, `getNext` returns the node itself and flips `dir`. The end node therefore
sweeps twice in a row: out, then straight back. A full forward-and-back pass over five
nodes takes 2·5 = 10 tap-and-sweep rounds, not 2·(5−1). The model follows the code here
(`View.FullCycle`, `View.CycleNotices`).

## Model

| member | source | states |
|---|---|---|
| Drawing.Sc1 | linkedringtolineview/src/main/java/com/anwesh/uiprojects/linkedringtolineview/LinkedRingToLineView.kt:21 | `sc1` lies in [0,1] for a scale in [0,1]; it is exactly 1 from scale 0.5 on and is 2·scale below that |
| Drawing.Sc2 | linkedringtolineview/src/main/java/com/anwesh/uiprojects/linkedringtolineview/LinkedRingToLineView.kt:22 | `sc2` lies in [0,1] for a scale in [0,1]; it is 0 up to scale 0.5, 2·scale−1 between 0.5 and 1, and 1 from 1 on |
| Drawing.HalfPhases | linkedringtolineview/src/main/java/com/anwesh/uiprojects/linkedringtolineview/LinkedRingToLineView.kt:21-22 | the two half phases never overlap: `sc2` is non-zero only once `sc1` is 1, and `sc1` < 1 forces `sc2` = 0 |
| Drawing.Translate | linkedringtolineview/src/main/java/com/anwesh/uiprojects/linkedringtolineview/LinkedRingToLineView.kt:23-29 | at scale 0 every ring sits at (gap/2, gap/2); from scale 0.5 on, ring i sits at (gap/2 + i·gap, h/2) |
| Drawing.TranslateWithin | linkedringtolineview/src/main/java/com/anwesh/uiprojects/linkedringtolineview/LinkedRingToLineView.kt:29 | for scale in [0,1], ring i's x offset stays in [gap/2, gap/2 + i·gap] and its y offset in [gap/2, h/2] |
| Progress.AdvanceSpec | linkedringtolineview/src/main/java/com/anwesh/uiprojects/linkedringtolineview/LinkedRingToLineView.kt:69-77 | without a settle, only `scale` changes, by 0.1·dir; a settle leaves the shape at rest on the value it reports; the invariant (prevScale ∈ {0,1}, dir ∈ {−1,0,1}, resting or moving away from prevScale inside [0,1]) is preserved; an idle update is a no-op; a sweep settles exactly when the moved scale leaves [0,1], on 1 − prevScale |
| Progress.BeginSpec | linkedringtolineview/src/main/java/com/anwesh/uiprojects/linkedringtolineview/LinkedRingToLineView.kt:79-84 | the callback fires exactly when dir = 0; otherwise nothing changes; `scale`/`prevScale` never change; from rest the new dir is +1 from 0 and −1 from 1; the invariant is preserved |
| Progress.BeginResting | linkedringtolineview/src/main/java/com/anwesh/uiprojects/linkedringtolineview/LinkedRingToLineView.kt:79-84 | starting a shape at rest on p puts it at step 0 of a sweep away from p |
| Progress.AdvanceSweeping | linkedringtolineview/src/main/java/com/anwesh/uiprojects/linkedringtolineview/LinkedRingToLineView.kt:69-77 | in exact arithmetic, each of the first ten updates into a sweep moves scale by one tenth without settling, and the eleventh settles on 1 − p |
| Progress.RunSweeping | linkedringtolineview/src/main/java/com/anwesh/uiprojects/linkedringtolineview/LinkedRingToLineView.kt:69-84 | k ≤ 10 updates after a start from rest reach step k of the sweep and report nothing |
| Progress.Sweep | linkedringtolineview/src/main/java/com/anwesh/uiprojects/linkedringtolineview/LinkedRingToLineView.kt:69-84 | k ≥ 11 updates after a start from rest at p leave the shape at rest on 1 − p, having reported 1 − p exactly once |
| Progress.State.constructor | linkedringtolineview/src/main/java/com/anwesh/uiprojects/linkedringtolineview/LinkedRingToLineView.kt:67 | a default `State()` has all three fields 0 |
| Progress.State.Update | linkedringtolineview/src/main/java/com/anwesh/uiprojects/linkedringtolineview/LinkedRingToLineView.kt:69-77 | the in-place update produces exactly `Advance` of the old fields, and returns the value its callback receives |
| Progress.State.StartUpdating | linkedringtolineview/src/main/java/com/anwesh/uiprojects/linkedringtolineview/LinkedRingToLineView.kt:79-84 | the in-place start produces exactly `Begin` of the old fields, and returns whether its callback fires |
| Chain.BuildShape | linkedringtolineview/src/main/java/com/anwesh/uiprojects/linkedringtolineview/LinkedRingToLineView.kt:120-129 | the nodes created by `LRLNode(i)` are i..nodes−1 in order; each `next` is one further, each `prev` one back, the first `prev` is the one the parent set, and the last has no `next` |
| Chain.Topology | linkedringtolineview/src/main/java/com/anwesh/uiprojects/linkedringtolineview/LinkedRingToLineView.kt:114-129 | the chain built from `LRLNode(0)` has indices 0..nodes−1; node 0 has no `prev` and node nodes−1 has no `next`; `next` and `prev` are inverse to each other |
| Chain.GetNextOnChain | linkedringtolineview/src/main/java/com/anwesh/uiprojects/linkedringtolineview/LinkedRingToLineView.kt:146-156 | `getNext` returns node k+1 for dir = 1 and k−1 otherwise; at the matching end it fires its callback and returns the node itself |
| Chain.ChainAdvance | linkedringtolineview/src/main/java/com/anwesh/uiprojects/linkedringtolineview/LinkedRingToLineView.kt:169-176 | the sequencer update keeps `curr` a chain member and `dir` ±1 |
| Chain.ChainAdvanceSpec | linkedringtolineview/src/main/java/com/anwesh/uiprojects/linkedringtolineview/LinkedRingToLineView.kt:169-176 | only the current node's progress changes, by one update; `curr`/`dir` change only on a settle; then `curr` moves by `dir`, except at an end, where exactly `dir` reverses and `curr` stays; the event names the node that settled |
| Chain.ChainBegin | linkedringtolineview/src/main/java/com/anwesh/uiprojects/linkedringtolineview/LinkedRingToLineView.kt:178-180 | a sequencer start keeps `curr` a chain member and `dir` ±1 |
| Chain.ChainBeginSpec | linkedringtolineview/src/main/java/com/anwesh/uiprojects/linkedringtolineview/LinkedRingToLineView.kt:178-180 | a start touches only the current node, and fires exactly when that node is idle |
| Chain.DrawnOrder | linkedringtolineview/src/main/java/com/anwesh/uiprojects/linkedringtolineview/LinkedRingToLineView.kt:131-134 | drawing from node k calls `drawLRLNode` once for each node k..nodes−1, in index order, with that node's scale |
| Chain.NewStates | linkedringtolineview/src/main/java/com/anwesh/uiprojects/linkedringtolineview/LinkedRingToLineView.kt:114 | each node gets its own fresh default `State()` |
| Chain.LinkedRingToLine.constructor | linkedringtolineview/src/main/java/com/anwesh/uiprojects/linkedringtolineview/LinkedRingToLineView.kt:159-163 | a new sequencer has every node at rest on 0, the root current and `dir` = 1 |
| Chain.LinkedRingToLine.Draw | linkedringtolineview/src/main/java/com/anwesh/uiprojects/linkedringtolineview/LinkedRingToLineView.kt:165-167 | `draw` makes exactly the draw calls of the chain from the root |
| Chain.LinkedRingToLine.DrawFrom | linkedringtolineview/src/main/java/com/anwesh/uiprojects/linkedringtolineview/LinkedRingToLineView.kt:131-134 | the recursive `LRLNode.draw` on node k makes exactly the draw calls from k on |
| Chain.LinkedRingToLine.UpdateCurrent | linkedringtolineview/src/main/java/com/anwesh/uiprojects/linkedringtolineview/LinkedRingToLineView.kt:136-140 | `LRLNode.update` on the current node: that node's progress takes exactly one `Advance`, the settled value is passed on, and no other node, `curr` or `dir` changes |
| Chain.LinkedRingToLine.Update | linkedringtolineview/src/main/java/com/anwesh/uiprojects/linkedringtolineview/LinkedRingToLineView.kt:169-176 | the in-place update produces exactly `ChainAdvance` of the old state and keeps the object invariant |
| Chain.LinkedRingToLine.StartUpdating | linkedringtolineview/src/main/java/com/anwesh/uiprojects/linkedringtolineview/LinkedRingToLineView.kt:178-180 | the in-place start produces exactly `ChainBegin` of the old state and keeps the object invariant |
| Ticker.Animator.constructor | linkedringtolineview/src/main/java/com/anwesh/uiprojects/linkedringtolineview/LinkedRingToLineView.kt:87 | a new animator is off |
| Ticker.Animator.Animate | linkedringtolineview/src/main/java/com/anwesh/uiprojects/linkedringtolineview/LinkedRingToLineView.kt:88-98 | the callback runs exactly when the animator is on |
| Ticker.Animator.Start | linkedringtolineview/src/main/java/com/anwesh/uiprojects/linkedringtolineview/LinkedRingToLineView.kt:100-105 | afterwards the animator is on; a repaint is requested exactly when it was off |
| Ticker.Animator.Stop | linkedringtolineview/src/main/java/com/anwesh/uiprojects/linkedringtolineview/LinkedRingToLineView.kt:107-111 | afterwards the animator is off |
| View.RenderStep | linkedringtolineview/src/main/java/com/anwesh/uiprojects/linkedringtolineview/LinkedRingToLineView.kt:188-200 | a render keeps the sequencer well formed |
| View.RenderStepSpec | linkedringtolineview/src/main/java/com/anwesh/uiprojects/linkedringtolineview/LinkedRingToLineView.kt:188-200 | with the animator off a render changes nothing; with it on, it does exactly one sequencer update; the animator stays on exactly when that update did not settle; a callback fires only on a settle, with the settled node's index |
| View.TapStep | linkedringtolineview/src/main/java/com/anwesh/uiprojects/linkedringtolineview/LinkedRingToLineView.kt:202-206 | a tap keeps the sequencer well formed |
| View.TapStepSpec | linkedringtolineview/src/main/java/com/anwesh/uiprojects/linkedringtolineview/LinkedRingToLineView.kt:202-206 | a tap starts the current node; the animator ends up on exactly when it was on or that node was idle; a repaint is requested exactly when it goes from off to on |
| View.InitialConsistent | linkedringtolineview/src/main/java/com/anwesh/uiprojects/linkedringtolineview/LinkedRingToLineView.kt:183-186 | the renderer as created is consistent: every node satisfies the progress invariant, only `curr` may be mid-sweep, and the animator runs exactly while it is |
| View.RenderKeeps | linkedringtolineview/src/main/java/com/anwesh/uiprojects/linkedringtolineview/LinkedRingToLineView.kt:188-200 | a render preserves consistency, and it fires `onComplete(curr)` for a sweep up from 0 and `onReset(curr)` for one down from 1, exactly when the current node settles |
| View.TapKeeps | linkedringtolineview/src/main/java/com/anwesh/uiprojects/linkedringtolineview/LinkedRingToLineView.kt:202-206 | a tap preserves consistency, and a tap during a sweep changes nothing |
| View.RenderUnsettled | linkedringtolineview/src/main/java/com/anwesh/uiprojects/linkedringtolineview/LinkedRingToLineView.kt:188-200 | a render in which the current node does not settle only moves that node's scale and keeps the animator on |
| View.RenderSettled | linkedringtolineview/src/main/java/com/anwesh/uiprojects/linkedringtolineview/LinkedRingToLineView.kt:188-200 | a render in which the current node settles on v updates that node, moves `curr`/`dir` as at a settle, stops the animator and fires the callback for v |
| View.TapIdle | linkedringtolineview/src/main/java/com/anwesh/uiprojects/linkedringtolineview/LinkedRingToLineView.kt:202-206 | a tap on an idle renderer starts the current node's sweep and switches the animator on |
| View.RendersSweeping | linkedringtolineview/src/main/java/com/anwesh/uiprojects/linkedringtolineview/LinkedRingToLineView.kt:188-200 | during the first ten repaints of a sweep only the current node's scale moves, and no callback fires |
| View.LastRender | linkedringtolineview/src/main/java/com/anwesh/uiprojects/linkedringtolineview/LinkedRingToLineView.kt:188-200 | the eleventh repaint settles the sweep, moves `curr`/`dir`, stops the animator and fires the sweep's callback |
| View.SweepSettles | linkedringtolineview/src/main/java/com/anwesh/uiprojects/linkedringtolineview/LinkedRingToLineView.kt:188-200 | eleven repaints in a sweep end exactly as the reference `Swept`, with the one callback `SweepNotice` |
| View.SweepOnce | linkedringtolineview/src/main/java/com/anwesh/uiprojects/linkedringtolineview/LinkedRingToLineView.kt:188-206 | a tap on an idle renderer followed by eleven repaints ends as `Swept` and fires exactly one callback |
| View.SweptConsistent | linkedringtolineview/src/main/java/com/anwesh/uiprojects/linkedringtolineview/LinkedRingToLineView.kt:188-206 | after a whole sweep the renderer is idle and consistent again |
| View.RoundStep | linkedringtolineview/src/main/java/com/anwesh/uiprojects/linkedringtolineview/LinkedRingToLineView.kt:188-206 | a tap-and-sweep round from a ready renderer appends one reference sweep to the session |
| View.ForwardStep | linkedringtolineview/src/main/java/com/anwesh/uiprojects/linkedringtolineview/LinkedRingToLineView.kt:169-176 | the k-th forward sweep fills node k−1 and fires `onComplete(k−1)`; after the last node `dir` reverses and `curr` stays |
| View.BackwardStep | linkedringtolineview/src/main/java/com/anwesh/uiprojects/linkedringtolineview/LinkedRingToLineView.kt:169-176 | the j-th backward sweep empties node nodes−j and fires `onReset(nodes−j)`; after node 0, `dir` reverses again |
| View.PhaseStep | linkedringtolineview/src/main/java/com/anwesh/uiprojects/linkedringtolineview/LinkedRingToLineView.kt:169-206 | round n takes the renderer from phase n−1 to phase n and fires the n-th callback of the pass |
| View.CycleStart | linkedringtolineview/src/main/java/com/anwesh/uiprojects/linkedringtolineview/LinkedRingToLineView.kt:159-163 | the renderer as created is phase 0 of the pass |
| View.CycleRounds | linkedringtolineview/src/main/java/com/anwesh/uiprojects/linkedringtolineview/LinkedRingToLineView.kt:169-206 | after n ≤ 2·nodes rounds from creation the renderer is in phase n and has fired the first n callbacks of the pass |
| View.FullCycle | linkedringtolineview/src/main/java/com/anwesh/uiprojects/linkedringtolineview/LinkedRingToLineView.kt:169-206 | 2·nodes rounds from creation bring the renderer back to its initial state |
| View.CycleNotices | linkedringtolineview/src/main/java/com/anwesh/uiprojects/linkedringtolineview/LinkedRingToLineView.kt:188-200 | the callbacks of those rounds are `onComplete(0)`..`onComplete(nodes−1)` and then `onReset(nodes−1)`..`onReset(0)`, one per round |
| View.Renderer.constructor | linkedringtolineview/src/main/java/com/anwesh/uiprojects/linkedringtolineview/LinkedRingToLineView.kt:183-186 | a new renderer is the initial system: every node at rest on 0, root current, `dir` = 1, animator off |
| View.Renderer.Render | linkedringtolineview/src/main/java/com/anwesh/uiprojects/linkedringtolineview/LinkedRingToLineView.kt:188-200 | `render` draws the chain from the state before the update, then produces exactly `RenderStep` of the old state, returning the callback it fires |
| View.Renderer.HandleTap | linkedringtolineview/src/main/java/com/anwesh/uiprojects/linkedringtolineview/LinkedRingToLineView.kt:202-206 | `handleTap` produces exactly `TapStep` of the old state, returning whether a repaint was requested |

## Left out

- The drawing itself is not modelled: the Canvas, Paint and Path calls in `drawLRLNode` (lines 24-41), the 0..360 cos/sin path loop, the ring's `(1 − sc2)` half-height, and the background colour in `render`. These are platform drawing and floating-point trigonometry. `render` returns the `drawLRLNode(i, scale)` calls it would make, and `Drawing` covers the `sc1`/`sc2`/translate formulas.
- `Thread.sleep(50)`, `invalidate()`/`postInvalidate()` and the swallowed exception in `animate` are timing and repaint plumbing. `Animator.Start` and `Renderer.HandleTap` return a `repaint` flag instead.
- `onTouchEvent`, `create`, `addAnimationListener` and the app's `MainActivity` are Android event and view wiring. A tap is `Renderer.HandleTap` and a repaint is `Renderer.Render`.
- The listener is nullable in the source (`animationListener?`). The model returns the callback that would fire; a caller with no listener drops it.
- `LinkedRingToLine`'s constructor parameter `i` is never read by the source, so it is left out.
- Object references are not modelled: `next`/`prev`/`curr` are node indices, so aliasing between nodes is not modelled. Each node's `State` is its own object (`Chain.NewStates`), and the sequencer updates it in place.
- Progress.AdvanceSweeping: the eleven-update sweep length holds only in exact arithmetic. It is not a claim about Kotlin `Float` arithmetic, where repeated `0.1f` steps may pass the `> 1` test after ten updates.
- Progress.RunSweeping: the same exact-arithmetic step count as `AdvanceSweeping`.
- Progress.Sweep: the same exact-arithmetic step count as `AdvanceSweeping`. The single report of 1 − p and the end state do not depend on the count.
- View.RendersSweeping: the same exact-arithmetic step count as `AdvanceSweeping`.
- View.LastRender: the same exact-arithmetic step count as `AdvanceSweeping`.
- View.SweepSettles: the same exact-arithmetic step count as `AdvanceSweeping`.
- View.SweepOnce: the session length of eleven repaints per sweep is the exact-arithmetic count.
- View.CycleRounds: each round has eleven repaints, the exact-arithmetic count. The order of the phases and callbacks does not depend on it.
- View.FullCycle: each of its rounds has eleven repaints, the exact-arithmetic count.
- View.CycleNotices: each of its rounds has eleven repaints, the exact-arithmetic count.
