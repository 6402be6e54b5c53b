/**
 * The source's `Animator`: an on/off flag that gates the per-repaint callback.  The
 * 50 ms sleep and the repaint requests are not modelled; each operation instead says
 * whether it would request a repaint.
 */
module Ticker {
  class Animator {
    var animated: bool

    constructor ()
      ensures !animated
    {
      animated := false;
    }

    /** `animate`: whether the callback runs (and a repaint follows) on this call. */
    method Animate() returns (fire: bool)
      ensures fire == animated
    {
      fire := animated;
    }

    /** `start`: switch on; a repaint is requested only when the flag was off. */
    method Start() returns (repaint: bool)
      modifies this
      ensures animated
      ensures repaint == !old(animated)
    {
      if !animated {
        animated := true;
        repaint := true;
      } else {
        repaint := false;
      }
    }

    /** `stop`: switch off. */
    method Stop()
      modifies this
      ensures !animated
    {
      if animated {
        animated := false;
      }
    }
  }
}
