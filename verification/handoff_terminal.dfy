/** The daemon-side terminal session across a live handoff: who may read the PTY, and when. */
module HandoffTerminal {

  datatype RunState = Running | Quiescing | Quiesced | Released

  /** `pump` is a live read pump; the PTY fields say which descriptor is held. */
  datatype Term = Term(state: RunState, closed: bool, pty: bool, handoffPTY: bool, renderer: bool, pump: bool)

  /** What each fallible system call of BeginHandoff answered. */
  datatype BeginFaults = BeginFaults(descriptorOk: bool, drained: bool, rollbackDup: bool, transferDup: bool)

  const OPENED := Term(Running, false, true, false, true, true)
  const ADOPTED := Term(Running, false, true, false, true, false)

  /** How a begin ends: it may wait for ever for a read pump that was never started. */
  datatype Answer = Began | Refused | Blocks

  predicate AllOk(f: BeginFaults) {
    f.descriptorOk && f.drained && f.rollbackDup && f.transferDup
  }

  function BeginAnswer(t: Term, f: BeginFaults): (r: Answer) {
    if t.closed || !t.pty || t.state != Running || !AllOk(f) then Refused
    else if t.pump then Began else Blocks
  }

  predicate CanBegin(t: Term, f: BeginFaults) {
    BeginAnswer(t, f) == Began
  }

  function Begun(t: Term, f: BeginFaults): (r: Term) {
    match BeginAnswer(t, f)
    case Began => t.(state := Quiesced, pty := false, handoffPTY := true, renderer := false, pump := false)
    case Blocks => t.(state := Quiescing)
    case Refused => t
  }

  function RolledBack(t: Term, rendererStarts: bool): (r: Term) {
    if t.state != Quiesced || !t.handoffPTY then t
    else t.(state := Running, pty := true, handoffPTY := false, renderer := true, pump := rendererStarts)
  }

  /** Releasing drops the spare descriptor. It does not stop a pump that is already running. */
  function ReleasedTerm(t: Term): (r: Term) {
    t.(state := Released, closed := true, handoffPTY := false)
  }

  function Activated(t: Term): (r: Term) {
    if t.pty then t.(pump := true) else t
  }

  class IsolatedTerminal {
    var state: RunState
    var closed: bool
    var pty: bool
    var handoffPTY: bool
    var renderer: bool
    var pump: bool

    function Value(): (t: Term)
      reads this
    {
      Term(state, closed, pty, handoffPTY, renderer, pump)
    }

    constructor (t: Term)
      ensures Value() == t
    {
      state, closed, pty, handoffPTY := t.state, t.closed, t.pty, t.handoffPTY;
      renderer, pump := t.renderer, t.pump;
    }

    /** `Blocks` stands for a call that does not return: the state is what it leaves behind. */
    method BeginHandoff(f: BeginFaults) returns (r: Answer)
      modifies this
      ensures r == old(BeginAnswer(Value(), f))
      ensures Value() == old(Begun(Value(), f))
    {
      if closed || !pty || state != Running {
        return Refused;
      }
      if !f.descriptorOk {
        return Refused;
      }
      state := Quiescing;
      if !f.drained || !f.rollbackDup || !f.transferDup {
        state := Running;
        return Refused;
      }
      // quit is closed; only a pump that runs acknowledges it
      if !pump {
        return Blocks;
      }
      pump := false;
      renderer := false;
      pty := false;
      handoffPTY := true;
      state := Quiesced;
      return Began;
    }

    method RollbackHandoff(rendererStarts: bool) returns (ok: bool)
      modifies this
      ensures ok == old(state == Quiesced && handoffPTY && rendererStarts)
      ensures Value() == old(RolledBack(Value(), rendererStarts))
    {
      if state != Quiesced || !handoffPTY {
        return false;
      }
      handoffPTY := false;
      pty := true;
      state := Running;
      renderer := true;
      pump := false;
      if !rendererStarts {
        return false;
      }
      pump := true;
      return true;
    }

    method ReleaseAfterHandoff()
      modifies this
      ensures Value() == old(ReleasedTerm(Value()))
    {
      state := Released;
      closed := true;
      handoffPTY := false;
    }

    method ActivateAfterHandoff()
      modifies this
      ensures Value() == old(Activated(Value()))
    {
      if pty {
        pump := true;
      }
    }
  }
}
