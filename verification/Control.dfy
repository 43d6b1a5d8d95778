/** The shared event log and the control state whose mode survives restarts (control/persistence.py). */
module Control {
  import opened Domain
  import opened ExecutionLedger

  class EventLog {
    var events: seq<Event>

    constructor ()
      ensures events == []
    {
      events := [];
    }

    method Append(e: Event)
      modifies this
      ensures events == old(events) + [e]
    {
      events := events + [e];
    }
  }

  /** What a mode change writes. */
  function ModeEvents(mode: ExperimentMode, next: ExperimentMode): seq<Event> {
    if mode == next || mode == DEAD then [] else [ControlModeChanged(mode, next)]
  }

  class LedgerBackedControlState {
    const log: EventLog
    var mode: ExperimentMode
    var killSwitch: bool

    ghost predicate Valid()
      reads this, log
    {
      mode == RestoredMode(log.events)
    }

    /** The loop over the ledger that restores the mode. */
    constructor Restore(log: EventLog, killSwitch: bool)
      ensures Valid() && this.log == log && this.killSwitch == killSwitch
    {
      this.log := log;
      this.killSwitch := killSwitch;
      this.mode := NORMAL;
      new;
      var mode := NORMAL;
      for i := 0 to |log.events|
        invariant mode == RestoredMode(log.events[..i])
        invariant log.events == old(log.events)
      {
        assert log.events[..i + 1][..i] == log.events[..i];
        if log.events[i].ControlModeChanged? {
          mode := log.events[i].next;
        }
      }
      assert log.events[..|log.events|] == log.events;
      this.mode := mode;
    }

    /** The event is written before the mode changes; DEAD is terminal. */
    method TransitionMode(next: ExperimentMode) returns (ok: bool)
      requires Valid()
      modifies this`mode, log
      ensures Valid()
      ensures ok <==> old(mode) != DEAD || next == DEAD
      ensures mode == if ok then next else old(mode)
      ensures log.events == old(log.events) + ModeEvents(old(mode), next)
    {
      if mode == next {
        return true;
      }
      if mode == DEAD {
        return false;
      }
      assert (log.events + [ControlModeChanged(mode, next)])[..|log.events|] == log.events;
      log.Append(ControlModeChanged(mode, next));
      mode := next;
      return true;
    }
  }
}
