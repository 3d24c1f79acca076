/** The pane record of peers/pane.go, as far as the registry and the replay protocol see it. */
module Panes {
  import Ring

  // tty: the command was started once; running: IsRunning.
  datatype Pane = Pane(id: int, tty: bool, running: bool, ring: Ring.Ring)

  // A lookup of a pane that may not exist.
  datatype Lookup = Found(pane: Pane) | Missing

  datatype Phase = Idle | Running | Stopped

  function PhaseOf(p: Pane): Phase {
    if p.running then Running else if p.tty then Stopped else Idle
  }
}
