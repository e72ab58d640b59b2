/** The lifecycle state of a session and its textual rendering. */
module SessionState {

  /** A session state is an integer, as in the source; values outside the
      five named constants exist and render as "Unknown". */
  newtype State = int

  const Connecting: State := 0
  const Configured: State := 1
  const Active: State := 2
  const Closing: State := 3
  const Closed: State := 4

  /** The five named states; the integer order is the lifecycle order. */
  predicate IsLifecycle(s: State) {
    Connecting <= s <= Closed
  }

  /** The name of a state; every value outside the lifecycle is "Unknown". */
  function Name(s: State): (r: string)
    ensures IsLifecycle(s) <==> r != "Unknown"
  {
    match s
    case 0 => "Connecting"
    case 1 => "Configured"
    case 2 => "Active"
    case 3 => "Closing"
    case 4 => "Closed"
    case _ => "Unknown"
  }

  /** The constants are consecutive, from 0, in lifecycle order. */
  lemma LifecycleOrder()
    ensures Connecting == 0
    ensures Configured == Connecting + 1 && Active == Configured + 1
    ensures Closing == Active + 1 && Closed == Closing + 1
    ensures forall s: State :: IsLifecycle(s) <==> s in {Connecting, Configured, Active, Closing, Closed}
  {
  }

  /** Each named state renders as its own name. */
  lemma NamesOfStates()
    ensures Name(Connecting) == "Connecting" && Name(Configured) == "Configured"
    ensures Name(Active) == "Active" && Name(Closing) == "Closing" && Name(Closed) == "Closed"
  {
  }

  /** Distinct lifecycle states have distinct names. */
  lemma NameInjective(a: State, b: State)
    requires IsLifecycle(a) && IsLifecycle(b)
    requires Name(a) == Name(b)
    ensures a == b
  {
  }
}
