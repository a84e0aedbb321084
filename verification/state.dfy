/** The task lifecycle: a closed set of five states encoded as integers,
    their names, parsing from names, and the fixed transition table. */
module TaskState {
  import opened Common

  /** Like Go's `type State int`, any integer is a State value;
      only 0..4 are named states. */
  newtype State = int

  const Pending: State := 0
  const Scheduled: State := 1
  const Running: State := 2
  const Completed: State := 3
  const Failed: State := 4

  /** The canonical name of each defined state, indexed by its value. */
  const Names: seq<string> := ["Pending", "Scheduled", "Running", "Completed", "Failed"]

  predicate IsDefined(s: State) {
    Pending <= s <= Failed
  }

  function String(s: State): (name: string)
    ensures IsDefined(s) ==> name == Names[s as int]
    ensures !IsDefined(s) ==> name == "Unknown"
  {
    if s == Pending then "Pending"
    else if s == Scheduled then "Scheduled"
    else if s == Running then "Running"
    else if s == Completed then "Completed"
    else if s == Failed then "Failed"
    else "Unknown"
  }

  /** Parsing is case-sensitive and exact; anything else yields the
      distinguished unknown-state error together with the value -1. */
  function Parse(input: string): (r: (State, Option<Error>))
    ensures r.1.None? <==> input in Names
    ensures r.1.None? ==> IsDefined(r.0) && Names[r.0 as int] == input
    ensures r.1.Some? ==> r == (-1, Some(StateUnknown))
  {
    if input == "Pending" then (Pending, None)
    else if input == "Scheduled" then (Scheduled, None)
    else if input == "Running" then (Running, None)
    else if input == "Completed" then (Completed, None)
    else if input == "Failed" then (Failed, None)
    else (-1, Some(StateUnknown))
  }

  /** `Parse` is a left inverse of `String` on the five states. */
  lemma ParseString(s: State)
    requires IsDefined(s)
    ensures Parse(String(s)) == (s, None)
  {
  }

  /** ... and `String` is a left inverse of `Parse` on every accepted name. */
  lemma StringParse(input: string)
    requires Parse(input).1.None?
    ensures String(Parse(input).0) == input
  {
  }

  /** Every string other than the five names, "Unknown" included, is rejected. */
  lemma ParseRejectsOtherNames(input: string)
    requires input != "Pending" && input != "Scheduled" && input != "Running"
    requires input != "Completed" && input != "Failed"
    ensures Parse(input) == (-1, Some(StateUnknown))
  {
  }

  /** `stateTransitionTable` of task/state/state.go. */
  const TransitionTable: map<State, seq<State>> := map[
    Pending := [Scheduled],
    Scheduled := [Scheduled, Running, Failed],
    Running := [Running, Completed, Failed],
    Completed := [],
    Failed := []
  ]

  /** The table row of `src`; a key missing from the map reads as the empty slice. */
  function Successors(src: State): seq<State> {
    if src in TransitionTable then TransitionTable[src] else []
  }

  /** Every valid transition starts and ends at a defined state. */
  predicate ValidStateTransition(src: State, dst: State)
    ensures ValidStateTransition(src, dst) ==> IsDefined(src) && IsDefined(dst)
  {
    dst in Successors(src)
  }

  /** The adjacency relation written out edge by edge, as an independent
      reference for the table. */
  predicate Edge(src: State, dst: State) {
    || (src == Pending && dst == Scheduled)
    || (src == Scheduled && (dst == Scheduled || dst == Running || dst == Failed))
    || (src == Running && (dst == Running || dst == Completed || dst == Failed))
  }

  lemma TransitionTableIsEdges(src: State, dst: State)
    ensures ValidStateTransition(src, dst) <==> Edge(src, dst)
  {
  }

  /** Completed and Failed have no successor at all, not even themselves. */
  lemma TerminalStates(dst: State)
    ensures !ValidStateTransition(Completed, dst)
    ensures !ValidStateTransition(Failed, dst)
  {
  }

  /** A source value outside the five states has no valid successor. */
  lemma UndefinedSourceIsStuck(src: State, dst: State)
    requires !IsDefined(src)
    ensures !ValidStateTransition(src, dst)
  {
  }

  /** Among the defined states, exactly Scheduled and Running may stay put. */
  lemma SelfTransitions(s: State)
    requires IsDefined(s)
    ensures ValidStateTransition(s, s) <==> (s == Scheduled || s == Running)
  {
  }
}
