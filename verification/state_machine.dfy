/** The application-flow state machine of the dog-breed identifier: a
    declarative table of six states, each naming its successor on the single
    event "next" and the display flags it turns on, and the reducer that
    looks an event up in that table, falling back to the initial state. */
module StateMachine {
  import opened Wrappers

  /** The six named states of the session. */
  datatype State = Initial | LoadingModel | AwaitingUpload | Ready | Classifying | Complete

  /** The event dispatched to the reducer. The application only ever
      dispatches "next"; `Other` stands for any event name that is not "next". */
  datatype Event = Next | Other

  /** One entry of the table: the transitions it defines, and its display
      flags, `None` where the entry leaves the flag out. */
  datatype StateConfig = StateConfig(on: map<Event, State>, showImage: Option<bool>, showResults: Option<bool>)

  /** The state the machine starts in and falls back to. */
  const InitialState: State := Initial

  /** The table, entry for entry. `classifying` sets no `showImage`. */
  const Machine: map<State, StateConfig> := map[
    Initial        := StateConfig(map[Next := LoadingModel],   None,       None),
    LoadingModel   := StateConfig(map[Next := AwaitingUpload], None,       None),
    AwaitingUpload := StateConfig(map[Next := Ready],          None,       None),
    Ready          := StateConfig(map[Next := Classifying],    Some(true), None),
    Classifying    := StateConfig(map[Next := Complete],       None,       None),
    Complete       := StateConfig(map[Next := AwaitingUpload], Some(true), Some(true))
  ]

  /** The intended flow, written as a cycle independently of the table:
      load the model, then upload, identify, show results, and round again. */
  function Successor(s: State): State {
    match s
    case Initial => LoadingModel
    case LoadingModel => AwaitingUpload
    case AwaitingUpload => Ready
    case Ready => Classifying
    case Classifying => Complete
    case Complete => AwaitingUpload
  }

  /** The states the flow keeps returning to once the model is loaded. */
  predicate InCycle(s: State) {
    s == AwaitingUpload || s == Ready || s == Classifying || s == Complete
  }

  /** Every state has an entry in the table, so the reducer's lookup of the
      current state never fails. */
  lemma TableIsTotal(s: State)
    ensures s in Machine
    ensures Machine[s].on.Keys == {Next}
  {
  }

  /** The reducer: the successor the current state's entry gives for the
      event, or the initial state when the entry has none. Its result is the
      table successor on "next" and the initial state on anything else, and
      it is itself a state of the table. */
  function Reduce(current: State, event: Event): (r: State)
    ensures r in Machine
    ensures event == Next ==> r == Successor(current)
    ensures event != Next ==> r == InitialState
  {
    TableIsTotal(current);
    var on := Machine[current].on;
    if event in on then on[event] else InitialState
  }

  /** `showImage` of the current state's entry, false when left out: on
      exactly in `ready` and `complete`. */
  function ShowImage(s: State): (r: bool)
    ensures r <==> (s == Ready || s == Complete)
  {
    TableIsTotal(s);
    Machine[s].showImage.GetOr(false)
  }

  /** `showResults` of the current state's entry, false when left out: on
      exactly in `complete`. */
  function ShowResults(s: State): (r: bool)
    ensures r <==> s == Complete
  {
    TableIsTotal(s);
    Machine[s].showResults.GetOr(false)
  }

  /** Results are only ever shown together with the image. */
  lemma ResultsShownWithImage(s: State)
    ensures ShowResults(s) ==> ShowImage(s)
    ensures ShowImage(s) ==> s != Classifying
  {
  }

  /** The state after `n` consecutive "next" events. */
  function Iterate(s: State, n: nat): State
    decreases n
  {
    if n == 0 then s else Iterate(Reduce(s, Next), n - 1)
  }

  /** The state after dispatching `events` in order, starting from `s`. */
  function Run(s: State, events: seq<Event>): State
    decreases |events|
  {
    if events == [] then s
    else Reduce(Run(s, events[..|events| - 1]), events[|events| - 1])
  }

  /** `a` steps followed by `b` steps are `a + b` steps. */
  lemma {:induction false} IterateAdd(s: State, a: nat, b: nat)
    ensures Iterate(s, a + b) == Iterate(Iterate(s, a), b)
    decreases a
  {
    if a > 0 {
      IterateAdd(Reduce(s, Next), a - 1, b);
    }
  }

  /** One step after `n` steps is `n + 1` steps. */
  lemma IterateLast(s: State, n: nat)
    ensures Iterate(s, n + 1) == Reduce(Iterate(s, n), Next)
  {
    IterateAdd(s, n, 1);
  }

  /** Dispatching only "next" events is iterating the successor. */
  lemma {:induction false} RunAllNext(s: State, events: seq<Event>)
    requires forall i :: 0 <= i < |events| ==> events[i] == Next
    ensures Run(s, events) == Iterate(s, |events|)
    decreases |events|
  {
    if events != [] {
      var n := |events| - 1;
      RunAllNext(s, events[..n]);
      IterateLast(s, n);
    }
  }

  /** Whatever came before, a final event other than "next" lands in the
      initial state. */
  lemma RunEndsInFallback(s: State, events: seq<Event>)
    requires events != [] && events[|events| - 1] != Next
    ensures Run(s, events) == InitialState
  {
  }

  /** Once in the upload/identify/results cycle, "next" never leaves it. */
  lemma {:induction false} CycleIsClosed(s: State, n: nat)
    requires InCycle(s)
    ensures InCycle(Iterate(s, n))
    decreases n
  {
    if n > 0 {
      CycleIsClosed(Reduce(s, Next), n - 1);
    }
  }

  /** Four "next" events bring a cycle state back to itself ... */
  lemma CycleOfFour(s: State)
    requires InCycle(s)
    ensures Iterate(s, 4) == s
  {
  }

  /** ... and no fewer do. */
  lemma CycleIsExactlyFour(s: State, n: nat)
    requires InCycle(s) && 0 < n < 4
    ensures Iterate(s, n) != s
  {
    var s1 := Reduce(s, Next);
    var s2 := Reduce(s1, Next);
    assert Iterate(s2, 1) == Reduce(s2, Next);
    assert Iterate(s1, 2) == Iterate(s2, 1);
  }

  /** Any multiple of four "next" events returns a cycle state to itself. */
  lemma {:induction false} CycleRepeats(s: State, k: nat)
    requires InCycle(s)
    ensures Iterate(s, 4 * k) == s
    decreases k
  {
    if k > 0 {
      CycleOfFour(s);
      IterateAdd(s, 4, 4 * (k - 1));
      CycleRepeats(s, k - 1);
    }
  }

  /** Through "next" alone the initial state is never re-entered. */
  lemma {:induction false} NextNeverReturnsToInitial(s: State, n: nat)
    requires n > 0
    ensures Iterate(s, n) != InitialState
    decreases n
  {
    if n > 1 {
      NextNeverReturnsToInitial(Reduce(s, Next), n - 1);
    }
  }

  /** From the start, two "next" events (begin and finish loading the model)
      enter the cycle, and the machine stays in it thereafter. */
  lemma StartupEntersCycle(n: nat)
    requires n >= 2
    ensures InCycle(Iterate(InitialState, n))
  {
    IterateAdd(InitialState, 2, n - 2);
    assert Iterate(InitialState, 2) == AwaitingUpload;
    CycleIsClosed(AwaitingUpload, n - 2);
  }

  /** Applies dispatched events one at a time, as the reducer hook does. */
  method Replay(s: State, events: seq<Event>) returns (r: State)
    ensures r == Run(s, events)
    ensures events != [] && events[|events| - 1] != Next ==> r == InitialState
    ensures (forall i :: 0 <= i < |events| ==> events[i] == Next) ==> r == Iterate(s, |events|)
  {
    r := s;
    var i := 0;
    while i < |events|
      invariant 0 <= i <= |events|
      invariant r == Run(s, events[..i])
    {
      assert events[..i + 1][..i] == events[..i];
      r := Reduce(r, events[i]);
      i := i + 1;
    }
    assert events[..|events|] == events;
    if forall j :: 0 <= j < |events| ==> events[j] == Next {
      RunAllNext(s, events);
    }
  }
}
