// The screen stack of `Game`: change, push and pop on a stack whose top
// alone receives events and updates; closing the window stops the run.
module ScreenStack {

  datatype ScreenKind = MenuScreen | PlayingScreen | PauseScreen | GameOverScreen

  /** A state object on the stack; `attached` is whether its game pointer has been set. */
  datatype Screen = Screen(kind: ScreenKind, attached: bool)

  /** A possibly-null `std::unique_ptr<GameState>`. */
  datatype Handle = Null | Some(screen: Screen)

  /** The event types `handleEvents` distinguishes. */
  datatype Event = Closed | KeyPressed(code: int) | KeyReleased(code: int) | OtherEvent

  /** What a state's `handleInput` asks of the game through its game pointer. */
  datatype Reaction = Stay | AskPush(pushed: Handle) | AskPop | AskChange(next: Handle) | AskQuit

  /** `setGame(this)`. */
  function Attach(s: Screen): (r: Screen)
    ensures r.attached && r.kind == s.kind
  {
    s.(attached := true)
  }

  /** Every state on the stack knows its game. */
  predicate AllAttached(states: seq<Screen>)
  {
    forall i :: 0 <= i < |states| ==> states[i].attached
  }

  /** The stack's top (its last element), if any. */
  function Top(states: seq<Screen>): (r: Handle)
    ensures |states| == 0 <==> r == Null
    ensures |states| > 0 ==> r == Some(states[|states| - 1])
  {
    if |states| == 0 then Null else Some(states[|states| - 1])
  }

  /** `popState()`: the top goes, if there is one. */
  function Pop(states: seq<Screen>): (r: seq<Screen>)
    ensures |states| == 0 ==> r == states
    ensures |states| > 0 ==> |r| == |states| - 1 && states == r + [states[|states| - 1]]
  {
    if |states| == 0 then states else states[..|states| - 1]
  }

  /** `pushState(state)`: a non-null state goes on top, attached; a null one is ignored. */
  function Push(states: seq<Screen>, h: Handle): (r: seq<Screen>)
    ensures h == Null ==> r == states
    ensures h.Some? ==> |r| == |states| + 1 && r[..|states|] == states &&
                        Top(r) == Some(Attach(h.screen))
  {
    if h.Some? then states + [Attach(h.screen)] else states
  }

  /** `changeState(state)`: pop the top if any, then push. */
  function Change(states: seq<Screen>, h: Handle): (r: seq<Screen>)
    ensures h.Some? && |states| > 0 ==> |r| == |states| && r[..|r| - 1] == states[..|states| - 1] &&
                                        Top(r) == Some(Attach(h.screen))
    ensures h.Some? && |states| == 0 ==> r == [Attach(h.screen)]
    ensures h == Null ==> r == Pop(states)
  {
    Push(Pop(states), h)
  }

  /** Pushing then popping gives back the stack. */
  lemma PushPopRoundTrip(states: seq<Screen>, s: Screen)
    ensures Pop(Push(states, Some(s))) == states
  {
    assert Push(states, Some(s))[..|states|] == states;
  }

  /** Change, push and pop keep every state on the stack attached. */
  lemma OperationsKeepAttached(states: seq<Screen>, h: Handle)
    requires AllAttached(states)
    ensures AllAttached(Push(states, h)) && AllAttached(Pop(states)) && AllAttached(Change(states, h))
  {
    var p := Pop(states);
    assert forall i :: 0 <= i < |p| ==> p[i] == states[i];
    if h.Some? {
      var q := Push(states, h);
      assert forall i :: 0 <= i < |states| ==> q[i] == states[i];
      var c := Push(p, h);
      assert forall i :: 0 <= i < |p| ==> c[i] == p[i];
    }
  }

  /** The observable state of a `Game`. */
  datatype Machine = Machine(states: seq<Screen>, running: bool, windowOpen: bool)

  /** The effect of the state's request on the game. */
  function Apply(m: Machine, r: Reaction): (out: Machine)
    ensures out.windowOpen == m.windowOpen
    ensures out.running == (m.running && r != AskQuit)
  {
    match r
    case Stay => m
    case AskPush(h) => m.(states := Push(m.states, h))
    case AskPop => m.(states := Pop(m.states))
    case AskChange(h) => m.(states := Change(m.states, h))
    case AskQuit => m.(running := false)
  }

  /** One polled event: Closed shuts the window and stops the run; then the top state, if any, handles it. */
  function OnEvent(m: Machine, e: Event, respond: (Screen, Event) -> Reaction): (out: Machine)
    ensures out.running ==> m.running && e != Closed
    ensures out.windowOpen == (m.windowOpen && e != Closed)
    ensures |m.states| == 0 ==> out.states == m.states
  {
    var m1 := if e == Closed then m.(windowOpen := false, running := false) else m;
    if |m1.states| == 0 then m1 else Apply(m1, respond(m1.states[|m1.states| - 1], e))
  }

  /** All the events polled in one frame, in order. */
  function OnEvents(m: Machine, events: seq<Event>, respond: (Screen, Event) -> Reaction): (out: Machine)
    decreases |events|
  {
    if |events| == 0 then m
    else OnEvent(OnEvents(m, events[..|events| - 1], respond), events[|events| - 1], respond)
  }

  /** A Closed event anywhere in a frame's events ends the run and closes the window; nothing restarts it. */
  lemma {:induction false} ClosedEndsRun(m: Machine, events: seq<Event>, respond: (Screen, Event) -> Reaction)
    ensures OnEvents(m, events, respond).running ==> m.running && Closed !in events
    ensures OnEvents(m, events, respond).windowOpen == (m.windowOpen && Closed !in events)
    decreases |events|
  {
    if |events| > 0 {
      var init := events[..|events| - 1];
      ClosedEndsRun(m, init, respond);
      assert events == init + [events[|events| - 1]];
    }
  }

  /** With no state on the stack, events reach nobody and the stack stays empty. */
  lemma {:induction false} EmptyStackIgnoresEvents(m: Machine, events: seq<Event>, respond: (Screen, Event) -> Reaction)
    requires |m.states| == 0
    ensures OnEvents(m, events, respond).states == []
    decreases |events|
  {
    if |events| > 0 {
      EmptyStackIgnoresEvents(m, events[..|events| - 1], respond);
    }
  }

  /** Events handled by states that ask for nothing leave the stack as it was. */
  lemma {:induction false} QuietStatesKeepStack(m: Machine, events: seq<Event>, respond: (Screen, Event) -> Reaction)
    requires forall s: Screen, e: Event :: respond(s, e) == Stay
    ensures OnEvents(m, events, respond).states == m.states
    decreases |events|
  {
    if |events| > 0 {
      QuietStatesKeepStack(m, events[..|events| - 1], respond);
    }
  }

  /** Whatever the states ask for, every state on the stack stays attached to the game. */
  lemma {:induction false} EventsKeepAttached(m: Machine, events: seq<Event>, respond: (Screen, Event) -> Reaction)
    requires AllAttached(m.states)
    ensures AllAttached(OnEvents(m, events, respond).states)
    decreases |events|
  {
    if |events| > 0 {
      var before := OnEvents(m, events[..|events| - 1], respond);
      EventsKeepAttached(m, events[..|events| - 1], respond);
      if |before.states| > 0 {
        var r := respond(before.states[|before.states| - 1], events[|events| - 1]);
        match r
        case AskPush(h) => OperationsKeepAttached(before.states, h);
        case AskPop => OperationsKeepAttached(before.states, Null);
        case AskChange(h) => OperationsKeepAttached(before.states, h);
        case _ =>
      }
    }
  }
}

// `class Game` without its window, clock, frame time and music: the state stack and the
// running flag.
module Games {
  import opened ScreenStack

  class Game {
    /** `states_`, bottom first: the top is the last element. */
    var states: seq<Screen>
    var running: bool
    /** Whether the window is still open. */
    var windowOpen: bool

    function Data(): Machine
      reads this
    {
      Machine(states, running, windowOpen)
    }

    constructor ()
      ensures states == [] && running && windowOpen
    {
      states := [];
      running := true;
      windowOpen := true;
    }

    /** `~Game()`: pops until the stack is empty. */
    method Destroy()
      modifies this
      ensures states == [] && running == old(running) && windowOpen == old(windowOpen)
    {
      while |states| > 0
        invariant running == old(running) && windowOpen == old(windowOpen)
        decreases |states|
      {
        states := Pop(states);
      }
    }

    method ChangeState(state: Handle)
      modifies this
      ensures Data() == old(Data()).(states := Change(old(states), state))
    {
      if |states| > 0 {
        states := states[..|states| - 1];
      }
      if state.Some? {
        states := states + [Attach(state.screen)];
      }
    }

    method PushState(state: Handle)
      modifies this
      ensures Data() == old(Data()).(states := Push(old(states), state))
    {
      if state.Some? {
        states := states + [Attach(state.screen)];
      }
    }

    method PopState()
      modifies this
      ensures Data() == old(Data()).(states := Pop(old(states)))
    {
      if |states| > 0 {
        states := states[..|states| - 1];
      }
    }

    /** `handleEvents()` over the events polled this frame; `respond` stands for each state's `handleInput`. */
    method HandleEvents(events: seq<Event>, respond: (Screen, Event) -> Reaction)
      modifies this
      ensures Data() == OnEvents(old(Data()), events, respond)
    {
      var i := 0;
      while i < |events|
        invariant 0 <= i <= |events|
        invariant Data() == OnEvents(old(Data()), events[..i], respond)
      {
        HandleEvent(events[i], respond);
        assert events[..i + 1][..i] == events[..i];
        i := i + 1;
      }
      assert events[..|events|] == events;
    }

    /** One turn of the polling loop. */
    method HandleEvent(event: Event, respond: (Screen, Event) -> Reaction)
      modifies this
      ensures Data() == OnEvent(old(Data()), event, respond)
    {
      if event == Closed {
        windowOpen := false;
        running := false;
      }
      if |states| > 0 {
        React(respond(states[|states| - 1], event));
      }
    }

    /** Carries out a state's request on the game. */
    method React(r: Reaction)
      modifies this
      ensures Data() == Apply(old(Data()), r)
    {
      match r
      case Stay =>
      case AskPush(h) => PushState(h);
      case AskPop => PopState();
      case AskChange(h) => ChangeState(h);
      case AskQuit => Quit();
    }

    /** `update(dt)`: the state that receives the update, the top one, if any. */
    method Update(dt: real) returns (receiver: Handle)
      ensures receiver == Top(states)
      ensures |states| > 0 ==> receiver == Some(states[|states| - 1])
    {
      receiver := Null;
      if |states| > 0 {
        receiver := Some(states[|states| - 1]);
      }
    }

    function IsRunning(): (r: bool)
      reads this
      ensures r == Data().running
    {
      running
    }

    method Quit()
      modifies this
      ensures Data() == old(Data()).(running := false)
    {
      running := false;
    }
  }
}
