/**
 * The screen manager: one mandatory current screen and at most one previous
 * screen, i.e. a single level of history.
 */
module Screens {

  datatype Option<T> = None | Some(value: T)

  /**
   * The implementers of `GameScreen`. Both are unit structs, so a screen is
   * fully described by which one it is; `display` only draws.
   */
  datatype Screen = GameStartScreen | GamePlayScreen

  /** The value held by a manager's two fields. */
  datatype Manager = Manager(current: Screen, previous: Option<Screen>)

  /** The manager after one call, and the screens that call displayed, in order. */
  datatype Transition = Transition(after: Manager, shown: seq<Screen>)

  /** The manager `main` builds: the start screen, seeded as its own previous. */
  function Initial(): (m: Manager)
    ensures m.current == GameStartScreen && m.previous == Some(GameStartScreen)
  {
    Manager(GameStartScreen, Some(GameStartScreen))
  }

  /**
   * `change_screen`: the outgoing screen is kept as the previous one and the
   * new screen is displayed once.
   */
  function Change(m: Manager, s: Screen): (t: Transition)
    ensures t.after.current == s
    ensures t.after.previous == Some(m.current)
    ensures t.after.previous != None
    ensures t.shown == [s]
  {
    Transition(Manager(s, Some(m.current)), [s])
  }

  /**
   * `revert_screen`: restores the previous screen once, empties the slot and
   * displays the restored screen; with no previous screen it does nothing.
   */
  function Revert(m: Manager): (t: Transition)
    ensures m.previous.Some? ==>
              t.after.current == m.previous.value && t.after.previous == None &&
              t.shown == [m.previous.value]
    ensures m.previous.None? ==> t.after == m && t.shown == []
    ensures t.after.previous == None
  {
    match m.previous
    case Some(p) => Transition(Manager(p, None), [p])
    case None => Transition(m, [])
  }

  /** A call on the manager, as the frame loop may issue it. */
  datatype Call = ChangeTo(screen: Screen) | RevertCall

  function Apply(m: Manager, c: Call): Transition
  {
    match c
    case ChangeTo(s) => Change(m, s)
    case RevertCall => Revert(m)
  }

  /** The calls performed in order, with every screen they displayed. */
  function Run(m: Manager, calls: seq<Call>): Transition
    decreases |calls|
  {
    if calls == [] then Transition(m, [])
    else
      var first := Apply(m, calls[0]);
      var rest := Run(first.after, calls[1..]);
      Transition(rest.after, first.shown + rest.shown)
  }

  /** A second revert in a row changes nothing and displays nothing. */
  lemma RevertTwice(m: Manager)
    ensures Revert(Revert(m).after) == Transition(Revert(m).after, [])
  {
  }

  /** A change followed by a revert brings the original current screen back. */
  lemma ChangeThenRevert(m: Manager, s: Screen)
    ensures Revert(Change(m, s).after).after == Manager(m.current, None)
    ensures Change(m, s).shown + Revert(Change(m, s).after).shown == [s, m.current]
  {
  }

  /**
   * A revert on the manager `main` builds keeps the start screen current, but
   * empties the previous slot and displays the start screen once more.
   */
  lemma RevertOnInitial()
    ensures Revert(Initial()).after == Manager(GameStartScreen, None)
    ensures Revert(Initial()).shown == [GameStartScreen]
  {
  }

  /** Each call displays at most one screen. */
  lemma {:induction false} RunShowsAtMostOnePerCall(m: Manager, calls: seq<Call>)
    ensures |Run(m, calls).shown| <= |calls|
    ensures (forall i :: 0 <= i < |calls| ==> calls[i].ChangeTo?) ==> |Run(m, calls).shown| == |calls|
    decreases |calls|
  {
    if calls != [] {
      RunShowsAtMostOnePerCall(Apply(m, calls[0]).after, calls[1..]);
    }
  }

  /**
   * After any sequence of calls, the screen displayed last is the current
   * one, and a sequence that displayed nothing left the manager as it was.
   */
  lemma {:induction false} RunDisplaysCurrent(m: Manager, calls: seq<Call>)
    ensures Run(m, calls).shown == [] ==> Run(m, calls).after == m
    ensures Run(m, calls).shown != [] ==>
              Run(m, calls).shown[|Run(m, calls).shown| - 1] == Run(m, calls).after.current
    decreases |calls|
  {
    if calls != [] {
      var first := Apply(m, calls[0]);
      RunDisplaysCurrent(first.after, calls[1..]);
    }
  }

  /** Running `a` then `b` is running `a + b`. */
  lemma {:induction false} RunAppend(m: Manager, a: seq<Call>, b: seq<Call>)
    ensures Run(m, a + b).after == Run(Run(m, a).after, b).after
    ensures Run(m, a + b).shown == Run(m, a).shown + Run(Run(m, a).after, b).shown
    decreases |a|
  {
    if a == [] {
      assert a + b == b;
    } else {
      assert (a + b)[1..] == a[1..] + b;
      RunAppend(Apply(m, a[0]).after, a[1..], b);
    }
  }

  /** Whatever came before, two reverts in a row: the second is a no-op. */
  lemma RevertTwiceAfterAnyRun(m: Manager, calls: seq<Call>)
    ensures Run(m, calls + [RevertCall, RevertCall]) ==
              Run(m, calls + [RevertCall])
  {
    var mid := Run(m, calls).after;
    RunAppend(m, calls, [RevertCall, RevertCall]);
    RunAppend(m, calls, [RevertCall]);
    assert [RevertCall, RevertCall][1..] == [RevertCall];
    RevertTwice(mid);
  }

  /**
   * `ScreenManager`: the two fields of the source, plus a ghost log of every
   * `display()` call it made on its screens.
   */
  class ScreenManager {
    var currentScreen: Screen
    var previousScreen: Option<Screen>
    ghost var displayed: seq<Screen>

    function State(): Manager
      reads this
    {
      Manager(currentScreen, previousScreen)
    }

    constructor (current: Screen, previous: Option<Screen>)
      ensures currentScreen == current && previousScreen == previous
      ensures displayed == []
    {
      currentScreen := current;
      previousScreen := previous;
      displayed := [];
    }

    /** `self.current_screen.display()`: draws the current screen. */
    method Display()
      modifies this`displayed
      ensures displayed == old(displayed) + [currentScreen]
    {
      displayed := displayed + [currentScreen];
    }

    method ChangeScreen(newScreen: Screen)
      modifies this
      ensures currentScreen == newScreen
      ensures previousScreen == Some(old(currentScreen))
      ensures displayed == old(displayed) + [newScreen]
      ensures State() == Change(old(State()), newScreen).after
      ensures displayed == old(displayed) + Change(old(State()), newScreen).shown
    {
      // std::mem::replace: the outgoing screen moves into the previous slot
      var outgoing := currentScreen;
      currentScreen := newScreen;
      previousScreen := Some(outgoing);
      Display();
    }

    method RevertScreen()
      modifies this
      ensures old(previousScreen).Some? ==>
                currentScreen == old(previousScreen).value && previousScreen == None &&
                displayed == old(displayed) + [old(previousScreen).value]
      ensures old(previousScreen).None? ==> unchanged(this)
      ensures State() == Revert(old(State())).after
      ensures displayed == old(displayed) + Revert(old(State())).shown
    {
      // Option::take empties the slot whether or not it held a screen
      var taken := previousScreen;
      previousScreen := None;
      match taken
      case Some(prev) =>
        currentScreen := prev;
        Display();
      case None =>
    }
  }
}
