/**
 * The graphical client's basic overlay menu: two panels toggled by their
 * keys and a history of the last ten broadcasts. The broadcast line format
 * and the bounded history are shared with the in-game menu.
 */
module Menu {
  import opened Text
  import opened InputManager

  /** How many broadcasts a menu keeps. */
  const MaxBroadcasts: nat := 10

  /** _decryptBroadcast: "Player <id>: <message>"; the team plays no part. */
  function BroadcastLine(id: int, message: string, team: string): (line: string)
    ensures |line| > |message| && line[|line| - |message|..] == message
    ensures |line| > 7 && line[..7] == "Player "
  {
    "Player " + IntToString(id) + ": " + message
  }

  /** Two broadcast lines are equal only when they come from the same id with the same message. */
  lemma BroadcastLineInjective(id1: int, m1: string, t1: string, id2: int, m2: string, t2: string)
    requires BroadcastLine(id1, m1, t1) == BroadcastLine(id2, m2, t2)
    ensures id1 == id2 && m1 == m2
  {
    var a1, a2 := IntToString(id1), IntToString(id2);
    var l := BroadcastLine(id1, m1, t1);
    IntToStringWithout(id1, ':');
    IntToStringWithout(id2, ':');
    ColonEndsId(a1, m1, a2, m2);
    ColonEndsId(a2, m2, a1, m1);
    assert a1 == l[7..7 + |a1|] == a2;
    ReadIntOfIntToString(id1, []);
    ReadIntOfIntToString(id2, []);
    assert a1 + [] == a1 && a2 + [] == a2;
    assert m1 == l[9 + |a1|..] == m2;
  }

  /** The first ':' after "Player " ends the id, so equal lines have ids of equal length. */
  lemma ColonEndsId(a1: string, m1: string, a2: string, m2: string)
    requires "Player " + a1 + ": " + m1 == "Player " + a2 + ": " + m2
    requires ':' !in a2
    ensures |a1| >= |a2|
  {
    var l := "Player " + a2 + ": " + m2;
    assert l[7 + |a1|] == ':' by {
      assert l == "Player " + a1 + ": " + m1;
    }
    assert forall i :: 0 <= i < |a2| ==> l[7 + i] == a2[i];
  }

  /** push_back, then pop_front while the history holds more than ten lines. */
  function PushBounded(history: seq<string>, line: string): (r: seq<string>)
    ensures |r| > 0 && r[|r| - 1] == line
    ensures |history| < MaxBroadcasts ==> r == history + [line]
    ensures |history| >= MaxBroadcasts ==> |r| == |history| && r == (history + [line])[1..]
  {
    var pushed := history + [line];
    if |pushed| > MaxBroadcasts then pushed[1..] else pushed
  }

  /** A history after several broadcasts, oldest first. */
  function PushAll(history: seq<string>, lines: seq<string>): seq<string>
    decreases |lines|
  {
    if lines == [] then history else PushAll(PushBounded(history, lines[0]), lines[1..])
  }

  /** The last ten lines of all, or all of them while there are fewer. */
  function LastTen(all: seq<string>): (r: seq<string>)
    ensures |r| <= MaxBroadcasts
  {
    if |all| <= MaxBroadcasts then all else all[|all| - MaxBroadcasts..]
  }

  /** Dropping the oldest of more than ten lines leaves the last ten as they were. */
  lemma LastTenDropOldest(all: seq<string>)
    requires |all| > MaxBroadcasts
    ensures LastTen(all[1..]) == LastTen(all)
  {
    assert all[1..][|all| - 1 - MaxBroadcasts..] == all[|all| - MaxBroadcasts..];
  }

  /**
   * Starting from at most ten lines, the history always holds the last
   * ten lines ever pushed (or all of them while there are fewer).
   */
  lemma {:induction false} PushAllKeepsLastTen(history: seq<string>, lines: seq<string>)
    requires |history| <= MaxBroadcasts
    ensures PushAll(history, lines) == LastTen(history + lines)
    decreases |lines|
  {
    if lines == [] {
      assert history + lines == history;
    } else {
      var line, rest := lines[0], lines[1..];
      var all := history + lines;
      var pushed := history + [line];
      assert pushed + rest == all by {
        assert lines == [line] + rest;
      }
      var next := PushBounded(history, line);
      PushAllKeepsLastTen(next, rest);
      if |history| == MaxBroadcasts {
        assert next + rest == all[1..];
        LastTenDropOldest(all);
      }
    }
  }

  /** One toggle pass: every panel whose key is hit flips; operator[] reads a missing panel as off. */
  function Toggled<S>(states: map<S, bool>, keys: map<S, int>, hit: set<int>): (r: map<S, bool>)
    ensures r.Keys == states.Keys + keys.Keys
    ensures forall s :: s in keys && keys[s] !in hit ==> r[s] == (s in states && states[s])
    ensures forall s :: s in keys && keys[s] in hit ==> r[s] == !(s in states && states[s])
    ensures forall s :: s in states && s !in keys ==> r[s] == states[s]
  {
    map s | s in states.Keys + keys.Keys ::
      if s in keys && keys[s] in hit then !(s in states && states[s]) else s in states && states[s]
  }

  /** Hitting the same keys on two frames leaves every registered panel as it was. */
  lemma ToggledTwice<S>(states: map<S, bool>, keys: map<S, int>, hit: set<int>)
    requires keys.Keys <= states.Keys
    ensures Toggled(Toggled(states, keys, hit), keys, hit) == states
  {
    var r := Toggled(Toggled(states, keys, hit), keys, hit);
    assert forall s :: s in r ==> r[s] == states[s];
  }

  /** The sample broadcast init records. */
  lemma SampleBroadcast()
    ensures BroadcastLine(1, "Hello World!", "Team 1") == "Player 1: Hello World!"
  {
    assert IntToString(1) == "1";
  }

  datatype MenuPanel = HelpPanel | BroadcastsPanel

  class Menu {
    var fontSize: int
    var menuStatesKeys: map<MenuPanel, int>
    var menuStates: map<MenuPanel, bool>
    var broadcasts: seq<string>

    constructor ()
      ensures fontSize == 20 && menuStatesKeys == map[] && menuStates == map[] && broadcasts == []
    {
      fontSize, menuStatesKeys, menuStates, broadcasts := 20, map[], map[], [];
    }

    /** init: B and H toggle the two panels, both start hidden, and one sample broadcast is recorded. */
    method Init()
      modifies this
      ensures fontSize == old(fontSize)
      ensures menuStatesKeys == map[BroadcastsPanel := KeyB, HelpPanel := KeyH]
      ensures menuStates == map[BroadcastsPanel := false, HelpPanel := false]
      ensures broadcasts == PushBounded(old(broadcasts), "Player 1: Hello World!")
    {
      menuStatesKeys := map[BroadcastsPanel := KeyB, HelpPanel := KeyH];
      menuStates := map[BroadcastsPanel := false, HelpPanel := false];
      SampleBroadcast();
      PlayerBroadcast(1, "Hello World!", "Team 1");
    }

    /** handleInput: a panel flips on the frame its key goes down. */
    method HandleInput(im: InputManager)
      modifies this`menuStates
      ensures menuStates == Toggled(old(menuStates), menuStatesKeys, im.PressedKeys())
    {
      menuStates := Toggled(menuStates, menuStatesKeys, im.PressedKeys());
    }

    /** playerBroadcast: the formatted line joins the bounded history. */
    method PlayerBroadcast(id: int, message: string, team: string)
      modifies this`broadcasts
      ensures broadcasts == PushBounded(old(broadcasts), BroadcastLine(id, message, team))
    {
      broadcasts := PushBounded(broadcasts, BroadcastLine(id, message, team));
    }
  }
}
