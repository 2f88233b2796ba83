/**
 * The in-game menu of the graphical client: panel toggles, the frequency
 * picker clamped to [1, 1000], paging through the player cards, and the
 * bounded broadcast history. Key input arrives through an InputManager;
 * drawing is not modelled.
 */
module GameMenu {
  import opened Wrappers
  import opened InputManager
  import opened MenuMacros
  import opened Menu

  /** _frequencyKeyModifiers, visited in the map's order: ascending key code. */
  const FrequencyKeyModifiers: seq<(int, int)> := [(KeyRight, 10), (KeyLeft, -10), (KeyDown, -1), (KeyUp, 1)]

  function Clamp(v: int): (r: int)
    ensures MinFreq <= r <= MaxFreq
    ensures MinFreq <= v <= MaxFreq ==> r == v
  {
    if v < MinFreq then MinFreq else if v > MaxFreq then MaxFreq else v
  }

  /**
   * One released modifier key: the new frequency, or None when the key is
   * skipped because it pushes past the bound the frequency already sits on.
   */
  function ApplyModifier(f: int, m: int): (r: Option<int>)
    ensures r.None? <==> (m < 0 && f == MinFreq) || (m > 0 && f == MaxFreq)
    ensures r.Some? ==> MinFreq <= r.value <= MaxFreq
  {
    if m < 0 && f == MinFreq then None
    else if m > 0 && f == MaxFreq then None
    else if m + f < MinFreq then Some(MinFreq)
    else if m + f > MaxFreq then Some(MaxFreq)
    else Some(f + m)
  }

  /** Within the bounds, a key either moves the frequency to the clamped sum or leaves it where the clamp would. */
  lemma ApplyModifierClamps(f: int, m: int)
    requires MinFreq <= f <= MaxFreq
    ensures ApplyModifier(f, m).Some? ==> ApplyModifier(f, m).value == Clamp(f + m)
    ensures ApplyModifier(f, m).None? ==> f == Clamp(f + m)
  {
  }

  /** _handleFreqInput over the first keys of the modifier table: the frequency and the changed flag. */
  function FreqInput(f: int, changed: bool, mods: seq<(int, int)>, released: set<int>): (int, bool)
  {
    if mods == [] then (f, changed)
    else
      var (f', changed') := FreqInput(f, changed, mods[..|mods| - 1], released);
      var (key, m) := mods[|mods| - 1];
      if key !in released then (f', changed')
      else match ApplyModifier(f', m)
        case None => (f', changed')
        case Some(g) => (g, true)
  }

  /**
   * A frequency that starts within [1, 1000] stays there whatever keys are
   * released, and the flag is raised only by a key that was applied.
   */
  lemma {:induction false} FreqInputInRange(f: int, changed: bool, mods: seq<(int, int)>, released: set<int>)
    requires MinFreq <= f <= MaxFreq
    ensures var (g, c) := FreqInput(f, changed, mods, released); MinFreq <= g <= MaxFreq && (g != f ==> c)
  {
    if mods != [] {
      FreqInputInRange(f, changed, mods[..|mods| - 1], released);
    }
  }

  /** Once any key has been applied the frequency is within [1, 1000], wherever it started. */
  lemma {:induction false} FreqInputChangedInRange(f: int, mods: seq<(int, int)>, released: set<int>)
    ensures var (g, c) := FreqInput(f, false, mods, released); c ==> MinFreq <= g <= MaxFreq
  {
    if mods != [] {
      FreqInputChangedInRange(f, mods[..|mods| - 1], released);
    }
  }

  /** LEFT past the first card, as written: the last multiple of the page size, pulled back by one less than a page when that is the end. */
  function LeftWrapAsWritten(size: nat, number: nat): int
    requires number >= 1
  {
    var start := number * (size / number);
    if start == size then start - (number - 1) else start
  }

  /** LEFT past the first card, as intended: the start of the last page. */
  function LeftWrap(size: nat, number: nat): (start: int)
    requires size >= 1 && number >= 1
    ensures 0 <= start < size && start + number >= size
  {
    var start := number * (size / number);
    if start == size then start - number else start
  }

  /** The two agree unless the players fill whole pages. */
  lemma LeftWrapDiffersOnFullPages(size: nat, number: nat)
    requires size >= 1 && number >= 1
    ensures size % number != 0 ==> LeftWrapAsWritten(size, number) == LeftWrap(size, number)
    ensures size % number == 0 ==> LeftWrapAsWritten(size, number) == LeftWrap(size, number) + 1
  {
  }

  /** _handlePlayersInput: the new first-card index and page size; the first released of up, down, left, right acts. */
  function PlayersPage(size: nat, index: int, number: int, released: set<int>): (r: (int, int))
    requires size >= 1 ==> 1 <= number <= MaxPlayersDisplayed
    ensures size >= 1 ==> MinPlayersDisplayed <= r.1 <= MaxPlayersDisplayed
    ensures size == 0 ==> r == (index, number)
  {
    if size == 0 then (index, number)
    else if KeyUp in released then (index, if number + 1 > MaxPlayersDisplayed then MaxPlayersDisplayed else number + 1)
    else if KeyDown in released then (index, if number - 1 < MinPlayersDisplayed then MinPlayersDisplayed else number - 1)
    else if KeyLeft in released then (if index - number < 0 then LeftWrapAsWritten(size, number) else index - number, number)
    else if KeyRight in released then (if index + number >= size then 0 else index + number, number)
    else (index, number)
  }

  /** Paging keeps the first-card index within [0, size]. */
  lemma PlayersPageIndexBounded(size: nat, index: int, number: int, released: set<int>)
    requires size >= 1 && 1 <= number <= MaxPlayersDisplayed && 0 <= index <= size
    ensures 0 <= PlayersPage(size, index, number, released).0 <= size
  {
  }

  /** The cards drawn: from the first-card index, at most a page, never past the end. */
  function ShownIds(ids: seq<int>, index: int, number: int): (shown: seq<int>)
    requires 0 <= index <= |ids| && number >= 0
    ensures |shown| <= number && index + |shown| <= |ids|
    ensures shown == ids[index..index + |shown|]
  {
    var available := |ids| - index;
    ids[index..index + if number < available then number else available]
  }

  /** One player shown one at a time: LEFT from the only card lands past the end, and no card is drawn. */
  lemma LeftFromOnlyPlayerShowsNothing(id: int)
    ensures var (index, number) := PlayersPage(1, 0, 1, {KeyLeft});
      index == 1 && ShownIds([id], index, number) == []
  {
  }

  /** With the intended wrap, LEFT always lands on a page that shows at least one card. */
  lemma LeftWrapShowsPlayers(ids: seq<int>, number: int)
    requires |ids| >= 1 && 1 <= number
    ensures |ShownIds(ids, LeftWrap(|ids|, number), number)| >= 1
  {
  }

  /**
   * removePlayer's index update, as written: an index at or past the new
   * size is reduced modulo the size before the emptiness test, so when the
   * last player goes the remainder is taken by zero (None).
   */
  function RemovedIndexAsWritten(index: int, size: nat): Option<int>
  {
    if index >= size then
      (if size == 0 then None else Some(index % size))
    else if size == 0 then Some(-1)
    else Some(index)
  }

  /** Removing the only player reaches `index % 0`. */
  lemma RemoveLastPlayerDividesByZero()
    ensures RemovedIndexAsWritten(0, 0).None?
  {
  }

  /** Erase the first occurrence of x, if any. */
  function RemoveFirst(xs: seq<int>, x: int): (r: seq<int>)
    ensures x !in xs ==> r == xs
    ensures x in xs ==> |r| == |xs| - 1
    ensures multiset(r) == multiset(xs) - multiset{x}
  {
    if xs == [] then []
    else
      assert xs == [xs[0]] + xs[1..];
      if xs[0] == x then xs[1..] else [xs[0]] + RemoveFirst(xs[1..], x)
  }

  class GameMenu {
    var fontSize: int
    var frequency: int
    var freqChanged: bool
    var displayedPlayersIndex: int
    var numberPlayerDisplayed: int
    var displayAll: bool
    var playersIds: seq<int>
    var broadcasts: seq<string>
    var modifiedSection: MenuModifiedSection
    var menuStatesKeys: map<MenuState, int>
    var menuStates: map<MenuState, bool>

    /**
     * Paging state: no player means index -1 and page size 0; otherwise the
     * page size is within [1, 6] and the index within [0, number of players].
     */
    ghost predicate Valid()
      reads this
    {
      (playersIds == [] ==> displayedPlayersIndex == -1 && numberPlayerDisplayed == 0) &&
      (playersIds != [] ==>
        MinPlayersDisplayed <= numberPlayerDisplayed <= MaxPlayersDisplayed &&
        0 <= displayedPlayersIndex <= |playersIds|) &&
      |broadcasts| <= MaxBroadcasts
    }

    /** The section is indeterminate until init; it is NONE here, which has no handler. */
    constructor ()
      ensures Valid()
      ensures fontSize == DefaultFontSize && frequency == 0 && !freqChanged && displayAll
      ensures playersIds == [] && broadcasts == [] && modifiedSection == NoneSection
      ensures menuStatesKeys == map[] && menuStates == map[]
    {
      fontSize, frequency, freqChanged := DefaultFontSize, 0, false;
      displayedPlayersIndex, numberPlayerDisplayed, displayAll := -1, 0, true;
      playersIds, broadcasts := [], [];
      modifiedSection, menuStatesKeys, menuStates := NoneSection, map[], map[];
    }

    /** init: the frequency comes from the game state; H, B and P toggle hidden panels; arrows start on the frequency. */
    method Init(stateFrequency: int)
      modifies this`frequency, this`modifiedSection, this`menuStatesKeys, this`menuStates
      ensures frequency == stateFrequency && modifiedSection == FreqSection
      ensures menuStatesKeys == map[Help := KeyH, Broadcasts := KeyB, Players := KeyP]
      ensures menuStates == map[Help := false, Broadcasts := false, Players := false]
    {
      frequency := stateFrequency;
      modifiedSection := FreqSection;
      menuStatesKeys := map[Help := KeyH, Broadcasts := KeyB, Players := KeyP];
      menuStates := map[Help := false, Broadcasts := false, Players := false];
    }

    /** hasFrequencyChanged: reports the flag once and clears it. */
    method HasFrequencyChanged() returns (changed: bool)
      modifies this`freqChanged
      ensures changed == old(freqChanged) && !freqChanged
    {
      changed := freqChanged;
      if freqChanged {
        freqChanged := false;
      }
    }

    /**
     * handleInput: released panel keys flip their panels, F1 flips the whole
     * display, F moves to the next section, then the section's handler runs.
     */
    method HandleInput(im: InputManager)
      requires Valid() && modifiedSection != NoneSection
      modifies this
      ensures playersIds == old(playersIds) && broadcasts == old(broadcasts) && menuStatesKeys == old(menuStatesKeys)
      ensures fontSize == old(fontSize)
      ensures Valid() && modifiedSection != NoneSection
      ensures menuStates == Toggled(old(menuStates), old(menuStatesKeys), im.ReleasedKeys())
      ensures displayAll == (old(displayAll) != im.IsKeyReleased(KeyF1))
      ensures modifiedSection == if im.IsKeyReleased(KeyF) then NextSection(old(modifiedSection)) else old(modifiedSection)
      ensures modifiedSection == FreqSection ==>
        (frequency, freqChanged) == FreqInput(old(frequency), old(freqChanged), FrequencyKeyModifiers, im.ReleasedKeys()) &&
        displayedPlayersIndex == old(displayedPlayersIndex) && numberPlayerDisplayed == old(numberPlayerDisplayed)
      ensures modifiedSection == PlayersSection ==>
        (displayedPlayersIndex, numberPlayerDisplayed) == PlayersPage(|playersIds|, old(displayedPlayersIndex), old(numberPlayerDisplayed), im.ReleasedKeys()) &&
        frequency == old(frequency) && freqChanged == old(freqChanged)
    {
      ToggleMenus(im);
      match modifiedSection
      case FreqSection => HandleFreqInput(im);
      case PlayersSection => HandlePlayersInput(im);
    }

    /** The toggles of handleInput, before the section's handler. */
    method ToggleMenus(im: InputManager)
      requires modifiedSection != NoneSection
      modifies this`menuStates, this`displayAll, this`modifiedSection
      ensures modifiedSection != NoneSection
      ensures menuStates == Toggled(old(menuStates), menuStatesKeys, im.ReleasedKeys())
      ensures displayAll == (old(displayAll) != im.IsKeyReleased(KeyF1))
      ensures modifiedSection == if im.IsKeyReleased(KeyF) then NextSection(old(modifiedSection)) else old(modifiedSection)
    {
      menuStates := Toggled(menuStates, menuStatesKeys, im.ReleasedKeys());
      if im.IsKeyReleased(KeyF1) {
        displayAll := !displayAll;
      }
      if im.IsKeyReleased(KeyF) {
        modifiedSection := NextSection(modifiedSection);
      }
    }

    /** _handleFreqInput: each released modifier key, in table order, is applied or skipped. */
    method HandleFreqInput(im: InputManager)
      modifies this`frequency, this`freqChanged
      ensures (frequency, freqChanged) == FreqInput(old(frequency), old(freqChanged), FrequencyKeyModifiers, im.ReleasedKeys())
    {
      var released := im.ReleasedKeys();
      var i := 0;
      while i < |FrequencyKeyModifiers|
        invariant 0 <= i <= |FrequencyKeyModifiers|
        invariant (frequency, freqChanged) == FreqInput(old(frequency), old(freqChanged), FrequencyKeyModifiers[..i], released)
      {
        var (key, modifier) := FrequencyKeyModifiers[i];
        assert FrequencyKeyModifiers[..i + 1][..i] == FrequencyKeyModifiers[..i];
        if im.IsKeyReleased(key) {
          if modifier < 0 && frequency == MinFreq {
          } else if modifier > 0 && frequency == MaxFreq {
          } else {
            if modifier + frequency < MinFreq {
              frequency := MinFreq;
            } else if modifier + frequency > MaxFreq {
              frequency := MaxFreq;
            } else {
              frequency := frequency + modifier;
            }
            freqChanged := true;
          }
        }
        i := i + 1;
      }
      assert FrequencyKeyModifiers[..i] == FrequencyKeyModifiers;
    }

    /** _handlePlayersInput: page size and first card follow the arrow keys. */
    method HandlePlayersInput(im: InputManager)
      requires Valid()
      modifies this`displayedPlayersIndex, this`numberPlayerDisplayed
      ensures Valid()
      ensures (displayedPlayersIndex, numberPlayerDisplayed) ==
        PlayersPage(|playersIds|, old(displayedPlayersIndex), old(numberPlayerDisplayed), im.ReleasedKeys())
    {
      if |playersIds| == 0 {
        return;
      }
      PlayersPageIndexBounded(|playersIds|, displayedPlayersIndex, numberPlayerDisplayed, im.ReleasedKeys());
      if im.IsKeyReleased(KeyUp) {
        numberPlayerDisplayed := numberPlayerDisplayed + 1;
        if numberPlayerDisplayed > MaxPlayersDisplayed {
          numberPlayerDisplayed := MaxPlayersDisplayed;
        }
      } else if im.IsKeyReleased(KeyDown) {
        numberPlayerDisplayed := numberPlayerDisplayed - 1;
        if numberPlayerDisplayed < MinPlayersDisplayed {
          numberPlayerDisplayed := MinPlayersDisplayed;
        }
      } else if im.IsKeyReleased(KeyLeft) {
        displayedPlayersIndex := displayedPlayersIndex - numberPlayerDisplayed;
        if displayedPlayersIndex < 0 {
          displayedPlayersIndex := numberPlayerDisplayed * (|playersIds| / numberPlayerDisplayed);
          if displayedPlayersIndex == |playersIds| {
            displayedPlayersIndex := displayedPlayersIndex - (numberPlayerDisplayed - 1);
          }
        }
      } else if im.IsKeyReleased(KeyRight) {
        displayedPlayersIndex := displayedPlayersIndex + numberPlayerDisplayed;
        if displayedPlayersIndex >= |playersIds| {
          displayedPlayersIndex := 0;
        }
      }
    }

    /** addPlayer: the id joins the end; the first player opens a one-card page at index 0. */
    method AddPlayer(id: int)
      requires Valid()
      modifies this`playersIds, this`displayedPlayersIndex, this`numberPlayerDisplayed
      ensures Valid()
      ensures playersIds == old(playersIds) + [id]
      ensures old(playersIds) == [] ==> displayedPlayersIndex == 0 && numberPlayerDisplayed == 1
      ensures old(playersIds) != [] ==>
        displayedPlayersIndex == old(displayedPlayersIndex) && numberPlayerDisplayed == old(numberPlayerDisplayed)
    {
      if playersIds == [] {
        displayedPlayersIndex := 0;
        numberPlayerDisplayed := 1;
      }
      playersIds := playersIds + [id];
    }

    /**
     * removePlayer, with the emptiness test before the remainder: the first
     * occurrence of the id goes, an index past the end is reduced modulo the
     * new size, and an empty list resets the paging.
     */
    method RemovePlayer(id: int)
      requires Valid()
      modifies this`playersIds, this`displayedPlayersIndex, this`numberPlayerDisplayed
      ensures Valid()
      ensures playersIds == RemoveFirst(old(playersIds), id)
      ensures playersIds == [] ==> displayedPlayersIndex == -1 && numberPlayerDisplayed == 0
      ensures playersIds != [] ==> numberPlayerDisplayed == old(numberPlayerDisplayed)
      ensures playersIds != [] ==> RemovedIndexAsWritten(old(displayedPlayersIndex), |playersIds|) == Some(displayedPlayersIndex)
    {
      playersIds := RemoveFirst(playersIds, id);
      if playersIds == [] {
        displayedPlayersIndex := -1;
        numberPlayerDisplayed := 0;
      } else if displayedPlayersIndex >= |playersIds| {
        displayedPlayersIndex := displayedPlayersIndex % |playersIds|;
      }
    }

    /** playerBroadcast: the formatted line joins the history of the last ten. */
    method PlayerBroadcast(id: int, message: string, team: string)
      requires Valid()
      modifies this`broadcasts
      ensures Valid()
      ensures broadcasts == PushBounded(old(broadcasts), BroadcastLine(id, message, team))
    {
      broadcasts := PushBounded(broadcasts, BroadcastLine(id, message, team));
    }
  }
}
