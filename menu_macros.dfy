/** The graphical menus' shared bounds and enumerations. */
module MenuMacros {
  /** The reference screen size the menus scale from. */
  const DefaultScreenWidth: int := 1920
  const DefaultScreenHeight: int := 1080
  const DefaultFontSize: int := 20

  /** The frequency the menu lets the user pick lies in [MinFreq, MaxFreq]. */
  const MinFreq: int := 1
  const MaxFreq: int := 1000

  /** How many player cards the menu shows at once lies in [MinPlayersDisplayed, MaxPlayersDisplayed]. */
  const MinPlayersDisplayed: int := 1
  const MaxPlayersDisplayed: int := 6

  /** The panels of the in-game menu. */
  datatype MenuState = Help | Broadcasts | Players

  /** The setting the arrow keys currently change. */
  datatype MenuModifiedSection = FreqSection | PlayersSection | NoneSection

  /** static_cast<int> of a section. */
  function SectionIndex(s: MenuModifiedSection): (i: nat)
    ensures i <= 2
    ensures s == NoneSection <==> i == 2
  {
    match s
    case FreqSection => 0
    case PlayersSection => 1
    case NoneSection => 2
  }

  /** The number of real sections: NONE's index. */
  const MenuModSectionSize: int := SectionIndex(NoneSection)

  function SectionAt(i: nat): (s: MenuModifiedSection)
    requires i <= 2
    ensures SectionIndex(s) == i
  {
    if i == 0 then FreqSection else if i == 1 then PlayersSection else NoneSection
  }

  /**
   * `++` on a section: the next real section, cycling modulo
   * MENU_MOD_SECTION_SIZE, so NONE is never reached.
   */
  function NextSection(s: MenuModifiedSection): (r: MenuModifiedSection)
    ensures r != NoneSection
    ensures SectionIndex(r) == (SectionIndex(s) + 1) % MenuModSectionSize
  {
    SectionAt((SectionIndex(s) + 1) % MenuModSectionSize)
  }

  /** Pressing the section key twice comes back to the same real section. */
  lemma NextSectionCycles(s: MenuModifiedSection)
    requires s != NoneSection
    ensures NextSection(NextSection(s)) == s
  {
  }
}
