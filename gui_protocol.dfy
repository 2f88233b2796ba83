/** The three-letter codes of the graphical protocol and their enumerators. */
module GuiProtocol {
  datatype GuiProtocol =
    | MapSize
    | TileContent
    | MapContent
    | TeamName
    | NewPlayer
    | PlayerPosition
    | PlayerLevel
    | PlayerInventory
    | PlayerExpulsion
    | PlayerBroadcast
    | IncantationStart
    | IncantationEnd
    | EggLaying
    | ResourceDrop
    | ResourceCollect
    | PlayerDeath
    | EggCreated
    | EggHatch
    | EggDestroyed
    | TimeUnitRequest
    | TimeUnitModification
    | GameEnd
    | ServerMessage
    | UnknownCommand
    | CommandParameter
    | Size

  /** castGuiProtocol: the enumerator's position; SIZE is the count. */
  function CastGuiProtocol(p: GuiProtocol): (i: nat)
    ensures i <= 25
    ensures i == 25 <==> p == Size
  {
    match p
    case MapSize => 0
    case TileContent => 1
    case MapContent => 2
    case TeamName => 3
    case NewPlayer => 4
    case PlayerPosition => 5
    case PlayerLevel => 6
    case PlayerInventory => 7
    case PlayerExpulsion => 8
    case PlayerBroadcast => 9
    case IncantationStart => 10
    case IncantationEnd => 11
    case EggLaying => 12
    case ResourceDrop => 13
    case ResourceCollect => 14
    case PlayerDeath => 15
    case EggCreated => 16
    case EggHatch => 17
    case EggDestroyed => 18
    case TimeUnitRequest => 19
    case TimeUnitModification => 20
    case GameEnd => 21
    case ServerMessage => 22
    case UnknownCommand => 23
    case CommandParameter => 24
    case Size => 25
  }

  /** GuiProtocolCount: the number of enumerators before SIZE. */
  const GuiProtocolCount: nat := CastGuiProtocol(Size)

  /** The code guiProtocolMap associates with an enumerator; SIZE has no entry. */
  function MapEntry(p: GuiProtocol): (s: string)
    requires p != Size
    ensures |s| == 3
  {
    match p
    case MapSize => "msz"
    case TileContent => "bct"
    case MapContent => "mct"
    case TeamName => "tna"
    case NewPlayer => "pnw"
    case PlayerPosition => "ppo"
    case PlayerLevel => "plv"
    case PlayerInventory => "pin"
    case PlayerExpulsion => "pex"
    case PlayerBroadcast => "pbc"
    case IncantationStart => "pic"
    case IncantationEnd => "pie"
    case EggLaying => "pfk"
    case ResourceDrop => "pdr"
    case ResourceCollect => "pgt"
    case PlayerDeath => "pdi"
    case EggCreated => "enw"
    case EggHatch => "ebo"
    case EggDestroyed => "edi"
    case TimeUnitRequest => "sgt"
    case TimeUnitModification => "sst"
    case GameEnd => "seg"
    case ServerMessage => "smg"
    case UnknownCommand => "suc"
    case CommandParameter => "sbp"
  }

  /**
   * getGuiProtocol(string): the enumerator whose code is s, UNKNOWN_COMMAND
   * for every string that is not one of the 25 codes. The codes all have
   * three characters, so the map lookup compares them character by character.
   */
  function FromCode(s: string): (r: GuiProtocol)
    ensures r != Size
  {
    if |s| != 3 then UnknownCommand
    else if s[0] == 'm' && s[1] == 's' && s[2] == 'z' then MapSize
    else if s[0] == 'b' && s[1] == 'c' && s[2] == 't' then TileContent
    else if s[0] == 'm' && s[1] == 'c' && s[2] == 't' then MapContent
    else if s[0] == 't' && s[1] == 'n' && s[2] == 'a' then TeamName
    else if s[0] == 'p' && s[1] == 'n' && s[2] == 'w' then NewPlayer
    else if s[0] == 'p' && s[1] == 'p' && s[2] == 'o' then PlayerPosition
    else if s[0] == 'p' && s[1] == 'l' && s[2] == 'v' then PlayerLevel
    else if s[0] == 'p' && s[1] == 'i' && s[2] == 'n' then PlayerInventory
    else if s[0] == 'p' && s[1] == 'e' && s[2] == 'x' then PlayerExpulsion
    else if s[0] == 'p' && s[1] == 'b' && s[2] == 'c' then PlayerBroadcast
    else if s[0] == 'p' && s[1] == 'i' && s[2] == 'c' then IncantationStart
    else if s[0] == 'p' && s[1] == 'i' && s[2] == 'e' then IncantationEnd
    else if s[0] == 'p' && s[1] == 'f' && s[2] == 'k' then EggLaying
    else if s[0] == 'p' && s[1] == 'd' && s[2] == 'r' then ResourceDrop
    else if s[0] == 'p' && s[1] == 'g' && s[2] == 't' then ResourceCollect
    else if s[0] == 'p' && s[1] == 'd' && s[2] == 'i' then PlayerDeath
    else if s[0] == 'e' && s[1] == 'n' && s[2] == 'w' then EggCreated
    else if s[0] == 'e' && s[1] == 'b' && s[2] == 'o' then EggHatch
    else if s[0] == 'e' && s[1] == 'd' && s[2] == 'i' then EggDestroyed
    else if s[0] == 's' && s[1] == 'g' && s[2] == 't' then TimeUnitRequest
    else if s[0] == 's' && s[1] == 's' && s[2] == 't' then TimeUnitModification
    else if s[0] == 's' && s[1] == 'e' && s[2] == 'g' then GameEnd
    else if s[0] == 's' && s[1] == 'm' && s[2] == 'g' then ServerMessage
    else if s[0] == 's' && s[1] == 'u' && s[2] == 'c' then UnknownCommand
    else if s[0] == 's' && s[1] == 'b' && s[2] == 'p' then CommandParameter
    else UnknownCommand
  }

  /** getGuiProtocol(enum): the mapped code, or the code of UNKNOWN_COMMAND ("suc") for SIZE. */
  function ToCode(p: GuiProtocol): (s: string)
    ensures |s| == 3
    ensures p == Size ==> s == "suc"
  {
    if p == Size then MapEntry(UnknownCommand) else MapEntry(p)
  }

  /** enum to string to enum is the identity on the 25 enumerators; SIZE reads back as UNKNOWN_COMMAND. */
  lemma EnumRoundTrip(p: GuiProtocol)
    ensures FromCode(ToCode(p)) == (if p == Size then UnknownCommand else p)
  {
  }

  /** The 25 map entries have pairwise distinct codes, and the map holds one entry per enumerator before SIZE. */
  lemma CodesDistinct(p: GuiProtocol, q: GuiProtocol)
    requires p != Size && q != Size && MapEntry(p) == MapEntry(q)
    ensures p == q
    ensures GuiProtocolCount == 25
  {
    EnumRoundTrip(p);
    EnumRoundTrip(q);
  }

  /** string to enum to string is the identity on the 25 codes; every other string reads as UNKNOWN_COMMAND. */
  lemma CodeRoundTrip(s: string)
    ensures (exists p :: p != Size && MapEntry(p) == s) ==> ToCode(FromCode(s)) == s
    ensures (forall p :: p != Size ==> MapEntry(p) != s) ==> FromCode(s) == UnknownCommand
  {
    if |s| == 3 {
      var r := FromCode(s);
      if r != UnknownCommand || s == "suc" {
        assert s == [s[0], s[1], s[2]];
        assert ToCode(r) == s;
      }
    }
    if exists p :: p != Size && MapEntry(p) == s {
      var p :| p != Size && MapEntry(p) == s;
      EnumRoundTrip(p);
    }
  }
}
