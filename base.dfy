/**
 * The server's command line: -p, -x, -y, -c and -f each set an int from
 * the argument after it, -n lists the team names up to the next argument
 * that starts with '-', and the values are checked once the list is read.
 * Every player team gets the next id from 1 on, and each -n list ends with
 * the GRAPHIC team, id 0. Errors are the exceptions the server throws; the
 * fields keep what was stored before the throw.
 */
module ServerArgs {
  import opened Wrappers
  import opened CppInt
  import opened Text
  import opened ServerWorld

  /** The value of a setting no flag has set. */
  const NoValue: int := -1

  /** The id of the GRAPHIC team. */
  const GuiId: int := 0

  /** The exceptions parsing throws. */
  datatype ServerError =
    | ServerConnection  // argv missing: "Unable to access argv"
    | NullArgument      // a flag as the last argument: its value is built from the null argv[argc]
    | UnknownFlag       // "Missing or invalid value"
    | GraphicReserved   // "GRAPHIC is reserved for the gui"
    | NoTeamNames       // "Flag -n must have at least on argument !"
    | MissingOrInvalid  // "Missing or Invalid arguments: -p -x -y -c -f -n <names>"

  /** A team as parsing creates it: a TeamsPlayer or the TeamsGui. */
  datatype ParsedTeam = ParsedTeam(name: string, id: int, gui: bool)

  /** The server's settings, team names and teams. */
  datatype Config = Config(port: int, width: int, height: int, clientNb: int, freq: int,
                           names: seq<string>, teams: seq<ParsedTeam>)

  /** Nothing set yet. */
  const Unset: Config := Config(NoValue, NoValue, NoValue, NoValue, NoValue, [], [])

  /** The int settings a flag can set. */
  datatype Setting = Port | Width | Height | ClientNb | Freq

  /** The flags bound to an int setting (the server's _flags table). */
  const IntFlags: map<string, Setting> := map["-p" := Port, "-x" := Width, "-y" := Height, "-c" := ClientNb, "-f" := Freq]

  /** An argument that ends a -n list: one that starts with '-'. */
  predicate Dash(arg: string)
  {
    |arg| > 0 && arg[0] == '-'
  }

  /**
   * handleFlag: `stream >> res` into an uninitialised int. A number is read
   * (saturated to the range of int); text that is no number stores 0; a
   * value with nothing but blanks leaves res as it was, the value
   * `indeterminate` stands for.
   */
  function HandleFlag(flag: string, indeterminate: int): (v: int)
    ensures InInt(v) || v == indeterminate
  {
    if SkipSpaces(flag) == [] then indeterminate
    else
      match ReadInt(flag)
      case None => 0
      case Some((n, _)) => Saturate(n)
  }

  /** The setting a flag's lambda assigns. */
  function SetFlag(c: Config, setting: Setting, v: int): (r: Config)
    ensures r.names == c.names && r.teams == c.teams
  {
    match setting
    case Port => c.(port := v)
    case Width => c.(width := v)
    case Height => c.(height := v)
    case ClientNb => c.(clientNb := v)
    case Freq => c.(freq := v)
  }

  /**
   * _parseName's loop from argv[j]: the names up to the end or an argument
   * starting with '-', each a player team with the next id. It returns the
   * settings, the error (a GRAPHIC name, pushed to the names before the
   * throw) and the index where it stopped.
   */
  function NamesFrom(argv: seq<string>, j: nat, c: Config, teamId: int): (r: (Config, Option<ServerError>, nat))
    ensures r.2 >= j && (j <= |argv| ==> r.2 <= |argv|) && (r.1.Some? ==> r.2 < |argv|)
    decreases |argv| - j
  {
    if j >= |argv| || Dash(argv[j]) then (c, None, j)
    else if argv[j] == GraphicTeam then (c.(names := c.names + [argv[j]]), Some(GraphicReserved), j)
    else NamesFrom(argv, j + 1, c.(names := c.names + [argv[j]], teams := c.teams + [ParsedTeam(argv[j], teamId, false)]), teamId + 1)
  }

  /** The GRAPHIC team closing a -n list. */
  function WithGui(c: Config): Config
  {
    c.(names := c.names + [GraphicTeam], teams := c.teams + [ParsedTeam(GraphicTeam, GuiId, true)])
  }

  /**
   * _parseName from the "-n" at argv[i]: the settings it leaves, the error
   * it throws, if any, and the index the option loop goes on from.
   */
  function NameList(argv: seq<string>, i: nat, c: Config): (r: (Config, Option<ServerError>, nat))
    ensures r.2 > i && (i < |argv| ==> r.2 <= |argv|)
  {
    var (c1, e, j) := NamesFrom(argv, i + 1, c, 1);
    if e.Some? then (c1, e, j)
    else if |WithGui(c1).teams| == 1 then (WithGui(c1), Some(NoTeamNames), j)
    else (WithGui(c1), None, j)
  }

  /** _parseFlags's loop from argv[i]: the settings it leaves and the error it throws, if any. */
  function Parse(argv: seq<string>, i: nat, c: Config, indeterminate: int): (r: (Config, Option<ServerError>))
    decreases |argv| - i
  {
    if i >= |argv| then (c, None)
    else if argv[i] == "-n" then
      var r := NameList(argv, i, c);
      if r.1.Some? then (r.0, r.1) else Parse(argv, r.2, r.0, indeterminate)
    else if i + 1 >= |argv| then (c, Some(NullArgument))
    else if argv[i] !in IntFlags then (c, Some(UnknownFlag))
    else Parse(argv, i + 2, SetFlag(c, IntFlags[argv[i]], HandleFlag(argv[i + 1], indeterminate)), indeterminate)
  }

  /** _checkParams: every setting given, a positive frequency and at least one name. */
  function CheckParams(c: Config): (e: Option<ServerError>)
  {
    if c.port == NoValue || c.width == NoValue || c.height == NoValue || c.freq <= 0
       || c.clientNb == NoValue || c.names == [] then Some(MissingOrInvalid)
    else None
  }

  /** The whole of _parseFlags on argv (argv[0] the program name). */
  function CommandLine(argv: seq<string>, c: Config, indeterminate: int): (Config, Option<ServerError>)
  {
    if argv == [] then (c, Some(ServerConnection))
    else
      var (c1, e) := Parse(argv, 1, c, indeterminate);
      (c1, if e.Some? then e else CheckParams(c1))
  }

  /** The first player with the socket, in team order then member order. */
  function FirstWithSocket(players: seq<ServerPlayer>, socket: int): (r: Option<nat>)
    ensures r.Some? ==> r.value < |players| && players[r.value].socket == socket
                        && forall k :: 0 <= k < r.value ==> players[k].socket != socket
    ensures r.None? ==> forall k :: 0 <= k < |players| ==> players[k].socket != socket
  {
    if players == [] then None
    else if players[0].socket == socket then Some(0)
    else match FirstWithSocket(players[1..], socket)
      case None => None
      case Some(k) => Some(k + 1)
  }

  class Server {
    var port: int
    var width: int
    var height: int
    var clientNb: int
    var freq: int
    var namesTeam: seq<string>
    var teamList: seq<ParsedTeam>

    function Settings(): Config
      reads this
    {
      Config(port, width, height, clientNb, freq, namesTeam, teamList)
    }

    /** The members' initial values: every setting noValue, no names, no teams. */
    constructor()
      ensures Settings() == Unset
    {
      port, width, height, clientNb, freq := NoValue, NoValue, NoValue, NoValue, NoValue;
      namesTeam, teamList := [], [];
    }

    /**
     * _parseName(index, argv), index at "-n": the names that follow become
     * player teams 1, 2, ..., then GRAPHIC is added. The index returned is
     * that of the last argument consumed.
     */
    method ParseName(index: nat, argv: seq<string>) returns (last: nat, error: Option<ServerError>)
      requires index < |argv|
      modifies this
      ensures var r := NameList(argv, index, old(Settings()));
        Settings() == r.0 && error == r.1 && (error.None? ==> last + 1 == r.2)
    {
      var teamId := 1;
      var j := index + 1;
      while j < |argv| && !Dash(argv[j])
        invariant index + 1 <= j <= |argv|
        invariant NamesFrom(argv, j, Settings(), teamId) == NamesFrom(argv, index + 1, old(Settings()), 1)
        decreases |argv| - j
      {
        namesTeam := namesTeam + [argv[j]];
        if argv[j] == GraphicTeam {
          return 0, Some(GraphicReserved);
        }
        teamList := teamList + [ParsedTeam(argv[j], teamId, false)];
        j := j + 1;
        teamId := teamId + 1;
      }
      namesTeam := namesTeam + [GraphicTeam];
      teamList := teamList + [ParsedTeam(GraphicTeam, GuiId, true)];
      if |teamList| == 1 {
        return 0, Some(NoTeamNames);
      }
      last, error := j - 1, None;
    }

    /** The lambda a flag is bound to: it stores v into its setting. */
    method Assign(setting: Setting, v: int)
      modifies this
      ensures Settings() == SetFlag(old(Settings()), setting, v)
    {
      match setting {
        case Port => port := v;
        case Width => width := v;
        case Height => height := v;
        case ClientNb => clientNb := v;
        case Freq => freq := v;
      }
    }

    /** _parseFlagsInt: an int flag stores its value through its lambda; any other flag throws. */
    method ParseFlagsInt(flag: string, value: string, indeterminate: int) returns (error: Option<ServerError>)
      modifies this
      ensures flag !in IntFlags ==> error == Some(UnknownFlag) && Settings() == old(Settings())
      ensures flag in IntFlags ==>
        error == None && Settings() == SetFlag(old(Settings()), IntFlags[flag], HandleFlag(value, indeterminate))
    {
      if flag !in IntFlags {
        return Some(UnknownFlag);
      }
      Assign(IntFlags[flag], HandleFlag(value, indeterminate));
      error := None;
    }

    /** _checkParams. */
    method CheckParameters() returns (error: Option<ServerError>)
      ensures error == CheckParams(Settings())
    {
      if port == NoValue || width == NoValue || height == NoValue || freq <= 0 || clientNb == NoValue || namesTeam == [] {
        return Some(MissingOrInvalid);
      }
      error := None;
    }

    /** _parseFlags(argc, argv): the option loop, then the validation of the settings. */
    method ParseFlags(argv: seq<string>, indeterminate: int) returns (error: Option<ServerError>)
      modifies this
      ensures (Settings(), error) == CommandLine(argv, old(Settings()), indeterminate)
    {
      if argv == [] {
        return Some(ServerConnection);
      }
      var i := 1;
      while i < |argv|
        invariant 1 <= i <= |argv|
        invariant Parse(argv, i, Settings(), indeterminate) == Parse(argv, 1, old(Settings()), indeterminate)
        decreases |argv| - i
      {
        if argv[i] == "-n" {
          NamesStep(argv, i, Settings(), indeterminate);
          ghost var r := NameList(argv, i, Settings());
          var last;
          last, error := ParseName(i, argv);
          if error.Some? {
            return;
          }
          assert i < last + 1 == r.2 <= |argv|;
          assert Parse(argv, last + 1, Settings(), indeterminate) == Parse(argv, 1, old(Settings()), indeterminate);
          i := last + 1;
          continue;
        }
        if i + 1 >= |argv| {
          LastFlagHasNoValue(argv, Settings(), indeterminate);
          return Some(NullArgument);
        }
        ghost var before := Settings();
        error := ParseFlagsInt(argv[i], argv[i + 1], indeterminate);
        if error.Some? {
          UnknownFlagRejected(argv, i, before, indeterminate);
          return;
        }
        FlagStep(argv, i, before, indeterminate);
        assert Parse(argv, i + 2, Settings(), indeterminate) == Parse(argv, 1, old(Settings()), indeterminate);
        i := i + 2;
      }
      error := CheckParameters();
    }

    /** getPlayerBySocket: the first player with the socket, or none. */
    method GetPlayerBySocket(players: seq<ServerPlayer>, socket: int) returns (r: Option<nat>)
      ensures r.Some? ==> r.value < |players| && players[r.value].socket == socket
                          && forall k :: 0 <= k < r.value ==> players[k].socket != socket
      ensures r.None? ==> forall k :: 0 <= k < |players| ==> players[k].socket != socket
    {
      var k := 0;
      while k < |players|
        invariant k <= |players|
        invariant forall m :: 0 <= m < k ==> players[m].socket != socket
      {
        if players[k].socket == socket {
          return Some(k);
        }
        k := k + 1;
      }
      return None;
    }
  }

  /** Player teams for the names, numbered on from teamId. */
  function Numbered(names: seq<string>, teamId: int): (r: seq<ParsedTeam>)
    ensures |r| == |names|
    ensures forall t :: 0 <= t < |names| ==> r[t] == ParsedTeam(names[t], teamId + t, false)
  {
    seq(|names|, t requires 0 <= t < |names| => ParsedTeam(names[t], teamId + t, false))
  }

  // ---- properties ----------------------------------------------------------------------

  /**
   * A -n list stops at the end of argv, at an argument starting with '-'
   * (no error) or at a name GRAPHIC (the error); every name before the stop
   * is neither.
   */
  lemma {:induction false} NamesStop(argv: seq<string>, j: nat, c: Config, teamId: int)
    requires j <= |argv|
    ensures var (c1, e, k) := NamesFrom(argv, j, c, teamId);
      k <= |argv|
      && (forall t :: j <= t < k ==> !Dash(argv[t]) && argv[t] != GraphicTeam)
      && (e.None? ==> k == |argv| || Dash(argv[k]))
      && (e.Some? ==> e == Some(GraphicReserved) && k < |argv| && argv[k] == GraphicTeam)
    decreases |argv| - j
  {
    if j < |argv| && !Dash(argv[j]) && argv[j] != GraphicTeam {
      NamesStop(argv, j + 1, c.(names := c.names + [argv[j]], teams := c.teams + [ParsedTeam(argv[j], teamId, false)]), teamId + 1);
    }
  }

  /** Numbering a list: its head gets teamId, the rest is numbered on from teamId + 1. */
  lemma NumberedCons(name: string, names: seq<string>, teamId: int)
    ensures Numbered([name] + names, teamId) == [ParsedTeam(name, teamId, false)] + Numbered(names, teamId + 1)
  {
  }

  /** The names of a -n list, up to the stop, become player teams numbered on from teamId in order. */
  lemma {:induction false} NamesNumbered(argv: seq<string>, j: nat, c: Config, teamId: int)
    requires j <= |argv|
    ensures var r := NamesFrom(argv, j, c, teamId);
      r.2 <= |argv| && r.0.teams == c.teams + Numbered(argv[j..r.2], teamId)
    decreases |argv| - j
  {
    if j < |argv| && !Dash(argv[j]) && argv[j] != GraphicTeam {
      var team := ParsedTeam(argv[j], teamId, false);
      var c' := c.(names := c.names + [argv[j]], teams := c.teams + [team]);
      NamesNumbered(argv, j + 1, c', teamId + 1);
      var r := NamesFrom(argv, j + 1, c', teamId + 1);
      assert argv[j..r.2] == [argv[j]] + argv[j + 1..r.2];
      NumberedCons(argv[j], argv[j + 1..r.2], teamId);
    }
  }

  /** The names pushed are the arguments up to the stop, and GRAPHIC too when the list stopped on it. */
  lemma {:induction false} NamesPushed(argv: seq<string>, j: nat, c: Config, teamId: int)
    requires j <= |argv|
    ensures var r := NamesFrom(argv, j, c, teamId);
      var k := if r.1.None? then r.2 else r.2 + 1;
      k <= |argv| && r.0.names == c.names + argv[j..k]
    decreases |argv| - j
  {
    if j < |argv| && !Dash(argv[j]) && argv[j] != GraphicTeam {
      var c' := c.(names := c.names + [argv[j]], teams := c.teams + [ParsedTeam(argv[j], teamId, false)]);
      NamesPushed(argv, j + 1, c', teamId + 1);
      var r := NamesFrom(argv, j + 1, c', teamId + 1);
      var k := if r.1.None? then r.2 else r.2 + 1;
      assert argv[j..k] == [argv[j]] + argv[j + 1..k];
    } else if j < |argv| && !Dash(argv[j]) {
      assert argv[j..j + 1] == [argv[j]];
    }
  }

  /**
   * A first -n list of names n1 ... nk (k at least one): teams n1 ... nk
   * numbered 1 to k, then GRAPHIC with id 0.
   */
  lemma FirstNameList(argv: seq<string>, i: nat, c: Config)
    requires i < |argv| && c.teams == []
    requires NameList(argv, i, c).1.None?
    ensures var r := NameList(argv, i, c);
      r.2 >= i + 2
      && r.0.teams == Numbered(argv[i + 1..r.2], 1) + [ParsedTeam(GraphicTeam, GuiId, true)]
  {
    NamesNumbered(argv, i + 1, c, 1);
  }

  /** Every team is the GRAPHIC team exactly when it is named GRAPHIC. */
  predicate GuiByName(teams: seq<ParsedTeam>)
  {
    forall t :: 0 <= t < |teams| ==> (teams[t].gui <==> teams[t].name == GraphicTeam)
  }

  /** The teams a -n list adds are named after arguments other than GRAPHIC. */
  lemma {:induction false} NamesKeepGuiByName(argv: seq<string>, j: nat, c: Config, teamId: int)
    requires GuiByName(c.teams)
    ensures GuiByName(NamesFrom(argv, j, c, teamId).0.teams)
    decreases |argv| - j
  {
    if j < |argv| && !Dash(argv[j]) && argv[j] != GraphicTeam {
      NamesKeepGuiByName(argv, j + 1, c.(names := c.names + [argv[j]], teams := c.teams + [ParsedTeam(argv[j], teamId, false)]), teamId + 1);
    }
  }

  /** Parsing only ever adds player teams not named GRAPHIC and the GRAPHIC team itself. */
  lemma {:induction false} ParseKeepsGuiByName(argv: seq<string>, i: nat, c: Config, indeterminate: int)
    requires GuiByName(c.teams)
    ensures GuiByName(Parse(argv, i, c, indeterminate).0.teams)
    decreases |argv| - i
  {
    if i < |argv| {
      if argv[i] == "-n" {
        NamesKeepGuiByName(argv, i + 1, c, 1);
        var r := NameList(argv, i, c);
        if r.1.None? {
          ParseKeepsGuiByName(argv, r.2, r.0, indeterminate);
        }
      } else if i + 1 < |argv| && argv[i] in IntFlags {
        FlagStep(argv, i, c, indeterminate);
        var c' := SetFlag(c, IntFlags[argv[i]], HandleFlag(argv[i + 1], indeterminate));
        assert c'.teams == c.teams;
        ParseKeepsGuiByName(argv, i + 2, c', indeterminate);
      }
    }
  }

  /** A flag's value written in decimal is read back as itself. */
  lemma FlagReadable(v: int, indeterminate: int)
    requires InInt(v)
    ensures HandleFlag(IntToString(v), indeterminate) == v
  {
    ReadIntOfIntToString(v, "");
    assert IntToString(v) + "" == IntToString(v);
  }

  /** None of the int flags is "-n". */
  lemma IntFlagIsNotNames(flag: string)
    requires flag in IntFlags
    ensures flag != "-n"
  {
    assert flag[1] != 'n';
  }

  /** One flag and its value: the flag's setting takes the value read, and the loop goes on after it. */
  lemma FlagStep(argv: seq<string>, i: nat, c: Config, indeterminate: int)
    requires i + 1 < |argv| && argv[i] in IntFlags
    ensures Parse(argv, i, c, indeterminate)
         == Parse(argv, i + 2, SetFlag(c, IntFlags[argv[i]], HandleFlag(argv[i + 1], indeterminate)), indeterminate)
  {
    IntFlagIsNotNames(argv[i]);
  }

  /** The -n branch of the loop. */
  lemma NamesStep(argv: seq<string>, i: nat, c: Config, indeterminate: int)
    requires i < |argv| && argv[i] == "-n"
    ensures var r := NameList(argv, i, c);
      Parse(argv, i, c, indeterminate) == if r.1.Some? then (r.0, r.1) else Parse(argv, r.2, r.0, indeterminate)
  {
  }

  /** Anything but -n and the five int flags, before the last argument, throws "Missing or invalid value". */
  lemma UnknownFlagRejected(argv: seq<string>, i: nat, c: Config, indeterminate: int)
    requires i + 1 < |argv| && argv[i] != "-n" && argv[i] !in IntFlags
    ensures Parse(argv, i, c, indeterminate) == (c, Some(UnknownFlag))
  {
  }

  /** A flag as the last argument throws before any lookup: its value would be the null argv[argc]. */
  lemma LastFlagHasNoValue(argv: seq<string>, c: Config, indeterminate: int)
    requires |argv| >= 2 && argv[|argv| - 1] != "-n"
    ensures Parse(argv, |argv| - 1, c, indeterminate) == (c, Some(NullArgument))
  {
  }

  /** "-n" with no name after it, before any other -n, throws for the missing names. */
  lemma EmptyNamesRejected(argv: seq<string>, i: nat, c: Config, indeterminate: int)
    requires i < |argv| && argv[i] == "-n" && c.teams == []
    requires i + 1 == |argv| || Dash(argv[i + 1])
    ensures Parse(argv, i, c, indeterminate).1 == Some(NoTeamNames)
  {
  }

  /**
   * Once the validation passes, every setting was given, the frequency is
   * positive, and so the branch that would default an unset frequency to
   * 100 is never taken.
   */
  lemma AcceptedSettings(argv: seq<string>, c: Config, indeterminate: int)
    requires CommandLine(argv, c, indeterminate).1.None?
    ensures var r := CommandLine(argv, c, indeterminate).0;
      r.port != NoValue && r.width != NoValue && r.height != NoValue && r.clientNb != NoValue
      && r.freq > 0 && r.freq != NoValue && r.names != []
  {
  }

  /** The Game constructor gives every player team the capacity clientNb. */
  function GameTeams(teams: seq<ParsedTeam>, clientNb: int): (r: seq<Team>)
    ensures |r| == |teams|
    ensures forall t :: 0 <= t < |teams| ==>
      r[t].name == teams[t].name && r[t].id == teams[t].id
      && r[t].kind == (if teams[t].gui then GuiTeam else PlayerTeam(clientNb))
  {
    seq(|teams|, t requires 0 <= t < |teams| => Team(teams[t].name, teams[t].id, if teams[t].gui then GuiTeam else PlayerTeam(clientNb)))
  }
}
