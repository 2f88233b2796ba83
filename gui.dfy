/**
 * The graphical client's entry object: its defaults and the command line
 * it accepts (-p port, -h host, -d/-debug, -r/-raylib), which also decides
 * the renderer. Errors are the ParsingError the parser throws; the fields
 * keep whatever the parser had stored when it threw.
 */
module GuiApp {
  import opened Wrappers
  import opened CppInt
  import opened Text

  /** The renderer the client draws with; NoRenderer before parseArgs picks one. */
  datatype RendererKind = NoRenderer | Debug | Raylib | Ncurses

  /** Why parseArgs throws. */
  datatype ParsingError =
    | NotEnoughArguments
    | MissingValue(option: string)
    | InvalidPort(text: string)
    | UnknownOption(arg: string)
    | HostNotSpecified
    | PortOutOfRange(port: nat)

  const DefaultIp: string := "127.0.0.1"
  const DefaultPort: nat := 4242
  const MaxPort: nat := 65535

  /** What the option loop has set so far. */
  datatype Options = Options(debug: bool, ip: string, port: nat, raylib: bool)

  /**
   * `stream >> port` into a size_t that held prev: whether the stream is
   * still good, and what the variable holds. A minus sign wraps the value
   * modulo 2^64; a magnitude beyond size_t fails and stores the largest
   * value; text that is no number fails and stores 0; blanks alone fail and
   * leave prev.
   */
  function SizeRead(text: string, prev: nat): (r: (bool, nat))
    ensures r.0 ==> r.1 < SizeModulus
  {
    if SkipSpaces(text) == [] then (false, prev)
    else
      match ReadInt(text)
      case None => (false, 0)
      case Some((v, _)) => if Abs(v) < SizeModulus then (true, ToSize(v)) else (false, SizeModulus - 1)
  }

  /** The option loop from argv[i] on: the options it leaves, and the error it throws, if any. */
  function Scan(argv: seq<string>, i: nat, o: Options): (r: (Options, Option<ParsingError>))
    decreases |argv| - i
  {
    if i >= |argv| then (o, None)
    else if argv[i] == "-p" then
      if i + 1 >= |argv| then (o, Some(MissingValue("-p")))
      else
        var (good, v) := SizeRead(argv[i + 1], o.port);
        if !good || v == 0 then (o.(port := v), Some(InvalidPort(argv[i + 1])))
        else Scan(argv, i + 2, o.(port := v))
    else if argv[i] == "-h" then
      if i + 1 >= |argv| then (o, Some(MissingValue("-h")))
      else Scan(argv, i + 2, o.(ip := argv[i + 1]))
    else if argv[i] == "-debug" || argv[i] == "-d" then Scan(argv, i + 1, o.(debug := true))
    else if argv[i] == "-raylib" || argv[i] == "-r" then Scan(argv, i + 1, o.(raylib := true))
    else (o, Some(UnknownOption(argv[i])))
  }

  /** The -p branch of the loop. */
  lemma ScanPort(argv: seq<string>, i: nat, o: Options)
    requires i + 1 < |argv| && argv[i] == "-p"
    ensures var (good, v) := SizeRead(argv[i + 1], o.port);
      Scan(argv, i, o) == if !good || v == 0 then (o.(port := v), Some(InvalidPort(argv[i + 1]))) else Scan(argv, i + 2, o.(port := v))
  {
  }

  /** The -h branch of the loop. */
  lemma ScanHost(argv: seq<string>, i: nat, o: Options)
    requires i + 1 < |argv| && argv[i] == "-h"
    ensures Scan(argv, i, o) == Scan(argv, i + 2, o.(ip := argv[i + 1]))
  {
  }

  /** -p or -h as the last argument. */
  lemma ScanMissing(argv: seq<string>, i: nat, o: Options)
    requires i + 1 == |argv| && argv[i] in {"-p", "-h"}
    ensures Scan(argv, i, o) == (o, Some(MissingValue(argv[i])))
  {
  }

  /** The flags -d/-debug and -r/-raylib. */
  lemma ScanFlag(argv: seq<string>, i: nat, o: Options)
    requires i < |argv| && argv[i] in {"-d", "-debug", "-r", "-raylib"}
    ensures Scan(argv, i, o) == if argv[i] in {"-d", "-debug"} then Scan(argv, i + 1, o.(debug := true)) else Scan(argv, i + 1, o.(raylib := true))
  {
  }

  /** The validation after the loop: a host must be set and the port must lie in 1..65535. */
  function Checked(o: Options, e: Option<ParsingError>): (r: Option<ParsingError>)
    ensures r.None? <==> e.None? && o.ip != [] && 1 <= o.port <= MaxPort
  {
    if e.Some? then e
    else if o.ip == [] then Some(HostNotSpecified)
    else if o.port == 0 || o.port > MaxPort then Some(PortOutOfRange(o.port))
    else None
  }

  /** The renderer chosen: Debug for debug without raylib, else the one already set, else Raylib or Ncurses. */
  function Chosen(o: Options, prev: RendererKind): RendererKind
  {
    if !o.raylib && o.debug then Debug
    else if prev != NoRenderer then prev
    else if o.raylib then Raylib
    else Ncurses
  }

  class Gui {
    var debug: bool
    var ip: string
    var port: nat
    var renderer: RendererKind

    /** Host 127.0.0.1, port 4242, debug off, no renderer yet. */
    constructor()
      ensures !debug && ip == DefaultIp && port == DefaultPort && renderer == NoRenderer
    {
      debug := false;
      ip := DefaultIp;
      port := DefaultPort;
      renderer := NoRenderer;
    }

    /**
     * parseArgs(argc, argv), argv holding the program name first. Fewer
     * than three entries throw at once; otherwise the options are read in
     * order, the first error thrown, and on success the renderer chosen.
     */
    method ParseArgs(argv: seq<string>) returns (error: Option<ParsingError>)
      modifies this
      ensures |argv| < 3 ==> error == Some(NotEnoughArguments) && unchanged(this)
      ensures |argv| >= 3 ==>
        var (o, e) := Scan(argv, 1, Options(old(debug), old(ip), old(port), false));
        debug == o.debug && ip == o.ip && port == o.port && error == Checked(o, e)
        && renderer == (if error.None? then Chosen(o, old(renderer)) else old(renderer))
    {
      if |argv| < 3 {
        return Some(NotEnoughArguments);
      }
      ghost var start := Options(debug, ip, port, false);
      var raylib := false;
      var i := 1;
      while i < |argv|
        invariant 1 <= i <= |argv|
        invariant Scan(argv, i, Options(debug, ip, port, raylib)) == Scan(argv, 1, start)
        invariant renderer == old(renderer)
        decreases |argv| - i
      {
        ghost var o := Options(debug, ip, port, raylib);
        var arg := argv[i];
        if arg == "-p" {
          if i + 1 >= |argv| {
            ScanMissing(argv, i, o);
            return Some(MissingValue("-p"));
          }
          ScanPort(argv, i, o);
          var (good, v) := SizeRead(argv[i + 1], port);
          port := v;
          if !good || port == 0 {
            return Some(InvalidPort(argv[i + 1]));
          }
          i := i + 2;
        } else if arg == "-h" {
          if i + 1 >= |argv| {
            ScanMissing(argv, i, o);
            return Some(MissingValue("-h"));
          }
          ScanHost(argv, i, o);
          ip := argv[i + 1];
          i := i + 2;
        } else if arg == "-debug" || arg == "-d" {
          ScanFlag(argv, i, o);
          debug := true;
          i := i + 1;
        } else if arg == "-raylib" || arg == "-r" {
          ScanFlag(argv, i, o);
          raylib := true;
          i := i + 1;
        } else {
          return Some(UnknownOption(arg));
        }
      }
      var o := Options(debug, ip, port, raylib);
      if ip == [] {
        return Some(HostNotSpecified);
      }
      if port == 0 || port > MaxPort {
        return Some(PortOutOfRange(port));
      }
      renderer := Chosen(o, renderer);
      error := None;
    }
  }

  // ---- properties ----------------------------------------------------------------------

  /** A port written in decimal reads back as itself. */
  lemma PortReadable(p: nat, prev: nat)
    requires p < SizeModulus
    ensures SizeRead(NatToString(p), prev) == (true, p)
  {
    NatToStringDigits(p);
    ReadIntOfIntToString(p, "");
    assert NatToString(p) + "" == NatToString(p);
    assert IntToString(p) == NatToString(p);
  }

  /** `-p text -h host` where text reads as the port p. */
  lemma PortTextAndHostAccepted(prog: string, text: string, p: nat, host: string, o: Options)
    requires SizeRead(text, o.port) == (true, p) && p != 0
    ensures Scan([prog, "-p", text, "-h", host], 1, o) == (o.(port := p, ip := host), None)
  {
    var argv := [prog, "-p", text, "-h", host];
    ScanPort(argv, 1, o);
    ScanHost(argv, 3, o.(port := p));
    assert Scan(argv, 5, o.(port := p, ip := host)) == (o.(port := p, ip := host), None);
  }

  /** `-p port -h host`: the client connects to that host and port and draws with ncurses. */
  lemma PortAndHostAccepted(prog: string, p: nat, host: string, o: Options)
    requires 1 <= p <= MaxPort && host != [] && !o.debug && !o.raylib
    ensures var (r, e) := Scan([prog, "-p", NatToString(p), "-h", host], 1, o);
      e == None && r.port == p && r.ip == host && Checked(r, e) == None && Chosen(r, NoRenderer) == Ncurses
  {
    PortReadable(p, o.port);
    PortTextAndHostAccepted(prog, NatToString(p), p, host, o);
  }

  /** Port 0 throws as an invalid port number. */
  lemma ZeroPortRejected(argv: seq<string>, i: nat, o: Options)
    requires i + 1 < |argv| && argv[i] == "-p" && argv[i + 1] == "0"
    ensures Scan(argv, i, o).1 == Some(InvalidPort("0"))
  {
    var z := NatToString(0);
    assert z == "0";
    PortReadable(0, o.port);
  }

  /** A negative port wraps into a huge size_t, which the range check then refuses. */
  lemma NegativePortOutOfRange(prog: string, host: string, o: Options)
    requires host != []
    ensures var (r, e) := Scan([prog, "-h", host, "-p", "-1"], 1, o);
      e == None && r.port == SizeModulus - 1 && Checked(r, e) == Some(PortOutOfRange(SizeModulus - 1))
  {
    var argv := [prog, "-h", host, "-p", "-1"];
    assert SkipSpaces("-1") == "-1";
    assert ReadDigits("1") == Some((1, ""));
    assert ReadInt("-1") == Some((-1, ""));
    assert SizeRead("-1", o.port) == (true, SizeModulus - 1);
    ScanHost(argv, 1, o);
    ScanPort(argv, 3, o.(ip := host));
    assert Scan(argv, 5, o.(ip := host, port := SizeModulus - 1)) == (o.(ip := host, port := SizeModulus - 1), None);
  }

  /** Any option outside -p, -h, -d, -debug, -r and -raylib throws, naming it. */
  lemma UnknownOptionRejected(argv: seq<string>, i: nat, o: Options)
    requires i < |argv| && argv[i] !in {"-p", "-h", "-d", "-debug", "-r", "-raylib"}
    ensures Scan(argv, i, o) == (o, Some(UnknownOption(argv[i])))
  {
  }

  /**
   * Whenever parseArgs succeeds, the port is in 1..65535 and a host is set;
   * debug alone gives the debug renderer, and raylib wins over debug.
   */
  lemma AcceptedSettings(argv: seq<string>, o: Options, prev: RendererKind)
    requires Checked(Scan(argv, 1, o).0, Scan(argv, 1, o).1).None?
    ensures var r := Scan(argv, 1, o).0;
      1 <= r.port <= MaxPort && r.ip != []
      && (r.raylib ==> Chosen(r, prev) == (if prev == NoRenderer then Raylib else prev))
      && (r.debug && !r.raylib ==> Chosen(r, prev) == Debug)
  {
  }
}
