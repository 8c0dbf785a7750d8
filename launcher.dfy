/**
 * The launcher's process handling (index.js:6-7, 15-30, 42, 50-58): the
 * module-level handle `expressServer`, set when the backend is spawned and
 * tested by the `before-quit` handler, and the two strings built from PORT,
 * the child's `--port=` argument and the window's URL.
 */
module Launcher {

  import opened Wrappers
  import opened Decimal
  import RandomPort

  /** path.join of a directory and one name, read as plain concatenation. */
  function Join(dir: string, name: string): (path: string)
  {
    dir + "/" + name
  }

  /** What the launcher knows when it starts: its own directory and PORT. */
  datatype LaunchConfig = LaunchConfig(dirname: string, port: nat)

  /**
   * The child process handle: which spawn produced it (0 for the first), and
   * what was handed to spawn. Two spawns give two distinct handles.
   */
  datatype ChildProcess = ChildProcess(id: nat, command: string, args: seq<string>, cwd: string)

  const PortFlag: string := "--port="
  const UrlPrefix: string := "http://localhost:"

  /** The child's `--port=<PORT>` argument (index.js:18). */
  function PortArgument(port: nat): (arg: string)
  {
    PortFlag + DecimalText(port)
  }

  /** The URL the window loads (index.js:42). */
  function WindowUrl(port: nat): (url: string)
  {
    UrlPrefix + DecimalText(port)
  }

  /** Reads the port back from a `--port=` argument; anything else yields None. */
  function ParsePortArgument(arg: string): (r: Option<nat>)
    ensures r.Some? ==> |arg| > |PortFlag| && arg[..|PortFlag|] == PortFlag
  {
    if |arg| >= |PortFlag| && arg[..|PortFlag|] == PortFlag then ParseDecimal(arg[|PortFlag|..]) else None
  }

  /** Reads the port back from a `http://localhost:` URL; anything else yields None. */
  function ParseUrlPort(url: string): (r: Option<nat>)
    ensures r.Some? ==> |url| > |UrlPrefix| && url[..|UrlPrefix|] == UrlPrefix
  {
    if |url| >= |UrlPrefix| && url[..|UrlPrefix|] == UrlPrefix then ParseDecimal(url[|UrlPrefix|..]) else None
  }

  lemma PortArgumentCarriesPort(port: nat)
    ensures ParsePortArgument(PortArgument(port)) == Some(port)
  {
    var arg := PortArgument(port);
    assert arg[..|PortFlag|] == PortFlag && arg[|PortFlag|..] == DecimalText(port);
    ParseDecimalText(port);
  }

  lemma WindowUrlCarriesPort(port: nat)
    ensures ParseUrlPort(WindowUrl(port)) == Some(port)
  {
    var url := WindowUrl(port);
    assert url[..|UrlPrefix|] == UrlPrefix && url[|UrlPrefix|..] == DecimalText(port);
    ParseDecimalText(port);
  }

  /**
   * The spawn call of startExpress (index.js:18-21), as the `id`-th spawn: the
   * child runs `bun <dir>/src/index.js --port=<PORT>` in `<dir>/src`, and its
   * port argument carries the same PORT as the window's URL.
   */
  function Spawn(cfg: LaunchConfig, id: nat): (c: ChildProcess)
    ensures c.id == id && c.command == "bun"
    ensures c.cwd == cfg.dirname + "/src"
    ensures |c.args| == 2
    ensures c.args[0] == c.cwd + "/index.js"
    ensures ParsePortArgument(c.args[1]) == ParseUrlPort(WindowUrl(cfg.port)) == Some(cfg.port)
  {
    PortArgumentCarriesPort(cfg.port);
    WindowUrlCarriesPort(cfg.port);
    var src := Join(cfg.dirname, "src");
    ChildProcess(id, "bun", [Join(src, "index.js"), PortArgument(cfg.port)], src)
  }

  /** The events the launcher reacts to. */
  datatype Event =
    | Ready            // app.whenReady resolved: startExpress runs (index.js:57-58)
    | BeforeQuit       // the app is about to quit (index.js:51-55)
    | ChildError       // the child's 'error' event (index.js:23-25)
    | ChildExit(code: int)  // the child's 'exit' event (index.js:27-29)

  /**
   * The handle, how many children have been spawned, and, as a record, every
   * kill issued so far with its target.
   */
  datatype LauncherState = LauncherState(server: Option<ChildProcess>, spawned: nat, kills: seq<ChildProcess>)

  /** At load, before any event: no handle, no spawn, no kill. */
  function Initial(): (s: LauncherState)
  {
    LauncherState(None, 0, [])
  }

  /**
   * The effect of one event on the launcher's state: only the spawn changes
   * the handle, and only a before-quit with the handle set issues a kill, of
   * that handle.
   */
  function Step(cfg: LaunchConfig, s: LauncherState, e: Event): (r: LauncherState)
    ensures e == Ready ==> r.server == Some(Spawn(cfg, s.spawned)) && r.spawned == s.spawned + 1
    ensures e != Ready ==> r.server == s.server && r.spawned == s.spawned
    ensures e == BeforeQuit && s.server.Some? ==> r.kills == s.kills + [s.server.value]
    ensures !(e == BeforeQuit && s.server.Some?) ==> r.kills == s.kills
  {
    match e
    case Ready => s.(server := Some(Spawn(cfg, s.spawned)), spawned := s.spawned + 1)
    case BeforeQuit =>
      if s.server.Some? then s.(kills := s.kills + [s.server.value]) else s
    case ChildError => s
    case ChildExit(_) => s
  }

  /** The state after a sequence of events, in order. */
  function Run(cfg: LaunchConfig, s: LauncherState, events: seq<Event>): (r: LauncherState)
    decreases |events|
  {
    if events == [] then s else Run(cfg, Step(cfg, s, events[0]), events[1..])
  }

  /** How many before-quit events a sequence holds. */
  function CountQuits(events: seq<Event>): (n: nat)
  {
    if events == [] then 0 else (if events[0] == BeforeQuit then 1 else 0) + CountQuits(events[1..])
  }

  /** The events after the first Ready; empty if there is none. */
  function AfterFirstReady(events: seq<Event>): (rest: seq<Event>)
  {
    if events == [] then [] else if events[0] == Ready then events[1..] else AfterFirstReady(events[1..])
  }

  /** `n` kills of the handle `h`. */
  function Repeat(h: ChildProcess, n: nat): (r: seq<ChildProcess>)
    ensures |r| == n && forall i :: 0 <= i < n ==> r[i] == h
  {
    seq(n, _ => h)
  }

  /** Until the backend is spawned, quitting issues no kill and nothing else changes. */
  lemma {:induction false} NoKillBeforeStart(cfg: LaunchConfig, events: seq<Event>)
    requires Ready !in events
    ensures Run(cfg, Initial(), events) == Initial()
  {
    if events != [] {
      assert events[0] != Ready;
      assert Step(cfg, Initial(), events[0]) == Initial();
      assert Ready !in events[1..] by {
        forall i | 0 <= i < |events[1..]| ensures events[1..][i] != Ready {
          assert events[1..][i] == events[i + 1];
        }
      }
      NoKillBeforeStart(cfg, events[1..]);
    }
  }

  /**
   * Once the backend is spawned, and with no further spawn, the handle is never
   * cleared, not even by the child's exit or error, and every before-quit
   * issues another kill of it.
   */
  lemma {:induction false} KillPerQuitOnceStarted(cfg: LaunchConfig, s: LauncherState, events: seq<Event>)
    requires s.server.Some? && Ready !in events
    ensures Run(cfg, s, events) == s.(kills := s.kills + Repeat(s.server.value, CountQuits(events)))
    decreases |events|
  {
    if events != [] {
      var next := Step(cfg, s, events[0]);
      assert Ready !in events[1..] by {
        forall i | 0 <= i < |events[1..]| ensures events[1..][i] != Ready {
          assert events[1..][i] == events[i + 1];
        }
      }
      KillPerQuitOnceStarted(cfg, next, events[1..]);
      var h := s.server.value;
      var n := CountQuits(events[1..]);
      if events[0] == BeforeQuit {
        assert next.kills + Repeat(h, n) == s.kills + Repeat(h, n + 1);
      } else {
        assert next == s;
      }
    }
  }

  /**
   * From load, when the backend is spawned at most once (whenReady resolves
   * once): the handle is set exactly when the spawn has happened, and the
   * kills issued are one per before-quit after it, all of that one child.
   */
  lemma {:induction false} RunFromLoad(cfg: LaunchConfig, events: seq<Event>)
    requires Ready !in AfterFirstReady(events)
    ensures Run(cfg, Initial(), events).server == (if Ready in events then Some(Spawn(cfg, 0)) else None)
    ensures Run(cfg, Initial(), events).kills == Repeat(Spawn(cfg, 0), CountQuits(AfterFirstReady(events)))
    decreases |events|
  {
    if events == [] {
    } else if events[0] == Ready {
      var started := Step(cfg, Initial(), Ready);
      KillPerQuitOnceStarted(cfg, started, events[1..]);
      assert [] + Repeat(Spawn(cfg, 0), CountQuits(events[1..])) == Repeat(Spawn(cfg, 0), CountQuits(events[1..]));
    } else {
      assert Step(cfg, Initial(), events[0]) == Initial();
      RunFromLoad(cfg, events[1..]);
      assert Ready in events <==> Ready in events[1..] by {
        assert events == [events[0]] + events[1..];
      }
    }
  }

  /** Quitting twice after the spawn kills the same child twice: there is no already-killed check. */
  lemma QuitTwiceKillsTwice(cfg: LaunchConfig)
    ensures Run(cfg, Initial(), [Ready, BeforeQuit, BeforeQuit]).kills == [Spawn(cfg, 0), Spawn(cfg, 0)]
  {
    var events := [Ready, BeforeQuit, BeforeQuit];
    RunFromLoad(cfg, events);
    assert AfterFirstReady(events) == [BeforeQuit, BeforeQuit];
    assert CountQuits([BeforeQuit, BeforeQuit]) == 2 by {
      assert [BeforeQuit, BeforeQuit][1..] == [BeforeQuit];
      assert [BeforeQuit][1..] == [];
    }
  }

  /**
   * Were startExpress run a second time, the handle would be overwritten: the
   * first child is never killed, only the second.
   */
  lemma SecondSpawnOrphansFirst(cfg: LaunchConfig)
    ensures Run(cfg, Initial(), [Ready, Ready, BeforeQuit]).kills == [Spawn(cfg, 1)]
    ensures Spawn(cfg, 0) !in Run(cfg, Initial(), [Ready, Ready, BeforeQuit]).kills
  {
    var s1 := Step(cfg, Initial(), Ready);
    var s2 := Step(cfg, s1, Ready);
    assert s2.server == Some(Spawn(cfg, 1));
    assert Run(cfg, Initial(), [Ready, Ready, BeforeQuit]) == Run(cfg, s2, [BeforeQuit]);
  }

  /** The module-level globals of index.js and the handlers that use them. */
  class Launcher {
    const dirname: string
    /** PORT, computed once at load and never reassigned (index.js:15). */
    const port: nat
    /** expressServer (index.js:7). */
    var expressServer: Option<ChildProcess>
    /**
     * How many children have been spawned so far; it numbers the handles, in
     * place of the distinct object each spawn call returns.
     */
    var spawned: nat
    /** Every kill() issued so far, naming the handle it was sent to. */
    ghost var kills: seq<ChildProcess>

    function Config(): (cfg: LaunchConfig)
      ensures cfg.dirname == dirname && cfg.port == port
    {
      LaunchConfig(dirname, port)
    }

    ghost function State(): (s: LauncherState)
      reads this
    {
      LauncherState(expressServer, spawned, kills)
    }

    /** Loading index.js: PORT is drawn, the handle is unset (index.js:6-15). */
    constructor (dirname: string, draw: seq<RandomPort.Byte>)
      requires |draw| == 4
      ensures this.dirname == dirname && port == RandomPort.DerivePort(draw)
      ensures RandomPort.PortMin <= port <= RandomPort.PortMax
      ensures State() == Initial()
    {
      this.dirname := dirname;
      port := RandomPort.DerivePort(draw);
      expressServer := None;
      spawned := 0;
      kills := [];
    }

    /** startExpress: spawn the backend and keep its handle (index.js:17-30). */
    method StartExpress()
      modifies this
      ensures expressServer == Some(Spawn(Config(), old(spawned)))
      ensures spawned == old(spawned) + 1
      ensures kills == old(kills)
    {
      expressServer := Some(Spawn(Config(), spawned));
      spawned := spawned + 1;
    }

    /**
     * The whenReady continuation (index.js:57-59): spawn the backend, then
     * open the window on the returned URL.
     */
    method OnReady() returns (url: string)
      modifies this
      ensures State() == Step(Config(), old(State()), Ready)
      ensures url == WindowUrl(port)
    {
      StartExpress();
      url := WindowUrl(port);
    }

    /** The before-quit handler: kill the child only if the handle is set (index.js:51-55). */
    method OnBeforeQuit()
      modifies this
      ensures State() == Step(Config(), old(State()), BeforeQuit)
      ensures expressServer == old(expressServer)
      ensures old(expressServer).None? ==> kills == old(kills)
      ensures old(expressServer).Some? ==> kills == old(kills) + [expressServer.value]
    {
      if expressServer.Some? {
        kills := kills + [expressServer.value];
      }
    }

    /** The child's 'exit' handler only logs: the handle stays set (index.js:27-29). */
    method OnChildExit(code: int)
      ensures State() == Step(Config(), old(State()), ChildExit(code))
    {
    }

    /** The child's 'error' handler only logs: the handle stays set (index.js:23-25). */
    method OnChildError()
      ensures State() == Step(Config(), old(State()), ChildError)
    {
    }
  }
}
