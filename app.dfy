/**
 * The application of app.go: the App flags, Serve's sequence of steps, and
 * the development-mode controller of ServeInDevelopment. That controller
 * wires three commands into the generic event loop: loading the
 * configuration, (re)starting the server, and waiting for a file change.
 *
 * The outside world is passed in as parameters:
 * - reading and unmarshalling the configuration file is a ConfigFile value;
 * - net.ParseIP and strconv.Atoi are validity predicates;
 * - the file notifier's environment is a FileNotify.Host;
 * - the select over the watch error and the update stream is a WaitOutcome.
 */
module DevMode {
  import opened Wrappers
  import opened EventLoop
  import Paths
  import FileNotify
  import SuffixRule
  import Site
  import SiteConfig
  import ServerSetup

  const ConfigLoadOK: Msg := "CONFIG_LOAD_OK"
  const ConfigLoadFailed: Msg := "CONFIG_LOAD_FAILED"
  const FileUpdated: Msg := "FILE_UPDATED"
  const ServerStarted: Msg := "SERVER_STARTED"
  const FileWait: Msg := "FILE_WAIT"
  /** The message of a file wait whose update stream was closed. */
  const StreamClosed: Msg := ""

  const LoadConfigCmd: Cmd := Command(0)
  const StartServerCmd: Cmd := Command(1)
  const FileWaitCmd: Cmd := Command(2)

  /** The labelled commands of the development event loop, in registration order. */
  const DevCommands: seq<LabelledCmd> := [
    LabelledCmd(ConfigLoadOK, StartServerCmd),
    LabelledCmd(ConfigLoadFailed, FileWaitCmd),
    LabelledCmd(FileUpdated, LoadConfigCmd),
    LabelledCmd(ServerStarted, FileWaitCmd)]

  /** The table the development event loop holds once its commands are registered. */
  function DevTable(): map<Msg, Cmd>
  {
    map[ConfigLoadOK := StartServerCmd, ConfigLoadFailed := FileWaitCmd,
        FileUpdated := LoadConfigCmd, ServerStarted := FileWaitCmd]
  }

  /** The four labels are distinct, so registration succeeds with exactly this table. */
  lemma DevTableRegistered()
    ensures NewTable(DevCommands) == Success(DevTable())
  {
    var c := DevCommands;
    assert c[..1][..0] == [] && c[..2][..1] == c[..1] && c[..3][..2] == c[..2] && c[..4][..3] == c[..3];
    assert CmdTable(c[..1]) == Success(map[ConfigLoadOK := StartServerCmd]);
    assert CmdTable(c[..2]) == Success(map[ConfigLoadOK := StartServerCmd, ConfigLoadFailed := FileWaitCmd]);
    assert CmdTable(c[..3]) == Success(map[ConfigLoadOK := StartServerCmd, ConfigLoadFailed := FileWaitCmd,
                                          FileUpdated := LoadConfigCmd]);
    assert c[..4] == c;
  }

  /**
   * The next command after a message: the table entry, or the file wait by
   * default. Only CONFIG_LOAD_OK starts the server and only FILE_UPDATED
   * reloads the configuration; every other message waits for a file change.
   */
  function Route(msg: Msg): (c: Cmd)
    ensures c == StartServerCmd <==> msg == ConfigLoadOK
    ensures c == LoadConfigCmd <==> msg == FileUpdated
    ensures c == FileWaitCmd <==> msg != ConfigLoadOK && msg != FileUpdated
  {
    if msg in DevTable() then DevTable()[msg] else FileWaitCmd
  }

  /**
   * An event loop holding the development table (what registering
   * DevCommands gives, by DevTableRegistered) with the file wait as default
   * decides by Route.
   */
  lemma UpdateIsRoute(e: EventLoop, msg: Msg)
    requires e.cmdMap == DevTable() && e.defaultCmd == FileWaitCmd
    ensures e.Update(msg) == Route(msg)
  {
  }

  /** The event loop of ServeInDevelopment: registering the development commands cannot fail (app.go:189-205). */
  method NewDevLoop() returns (el: EventLoop)
    ensures fresh(el) && el.cmdMap == DevTable() && el.startCmd == LoadConfigCmd && el.defaultCmd == FileWaitCmd
  {
    DevTableRegistered();
    var r := NewEventLoop(DevCommands, LoadConfigCmd, FileWaitCmd);
    assert r.Success?;
    el := r.value;
  }

  /** The messages each command can return. */
  predicate CanAnswer(c: Cmd, m: Msg)
  {
    if c == LoadConfigCmd then m == ConfigLoadOK || m == FileWait
    else if c == StartServerCmd then m == ServerStarted || m == FileWait
    else m == FileWait || m == StreamClosed || m == FileUpdated
  }

  /**
   * A run of the development loop: the commands scheduled and the messages
   * they returned. The loop starts with the configuration load, and each
   * later command is the route of the previous message. The last command
   * may have ended the process without a message.
   */
  ghost predicate Follows(trace: seq<Cmd>, msgs: seq<Msg>)
  {
    |msgs| <= |trace| <= |msgs| + 1
    && (|trace| > 0 ==> trace[0] == LoadConfigCmd)
    && (forall k {:trigger trace[k]} :: 0 < k < |trace| ==> trace[k] == Route(msgs[k - 1]))
    && (forall k {:trigger trace[k], msgs[k]} :: 0 <= k < |msgs| ==> CanAnswer(trace[k], msgs[k]))
  }

  /** A run extended by the command its last message routes to, and that command's answer. */
  lemma FollowsExtend(trace: seq<Cmd>, msgs: seq<Msg>, cmd: Cmd, msg: Msg)
    requires Follows(trace, msgs) && |trace| == |msgs|
    requires cmd == (if |msgs| == 0 then LoadConfigCmd else Route(msgs[|msgs| - 1]))
    requires CanAnswer(cmd, msg)
    ensures Follows(trace + [cmd], msgs + [msg])
  {
    var t, m := trace + [cmd], msgs + [msg];
    forall k | 0 < k < |t| ensures t[k] == Route(m[k - 1]) {
      if k < |trace| { assert t[k] == trace[k] && m[k - 1] == msgs[k - 1]; }
    }
    forall k | 0 <= k < |m| ensures CanAnswer(t[k], m[k]) {
      if k < |msgs| { assert t[k] == trace[k] && m[k] == msgs[k]; }
    }
  }

  /** A run extended by the command its last message routes to, which gave no answer. */
  lemma FollowsPending(trace: seq<Cmd>, msgs: seq<Msg>, cmd: Cmd)
    requires Follows(trace, msgs) && |trace| == |msgs|
    requires cmd == (if |msgs| == 0 then LoadConfigCmd else Route(msgs[|msgs| - 1]))
    ensures Follows(trace + [cmd], msgs)
  {
    var t := trace + [cmd];
    forall k | 0 < k < |t| ensures t[k] == Route(msgs[k - 1]) {
      if k < |trace| { assert t[k] == trace[k]; }
    }
    forall k | 0 <= k < |msgs| ensures CanAnswer(t[k], msgs[k]) {
      assert t[k] == trace[k];
    }
  }

  /** The server is started only right after a successful configuration load. */
  lemma StartFollowsLoad(trace: seq<Cmd>, msgs: seq<Msg>, k: nat)
    requires Follows(trace, msgs) && k < |trace| && trace[k] == StartServerCmd
    ensures 0 < k && trace[k - 1] == LoadConfigCmd && msgs[k - 1] == ConfigLoadOK
  {
    assert k != 0;
    assert CanAnswer(trace[k - 1], msgs[k - 1]);
  }

  /** The configuration is loaded only at the start or right after a file wait saw an update. */
  lemma LoadFollowsUpdate(trace: seq<Cmd>, msgs: seq<Msg>, k: nat)
    requires Follows(trace, msgs) && 0 < k < |trace| && trace[k] == LoadConfigCmd
    ensures trace[k - 1] == FileWaitCmd && msgs[k - 1] == FileUpdated
  {
    assert CanAnswer(trace[k - 1], msgs[k - 1]);
  }

  /** After a failed load or a failed server start the loop waits for a file change. */
  lemma WaitAfterFailure(trace: seq<Cmd>, msgs: seq<Msg>, k: nat)
    requires Follows(trace, msgs) && k + 1 < |trace| && msgs[k] == FileWait
    ensures trace[k + 1] == FileWaitCmd
  {
    assert trace[k + 1] == Route(msgs[k]);
  }

  /** No command returns CONFIG_LOAD_FAILED, so its table entry is never used. */
  lemma NoLoadFailedMessage(trace: seq<Cmd>, msgs: seq<Msg>, k: nat)
    requires Follows(trace, msgs) && k < |msgs|
    ensures msgs[k] != ConfigLoadFailed
  {
    assert CanAnswer(trace[k], msgs[k]);
  }

  /** The result of os.ReadFile followed by unmarshalling: an error of either, or the parsed site. */
  datatype ConfigFile = Unreadable | Unparsable | Parsed(assetsDir: string, pages: seq<Site.Page>)

  /** A configuration that passed validation, with the assets directory it names. */
  datatype LoadedConfig = LoadedConfig(config: SiteConfig.Config, assetsDir: string)

  /** Which case of the file wait's select fires. */
  datatype WaitOutcome = WatchFailed | UpdatesClosed | UpdateSeen

  /** What the world answers to the command run at one step of the loop. */
  datatype World = World(file: ConfigFile, host: FileNotify.Host, wait: WaitOutcome)

  /** The directories fileWaitForUpdateCmd watches: the configuration file's and the template directory. */
  function WatchDescriptors(configFile: string, templateDir: string, templateSuffixes: seq<string>)
    : (ds: seq<FileNotify.DirFilesDescriptor>)
    ensures |ds| == 2 && ds[0].dir == Paths.Dir(configFile) && ds[1].dir == templateDir
    ensures forall b :: ds[0].fileMatcher(b) == SuffixRule.SuffixMatch([Paths.Ext(configFile)], b)
    ensures forall b :: ds[1].fileMatcher(b) == SuffixRule.SuffixMatch(templateSuffixes, b)
  {
    [FileNotify.DirFilesDescriptor(Paths.Dir(configFile), SuffixRule.Matcher([Paths.Ext(configFile)])),
     FileNotify.DirFilesDescriptor(templateDir, SuffixRule.Matcher(templateSuffixes))]
  }

  /**
   * Whether fileWaitForUpdateCmd can build its notifier: the watcher
   * starts, both cleaned directories exist, are directories and can be
   * added, and they are not the same directory.
   */
  ghost predicate CanWatch(configFile: string, templateDir: string, host: FileNotify.Host)
  {
    var a := host.clean(Paths.Dir(configFile));
    var b := host.clean(templateDir);
    host.watcherStarts && host.stat(a) == FileNotify.Directory && host.canAdd(a)
    && host.stat(b) == FileNotify.Directory && host.canAdd(b) && a != b
  }

  /**
   * A write to the configuration file itself passes the matcher of its
   * directory, provided the file has an extension and is not hidden.
   */
  lemma ConfigFileSelected(configFile: string, templateDir: string, templateSuffixes: seq<string>)
    requires Paths.Ext(configFile) != ""
    requires !(Paths.Base(configFile) != [] && Paths.Base(configFile)[0] == '.')
    ensures WatchDescriptors(configFile, templateDir, templateSuffixes)[0].fileMatcher(Paths.Base(configFile))
  {
    Paths.ExtEndsBase(configFile);
    SuffixRule.EndsWithSelected(Paths.Ext(configFile), Paths.Base(configFile));
  }

  /** The file wait's notifier is built exactly when its two directories can be watched. */
  lemma CanWatchIffBuilds(configFile: string, templateDir: string, templateSuffixes: seq<string>, host: FileNotify.Host)
    ensures FileNotify.NewTable(WatchDescriptors(configFile, templateDir, templateSuffixes), host).Success?
            <==> CanWatch(configFile, templateDir, host)
  {
    var ds := WatchDescriptors(configFile, templateDir, templateSuffixes);
    FileNotify.NewTableFails(ds, host);
    if CanWatch(configFile, templateDir, host) {
      assert FileNotify.Watchable(ds, host);
      assert FileNotify.DistinctDirs(ds, host);
    }
    if FileNotify.Watchable(ds, host) && FileNotify.DistinctDirs(ds, host) {
      assert host.clean(ds[0].dir) != host.clean(ds[1].dir);
    }
  }

  /**
   * The message a command answers at one step, given the world's answer and
   * whether the address and port are valid: a load succeeds iff the file is
   * read, parsed and accepted; a server start iff address and port are
   * valid (the loaded site always has two pages); a file wait reports how
   * its select ended.
   */
  function Answer(cmd: Cmd, w: World, serverOK: bool): (m: Msg)
    ensures CanAnswer(cmd, m)
  {
    if cmd == LoadConfigCmd then
      (if w.file.Parsed? && SiteConfig.Accepts(w.file.pages) then ConfigLoadOK else FileWait)
    else if cmd == StartServerCmd then
      (if serverOK then ServerStarted else FileWait)
    else
      match w.wait
      case WatchFailed => FileWait
      case UpdatesClosed => StreamClosed
      case UpdateSeen => FileUpdated
  }

  /** Every message of a run is the answer of its command to the world at that step. */
  ghost predicate Answered(trace: seq<Cmd>, msgs: seq<Msg>, world: seq<World>, serverOK: bool)
  {
    |msgs| <= |trace| && |msgs| <= |world|
    && forall k :: 0 <= k < |msgs| ==> msgs[k] == Answer(trace[k], world[k], serverOK)
  }

  /** The template directory after one step: a successful load moves it under the new assets directory. */
  function NextTemplateDir(cmd: Cmd, w: World, msg: Msg, dir: string): string
  {
    if cmd == LoadConfigCmd && msg == ConfigLoadOK && w.file.Parsed? then Paths.Join(w.file.assetsDir, "templates")
    else dir
  }

  /** Each step's template directory is the one the previous step left. */
  ghost predicate DirsFollow(trace: seq<Cmd>, msgs: seq<Msg>, world: seq<World>, dirs: seq<string>)
  {
    |dirs| <= |msgs| + 1 && |dirs| <= |trace| && |dirs| <= |world| + 1
    && forall k :: 0 <= k < |dirs| - 1 ==> dirs[k + 1] == NextTemplateDir(trace[k], world[k], msgs[k], dirs[k])
  }

  /**
   * A file wait of the run answered exactly when its notifier could be
   * built for the configuration file's directory and that step's template
   * directory (CanWatchIffBuilds).
   */
  ghost predicate WaitsWatch(trace: seq<Cmd>, msgs: seq<Msg>, world: seq<World>, dirs: seq<string>,
                             configFile: string, templateSuffixes: seq<string>)
  {
    |dirs| == |trace| <= |world|
    && forall k :: 0 <= k < |trace| && trace[k] == FileWaitCmd ==>
      (k < |msgs| <==> CanWatch(configFile, dirs[k], world[k].host))
  }

  /**
   * A development run against the world: the commands follow the routing
   * table, every message is its command's answer to that step's world, the
   * template directory starts at dir0 and moves only on a successful load,
   * and a file wait answered exactly when its notifier could be built.
   */
  ghost predicate DevRun(trace: seq<Cmd>, msgs: seq<Msg>, world: seq<World>, dirs: seq<string>, dir0: string,
                         serverOK: bool, configFile: string, templateSuffixes: seq<string>)
  {
    Follows(trace, msgs) && Answered(trace, msgs, world, serverOK)
    && |dirs| == |trace| && (|dirs| > 0 ==> dirs[0] == dir0)
    && DirsFollow(trace, msgs, world, dirs) && WaitsWatch(trace, msgs, world, dirs, configFile, templateSuffixes)
  }

  /**
   * Where a development session stands after some steps: the commands run,
   * the messages they returned, the template directory each one saw,
   * whether the last one ended the process, and the next command and
   * template directory.
   */
  datatype DevState = DevState(trace: seq<Cmd>, msgs: seq<Msg>, dirs: seq<string>, fatal: bool, next: Cmd, dir: string)

  /**
   * The development session against the world's answers, step by step:
   * the start command first, then the route of each message. A file wait
   * whose notifier cannot be built ends the session.
   */
  ghost function DevSession(world: seq<World>, dir0: string, serverOK: bool, configFile: string,
                            templateSuffixes: seq<string>): DevState
    decreases |world|
  {
    if |world| == 0 then DevState([], [], [], false, LoadConfigCmd, dir0)
    else
      var s := DevSession(world[..|world| - 1], dir0, serverOK, configFile, templateSuffixes);
      var w := world[|world| - 1];
      if s.fatal then s
      else if s.next != LoadConfigCmd && s.next != StartServerCmd && !CanWatch(configFile, s.dir, w.host) then
        DevState(s.trace + [s.next], s.msgs, s.dirs + [s.dir], true, s.next, s.dir)
      else
        var m := Answer(s.next, w, serverOK);
        DevState(s.trace + [s.next], s.msgs + [m], s.dirs + [s.dir], false, Route(m), NextTemplateDir(s.next, w, m, s.dir))
  }

  /** One more step of a session that had not ended, whose command was answered. */
  lemma DevSessionAnswers(world: seq<World>, i: nat, dir0: string, serverOK: bool, configFile: string,
                          templateSuffixes: seq<string>, st: DevState, msg: Msg)
    requires i < |world| && DevSession(world[..i], dir0, serverOK, configFile, templateSuffixes) == st && !st.fatal
    requires !(st.next != LoadConfigCmd && st.next != StartServerCmd && !CanWatch(configFile, st.dir, world[i].host))
    requires msg == Answer(st.next, world[i], serverOK)
    ensures DevSession(world[..i + 1], dir0, serverOK, configFile, templateSuffixes)
         == DevState(st.trace + [st.next], st.msgs + [msg], st.dirs + [st.dir], false, Route(msg),
                     NextTemplateDir(st.next, world[i], msg, st.dir))
  {
    assert world[..i + 1][..i] == world[..i];
  }

  /** A session that had not ended ends at a file wait whose notifier cannot be built, whatever follows. */
  lemma DevSessionEnds(world: seq<World>, i: nat, dir0: string, serverOK: bool, configFile: string,
                       templateSuffixes: seq<string>, st: DevState)
    requires i < |world| && DevSession(world[..i], dir0, serverOK, configFile, templateSuffixes) == st && !st.fatal
    requires st.next != LoadConfigCmd && st.next != StartServerCmd && !CanWatch(configFile, st.dir, world[i].host)
    ensures DevSession(world, dir0, serverOK, configFile, templateSuffixes)
         == DevState(st.trace + [st.next], st.msgs, st.dirs + [st.dir], true, st.next, st.dir)
  {
    assert world[..i + 1][..i] == world[..i];
    DevSessionFatalPrefix(world, dir0, serverOK, configFile, templateSuffixes, i + 1);
  }

  /** A session that ended stays ended, whatever the world does afterwards. */
  lemma {:induction false} DevSessionFatalPrefix(world: seq<World>, dir0: string, serverOK: bool, configFile: string,
                                                 templateSuffixes: seq<string>, k: nat)
    requires k <= |world| && DevSession(world[..k], dir0, serverOK, configFile, templateSuffixes).fatal
    ensures DevSession(world, dir0, serverOK, configFile, templateSuffixes)
         == DevSession(world[..k], dir0, serverOK, configFile, templateSuffixes)
    decreases |world| - k
  {
    if k < |world| {
      assert world[..|world| - 1][..k] == world[..k];
      DevSessionFatalPrefix(world[..|world| - 1], dir0, serverOK, configFile, templateSuffixes, k);
    } else {
      assert world[..k] == world;
    }
  }

  /**
   * The shape of a development session: it runs one command per world
   * step and stops early only on a fatal file wait, which is then its last
   * command and has no message.
   */
  lemma {:induction false} DevSessionShape(world: seq<World>, dir0: string, serverOK: bool, configFile: string,
                                           templateSuffixes: seq<string>)
    ensures var s := DevSession(world, dir0, serverOK, configFile, templateSuffixes);
      |s.trace| == |s.dirs| <= |world|
      && (!s.fatal ==> |s.trace| == |s.msgs| == |world|)
      && (s.fatal ==> |s.trace| == |s.msgs| + 1 && s.trace[|s.trace| - 1] == FileWaitCmd)
    decreases |world|
  {
    if |world| > 0 {
      DevSessionShape(world[..|world| - 1], dir0, serverOK, configFile, templateSuffixes);
      DevSessionNext(world[..|world| - 1], dir0, serverOK, configFile, templateSuffixes);
    }
  }

  /**
   * While a development session goes on, its next command is the route of
   * its last message and its next template directory the one its last step
   * left.
   */
  lemma {:induction false} DevSessionNext(world: seq<World>, dir0: string, serverOK: bool, configFile: string,
                                          templateSuffixes: seq<string>)
    ensures var s := DevSession(world, dir0, serverOK, configFile, templateSuffixes);
      !s.fatal ==>
        |s.msgs| == |s.dirs| == |s.trace| == |world|
        && s.next == (if |s.msgs| == 0 then LoadConfigCmd else Route(s.msgs[|s.msgs| - 1]))
        && s.dir == (if |s.dirs| == 0 then dir0
                     else NextTemplateDir(s.trace[|s.dirs| - 1], world[|s.dirs| - 1], s.msgs[|s.dirs| - 1], s.dirs[|s.dirs| - 1]))
    decreases |world|
  {
    if |world| > 0 {
      DevSessionNext(world[..|world| - 1], dir0, serverOK, configFile, templateSuffixes);
    }
  }

  /** A development session follows the routing table. */
  lemma {:induction false} DevSessionFollows(world: seq<World>, dir0: string, serverOK: bool, configFile: string,
                                             templateSuffixes: seq<string>)
    ensures var s := DevSession(world, dir0, serverOK, configFile, templateSuffixes);
      Follows(s.trace, s.msgs)
    decreases |world|
  {
    if |world| > 0 {
      var init := world[..|world| - 1];
      DevSessionFollows(init, dir0, serverOK, configFile, templateSuffixes);
      DevSessionShape(init, dir0, serverOK, configFile, templateSuffixes);
      DevSessionNext(init, dir0, serverOK, configFile, templateSuffixes);
      var s := DevSession(init, dir0, serverOK, configFile, templateSuffixes);
      if !s.fatal {
        var w := world[|world| - 1];
        if s.next != LoadConfigCmd && s.next != StartServerCmd && !CanWatch(configFile, s.dir, w.host) {
          FollowsPending(s.trace, s.msgs, s.next);
        } else {
          FollowsExtend(s.trace, s.msgs, s.next, Answer(s.next, w, serverOK));
        }
      }
    }
  }

  /** Every message of a development session is its command's answer to that step's world. */
  lemma {:induction false} DevSessionAnswered(world: seq<World>, dir0: string, serverOK: bool, configFile: string,
                                              templateSuffixes: seq<string>)
    ensures var s := DevSession(world, dir0, serverOK, configFile, templateSuffixes);
      Answered(s.trace, s.msgs, world, serverOK)
    decreases |world|
  {
    if |world| > 0 {
      var init := world[..|world| - 1];
      DevSessionAnswered(init, dir0, serverOK, configFile, templateSuffixes);
      DevSessionShape(init, dir0, serverOK, configFile, templateSuffixes);
      DevSessionNext(init, dir0, serverOK, configFile, templateSuffixes);
      var s := DevSession(init, dir0, serverOK, configFile, templateSuffixes);
      var r := DevSession(world, dir0, serverOK, configFile, templateSuffixes);
      forall k | 0 <= k < |r.msgs| ensures r.msgs[k] == Answer(r.trace[k], world[k], serverOK) {
        if k < |s.msgs| {
          assert r.msgs[k] == s.msgs[k] && r.trace[k] == s.trace[k] && world[k] == init[k];
        }
      }
    }
  }

  /** Each step of a development session sees the template directory the step before it left. */
  lemma {:induction false} DevSessionDirs(world: seq<World>, dir0: string, serverOK: bool, configFile: string,
                                          templateSuffixes: seq<string>)
    ensures var s := DevSession(world, dir0, serverOK, configFile, templateSuffixes);
      (|s.dirs| > 0 ==> s.dirs[0] == dir0) && DirsFollow(s.trace, s.msgs, world, s.dirs)
    decreases |world|
  {
    if |world| > 0 {
      var init := world[..|world| - 1];
      DevSessionDirs(init, dir0, serverOK, configFile, templateSuffixes);
      DevSessionShape(init, dir0, serverOK, configFile, templateSuffixes);
      DevSessionNext(init, dir0, serverOK, configFile, templateSuffixes);
      var s := DevSession(init, dir0, serverOK, configFile, templateSuffixes);
      var r := DevSession(world, dir0, serverOK, configFile, templateSuffixes);
      if !s.fatal && |s.dirs| > 0 {
        assert r.dirs[0] == s.dirs[0];
      }
      forall k | 0 <= k < |r.dirs| - 1 ensures r.dirs[k + 1] == NextTemplateDir(r.trace[k], world[k], r.msgs[k], r.dirs[k]) {
        if k < |s.dirs| - 1 {
          assert r.dirs[k + 1] == s.dirs[k + 1] && r.dirs[k] == s.dirs[k];
          assert r.trace[k] == s.trace[k] && r.msgs[k] == s.msgs[k] && world[k] == init[k];
        }
      }
    }
  }

  /** A file wait of a development session is answered exactly when its notifier could be built. */
  lemma {:induction false} DevSessionWaits(world: seq<World>, dir0: string, serverOK: bool, configFile: string,
                                           templateSuffixes: seq<string>)
    ensures var s := DevSession(world, dir0, serverOK, configFile, templateSuffixes);
      WaitsWatch(s.trace, s.msgs, world, s.dirs, configFile, templateSuffixes)
    decreases |world|
  {
    if |world| > 0 {
      var init := world[..|world| - 1];
      DevSessionWaits(init, dir0, serverOK, configFile, templateSuffixes);
      DevSessionShape(init, dir0, serverOK, configFile, templateSuffixes);
      DevSessionNext(init, dir0, serverOK, configFile, templateSuffixes);
      var s := DevSession(init, dir0, serverOK, configFile, templateSuffixes);
      var r := DevSession(world, dir0, serverOK, configFile, templateSuffixes);
      var w := world[|world| - 1];
      if s.fatal {
        assert r == s;
        forall k | 0 <= k < |s.trace| ensures init[k] == world[k] { }
      } else if s.next != LoadConfigCmd && s.next != StartServerCmd && !CanWatch(configFile, s.dir, w.host) {
        assert r == DevState(s.trace + [s.next], s.msgs, s.dirs + [s.dir], true, s.next, s.dir);
        WaitsExtend(s.trace, s.msgs, init, world, s.dirs, configFile, templateSuffixes, r.trace, r.msgs, r.dirs);
      } else {
        var m := Answer(s.next, w, serverOK);
        assert r.trace == s.trace + [s.next] && r.msgs == s.msgs + [m] && r.dirs == s.dirs + [s.dir];
        WaitsExtend(s.trace, s.msgs, init, world, s.dirs, configFile, templateSuffixes, r.trace, r.msgs, r.dirs);
      }
    }
  }

  /**
   * A step added to a run whose file waits were answered exactly when
   * their notifiers could be built keeps that so, provided the new step's
   * file wait does.
   */
  lemma WaitsExtend(trace: seq<Cmd>, msgs: seq<Msg>, init: seq<World>, world: seq<World>, dirs: seq<string>,
                    configFile: string, templateSuffixes: seq<string>, t: seq<Cmd>, m: seq<Msg>, d: seq<string>)
    requires WaitsWatch(trace, msgs, init, dirs, configFile, templateSuffixes)
    requires |init| < |world| && init == world[..|init|] && |trace| == |msgs| == |init|
    requires |t| == |d| == |trace| + 1 && |msgs| <= |m| <= |msgs| + 1
    requires t[..|trace|] == trace && d[..|trace|] == dirs && m[..|msgs|] == msgs
    requires t[|trace|] == FileWaitCmd ==> (|msgs| < |m| <==> CanWatch(configFile, d[|trace|], world[|trace|].host))
    ensures WaitsWatch(t, m, world, d, configFile, templateSuffixes)
  {
    forall k | 0 <= k < |t| && t[k] == FileWaitCmd
      ensures k < |m| <==> CanWatch(configFile, d[k], world[k].host)
    {
      if k < |trace| {
        assert t[k] == t[..|trace|][k] && d[k] == d[..|trace|][k] && world[k] == world[..|init|][k];
      }
    }
  }

  /**
   * Every development session is a run: it follows the routing table, each
   * message answers its step's world, each step sees the template
   * directory the step before it left, and a file wait is answered exactly
   * when its notifier could be built.
   */
  lemma DevSessionIsRun(world: seq<World>, dir0: string, serverOK: bool, configFile: string,
                        templateSuffixes: seq<string>)
    ensures var s := DevSession(world, dir0, serverOK, configFile, templateSuffixes);
      DevRun(s.trace, s.msgs, world, s.dirs, dir0, serverOK, configFile, templateSuffixes)
  {
    DevSessionShape(world, dir0, serverOK, configFile, templateSuffixes);
    DevSessionFollows(world, dir0, serverOK, configFile, templateSuffixes);
    DevSessionAnswered(world, dir0, serverOK, configFile, templateSuffixes);
    DevSessionDirs(world, dir0, serverOK, configFile, templateSuffixes);
    DevSessionWaits(world, dir0, serverOK, configFile, templateSuffixes);
  }

  /**
   * The scenario of a development session: the first load fails, so the
   * loop waits; a file update reloads a good configuration, the server
   * starts, the loop waits again, and the next update reloads once more.
   */
  lemma RecoversFromFailedLoad(trace: seq<Cmd>, msgs: seq<Msg>, world: seq<World>, serverOK: bool)
    requires Follows(trace, msgs) && Answered(trace, msgs, world, serverOK) && serverOK && |msgs| >= 5
    requires !(world[0].file.Parsed? && SiteConfig.Accepts(world[0].file.pages))
    requires world[1].wait == UpdateSeen && world[4].wait == UpdateSeen
    requires world[2].file.Parsed? && SiteConfig.Accepts(world[2].file.pages)
    ensures trace[..5] == [LoadConfigCmd, FileWaitCmd, LoadConfigCmd, StartServerCmd, FileWaitCmd]
    ensures msgs[..5] == [FileWait, FileUpdated, ConfigLoadOK, ServerStarted, FileUpdated]
    ensures |trace| > 5 ==> trace[5] == LoadConfigCmd
  {
    assert trace[0] == LoadConfigCmd && msgs[0] == FileWait;
    assert trace[1] == Route(msgs[0]) == FileWaitCmd && msgs[1] == FileUpdated;
    assert trace[2] == Route(msgs[1]) == LoadConfigCmd && msgs[2] == ConfigLoadOK;
    assert trace[3] == Route(msgs[2]) == StartServerCmd && msgs[3] == ServerStarted;
    assert trace[4] == Route(msgs[3]) == FileWaitCmd && msgs[4] == FileUpdated;
    if |trace| > 5 {
      assert trace[5] == Route(msgs[4]);
    }
  }

  /**
   * The variables the command closures of ServeInDevelopment share: the
   * loaded configuration, the running server, and the template directory
   * that is watched. Shutdowns records the servers shut down, in order.
   */
  class Controller {
    const address: string
    const port: string
    const configFile: string
    const templateSuffixes: seq<string>
    var cfg: Option<LoadedConfig>
    var srv: Option<ServerSetup.Server>
    var templateDir: string
    var shutdowns: seq<ServerSetup.Server>

    constructor (address: string, port: string, configFile: string, templateSuffixes: seq<string>)
      ensures this.address == address && this.port == port
      ensures this.configFile == configFile && this.templateSuffixes == templateSuffixes
      ensures cfg == None && srv == None && templateDir == "assets/templates" && shutdowns == []
    {
      this.address := address;
      this.port := port;
      this.configFile := configFile;
      this.templateSuffixes := templateSuffixes;
      cfg := None;
      srv := None;
      templateDir := "assets/templates";
      shutdowns := [];
    }

    /**
     * loadConfigCmd: a read or parse error, or an invalid configuration,
     * returns FILE_WAIT and changes nothing. Otherwise the configuration is
     * kept, the template directory becomes its "templates" subdirectory, and
     * the result is CONFIG_LOAD_OK.
     */
    method LoadConfig(file: ConfigFile) returns (msg: Msg)
      modifies this`cfg, this`templateDir
      ensures msg == ConfigLoadOK || msg == FileWait
      ensures msg == ConfigLoadOK <==> file.Parsed? && SiteConfig.Accepts(file.pages)
      ensures msg == FileWait ==> cfg == old(cfg) && templateDir == old(templateDir)
      ensures msg == ConfigLoadOK ==>
        cfg.Some? && fresh(cfg.value.config) && cfg.value.config.pages == file.pages
        && cfg.value.config.urlMap == SiteConfig.ScanPages(file.pages).urls
        && cfg.value.assetsDir == file.assetsDir
        && templateDir == Paths.Join(file.assetsDir, "templates")
    {
      if file.Unreadable? {
        return FileWait;
      }
      if file.Unparsable? {
        return FileWait;
      }
      var c := new SiteConfig.Config(file.pages);
      var err := c.ValidateConfig();
      if err.Some? {
        return FileWait;
      }
      cfg := Some(LoadedConfig(c, file.assetsDir));
      templateDir := Paths.Join(file.assetsDir, "templates");
      return ConfigLoadOK;
    }

    /**
     * startServerCmd: a running server is shut down first. Then a new
     * server is built from the loaded configuration. It replaces the old
     * one, and a failed build leaves nothing there. The result is
     * SERVER_STARTED, or FILE_WAIT on failure.
     */
    method StartServer(validIP: string -> bool, validPort: string -> bool) returns (msg: Msg)
      requires cfg.Some?
      modifies this`srv, this`shutdowns
      ensures shutdowns == old(shutdowns) + (if old(srv).Some? then [old(srv).value] else [])
      ensures msg == ServerStarted || msg == FileWait
      ensures msg == ServerStarted <==> validIP(address) && validPort(port) && |cfg.value.config.pages| >= 2
      ensures msg == FileWait ==> srv == None
      ensures msg == ServerStarted ==>
        srv.Some? && srv.value.webAddr == address + ":" + port && srv.value.pages == cfg.value.config.pages
        && srv.value.indexPages == ServerSetup.Missing(cfg.value.config.urlMap, ServerSetup.IndexCandidates)
    {
      if srv.Some? {
        shutdowns := shutdowns + [srv.value];
      }
      var r := ServerSetup.NewServer(address, port, cfg.value.config, validIP, validPort);
      if r.Failure? {
        srv := None;
        return FileWait;
      }
      srv := Some(r.value);
      return ServerStarted;
    }

    /**
     * fileWaitForUpdateCmd: a notifier that cannot be built ends the process
     * (None). Otherwise a watch error returns FILE_WAIT, a closed update
     * stream the empty message, and an update FILE_UPDATED.
     */
    method FileWaitForUpdate(host: FileNotify.Host, wait: WaitOutcome) returns (r: Option<Msg>)
      ensures r.None? <==> FileNotify.NewTable(WatchDescriptors(configFile, templateDir, templateSuffixes), host).Failure?
      ensures r.None? <==> !CanWatch(configFile, templateDir, host)
      ensures r.Some? && wait.WatchFailed? ==> r.value == FileWait
      ensures r.Some? && wait.UpdatesClosed? ==> r.value == StreamClosed
      ensures r.Some? && wait.UpdateSeen? ==> r.value == FileUpdated
    {
      var n := FileNotify.NewFileChangeNotifier(WatchDescriptors(configFile, templateDir, templateSuffixes), host);
      CanWatchIffBuilds(configFile, templateDir, templateSuffixes, host);
      if n.Failure? {
        return None;
      }
      match wait
      case WatchFailed => return Some(FileWait);
      case UpdatesClosed => return Some(StreamClosed);
      case UpdateSeen => return Some(FileUpdated);
    }

    /** A configuration is loaded, with the two pages newServer needs. */
    predicate Loaded()
      reads this
    {
      cfg.Some? && |cfg.value.config.pages| >= 2
    }

    /**
     * One step of the development loop: the command is run against the
     * world's answer. None means the file wait could not build its
     * notifier, which ends the process.
     */
    method Step(cmd: Cmd, w: World, validIP: string -> bool, validPort: string -> bool) returns (r: Option<Msg>)
      requires cmd == StartServerCmd ==> Loaded()
      modifies this`cfg, this`templateDir, this`srv, this`shutdowns
      ensures r.None? <==>
        cmd != LoadConfigCmd && cmd != StartServerCmd
        && !CanWatch(configFile, old(templateDir), w.host)
      ensures r.Some? ==> r.value == Answer(cmd, w, validIP(address) && validPort(port))
      ensures r.Some? ==> templateDir == NextTemplateDir(cmd, w, r.value, old(templateDir))
      ensures r == Some(ConfigLoadOK) ==> Loaded()
      ensures cmd != LoadConfigCmd ==> cfg == old(cfg)
    {
      if cmd == LoadConfigCmd {
        var msg := LoadConfig(w.file);
        r := Some(msg);
      } else if cmd == StartServerCmd {
        var msg := StartServer(validIP, validPort);
        r := Some(msg);
      } else {
        r := FileWaitForUpdate(w.host, w.wait);
      }
    }

    /**
     * ServeInDevelopment with the world's answer for each step. The event
     * loop is built from the development commands; the start command is
     * run first, then the command that Update picks for each message. The
     * commands run, the messages they return and whether a file wait ended
     * the process are those of the development session (DevSession), which
     * DevSessionIsRun shows to be a run.
     */
    method ServeInDevelopment(world: seq<World>, validIP: string -> bool, validPort: string -> bool)
      returns (trace: seq<Cmd>, msgs: seq<Msg>, fatal: bool)
      modifies this
      ensures var s := DevSession(world, old(templateDir), validIP(address) && validPort(port), configFile, templateSuffixes);
        trace == s.trace && msgs == s.msgs && fatal == s.fatal
      ensures !fatal ==>
                templateDir == DevSession(world, old(templateDir), validIP(address) && validPort(port), configFile, templateSuffixes).dir
    {
      var el := NewDevLoop();
      trace, msgs, fatal := [], [], false;
      var cmd := el.startCmd;
      ghost var serverOK := validIP(address) && validPort(port);
      ghost var dirs: seq<string> := [];
      var i := 0;
      while i < |world|
        invariant 0 <= i <= |world|
        invariant DevSession(world[..i], old(templateDir), serverOK, configFile, templateSuffixes)
               == DevState(trace, msgs, dirs, false, cmd, templateDir)
        invariant cmd == StartServerCmd ==> Loaded()
        invariant fresh(el) && el.cmdMap == DevTable() && el.defaultCmd == FileWaitCmd
      {
        ghost var st := DevState(trace, msgs, dirs, false, cmd, templateDir);
        var step := Step(cmd, world[i], validIP, validPort);
        if step.None? {
          DevSessionEnds(world, i, old(templateDir), serverOK, configFile, templateSuffixes, st);
          trace, dirs, fatal := trace + [cmd], dirs + [st.dir], true;
          return;
        }
        var msg := step.value;
        DevSessionAnswers(world, i, old(templateDir), serverOK, configFile, templateSuffixes, st, msg);
        trace, msgs, dirs := trace + [cmd], msgs + [msg], dirs + [st.dir];
        UpdateIsRoute(el, msg);
        cmd := el.Update(msg);
        assert cmd == Route(msg) && templateDir == NextTemplateDir(st.next, world[i], msg, st.dir);
        i := i + 1;
      }
      assert world[..i] == world;
    }
  }

  /** Why Serve stopped. */
  datatype ServeError =
    | ReadFailed
    | ParseFailed
    | Invalid(e: Site.ConfigError)
    | ServerFailed(s: ServerSetup.ServerError)
    | ServeFailed(reason: string)

  class App {
    var interactive: bool

    /** NewApp: the console messages are off. */
    constructor ()
      ensures !interactive
    {
      interactive := false;
    }

    /** Interactive flips the console-message flag. */
    method Interactive()
      modifies this
      ensures interactive == !old(interactive)
    {
      interactive := !interactive;
    }

    /**
     * Serve: read, then build and validate the configuration, then build
     * the server, then serve. The first error is returned and nothing after
     * it runs; served is what the serving function returns.
     */
    method Serve(file: ConfigFile, address: string, port: string,
                 validIP: string -> bool, validPort: string -> bool, served: Option<string>)
      returns (err: Option<ServeError>)
      ensures file.Unreadable? ==> err == Some(ReadFailed)
      ensures file.Unparsable? ==> err == Some(ParseFailed)
      ensures file.Parsed? && !SiteConfig.Accepts(file.pages) ==> err.Some? && err.value.Invalid?
      ensures file.Parsed? && SiteConfig.ScanPages(file.pages).err.Some? && |file.pages| >= 2 ==>
        err == Some(Invalid(SiteConfig.ScanPages(file.pages).err.value))
      ensures file.Parsed? && |file.pages| < 2 ==> err == Some(Invalid(Site.TooFewPages))
      ensures file.Parsed? && SiteConfig.Accepts(file.pages) && !validIP(address) ==>
        err == Some(ServerFailed(ServerSetup.InvalidAddress))
      ensures file.Parsed? && SiteConfig.Accepts(file.pages) && validIP(address) && !validPort(port) ==>
        err == Some(ServerFailed(ServerSetup.InvalidPort))
      ensures file.Parsed? && SiteConfig.Accepts(file.pages) && validIP(address) && validPort(port) ==>
        err == (if served.Some? then Some(ServeFailed(served.value)) else None)
      ensures err.None? <==> file.Parsed? && SiteConfig.Accepts(file.pages) && validIP(address) && validPort(port) && served.None?
    {
      if file.Unreadable? {
        return Some(ReadFailed);
      }
      if file.Unparsable? {
        return Some(ParseFailed);
      }
      var c := new SiteConfig.Config(file.pages);
      var e := c.ValidateConfig();
      if e.Some? {
        return Some(Invalid(e.value));
      }
      var s := ServerSetup.NewServer(address, port, c, validIP, validPort);
      if s.Failure? {
        return Some(ServerFailed(s.error));
      }
      if served.Some? {
        return Some(ServeFailed(served.value));
      }
      return None;
    }
  }
}
