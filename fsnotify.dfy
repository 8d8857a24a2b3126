/**
 * The decision logic of fsnotify.go: validating the directory descriptors and
 * building the directory-to-matcher table in NewFileChangeNotifier, and the
 * per-event filter of the event-reading goroutine.
 *
 * The matcher is a regular expression in the source; here it is an abstract
 * predicate on base names. filepath.Clean, os.Stat, fsnotify.NewWatcher and
 * watcher.Add are answered by a Host value.
 */
module FileNotify {
  import opened Wrappers
  import Paths
  import Debounce

  type Path = string

  /** Whether a base name qualifies (FileMatcher.MatchString in the source). */
  type Matcher = string -> bool

  datatype DirFilesDescriptor = DirFilesDescriptor(dir: Path, fileMatcher: Matcher)

  /** What os.Stat says about a path. */
  datatype FileKind = Missing | Directory | NotDirectory

  /** The environment NewFileChangeNotifier consults. */
  datatype Host = Host(
    clean: Path -> Path,      // filepath.Clean
    stat: Path -> FileKind,   // os.Stat and IsDir
    watcherStarts: bool,      // fsnotify.NewWatcher succeeds
    canAdd: Path -> bool)     // watcher.Add succeeds

  datatype NotifyError =
    | NoDescriptors
    | WatcherInit
    | DirNotFound(dir: Path)
    | NotADirectory(dir: Path)
    | AlreadyRegistered(dir: Path)
    | AddFailed(dir: Path)
    | NoMatcher(dir: Path)

  /** One iteration of the registration loop (fsnotify.go:73-88). */
  function Register(m: map<Path, Matcher>, d: DirFilesDescriptor, host: Host): (r: Result<map<Path, Matcher>, NotifyError>)
    ensures r.Success? <==>
              host.stat(host.clean(d.dir)) == Directory && host.clean(d.dir) !in m && host.canAdd(host.clean(d.dir))
    ensures r.Success? ==> r.value.Keys == m.Keys + {host.clean(d.dir)} && r.value[host.clean(d.dir)] == d.fileMatcher
    ensures r.Failure? ==>
              (r.error.DirNotFound? || r.error.NotADirectory? || r.error.AlreadyRegistered? || r.error.AddFailed?)
              && r.error.dir == host.clean(d.dir)
  {
    var dir := host.clean(d.dir);
    if host.stat(dir) == Missing then Failure(DirNotFound(dir))
    else if host.stat(dir) != Directory then Failure(NotADirectory(dir))
    else if dir in m then Failure(AlreadyRegistered(dir))
    else if !host.canAdd(dir) then Failure(AddFailed(dir))
    else Success(m[dir := d.fileMatcher])
  }

  /** The table after registering the descriptors left to right, or the first error. */
  function DescriptorTable(ds: seq<DirFilesDescriptor>, host: Host): (r: Result<map<Path, Matcher>, NotifyError>)
    ensures r.Failure? ==>
              (r.error.DirNotFound? || r.error.NotADirectory? || r.error.AlreadyRegistered? || r.error.AddFailed?)
              && exists j :: 0 <= j < |ds| && r.error.dir == host.clean(ds[j].dir)
    decreases |ds|
  {
    if |ds| == 0 then Success(map[])
    else
      match DescriptorTable(ds[..|ds| - 1], host)
      case Failure(e) => Failure(e)
      case Success(m) => Register(m, ds[|ds| - 1], host)
  }

  /** Everything NewFileChangeNotifier decides before it starts its goroutines. */
  function NewTable(ds: seq<DirFilesDescriptor>, host: Host): (r: Result<map<Path, Matcher>, NotifyError>)
    ensures r == Failure(NoDescriptors) <==> |ds| == 0
    ensures r == Failure(WatcherInit) <==> |ds| > 0 && !host.watcherStarts
  {
    if |ds| < 1 then Failure(NoDescriptors)
    else if !host.watcherStarts then Failure(WatcherInit)
    else DescriptorTable(ds, host)
  }

  /** Every descriptor names an existing directory that can be watched. */
  ghost predicate Watchable(ds: seq<DirFilesDescriptor>, host: Host)
  {
    forall i :: 0 <= i < |ds| ==>
      host.stat(host.clean(ds[i].dir)) == Directory && host.canAdd(host.clean(ds[i].dir))
  }

  /** No two descriptors name the same cleaned directory. */
  ghost predicate DistinctDirs(ds: seq<DirFilesDescriptor>, host: Host)
  {
    forall i, j :: 0 <= i < j < |ds| ==> host.clean(ds[i].dir) != host.clean(ds[j].dir)
  }

  ghost function CleanDirs(ds: seq<DirFilesDescriptor>, host: Host): set<Path>
  {
    set i | 0 <= i < |ds| :: host.clean(ds[i].dir)
  }

  /**
   * Descriptor j passes the loop body (fsnotify.go:73-88): its cleaned
   * directory exists, is a directory, was not registered by an earlier
   * descriptor, and can be added to the watcher.
   */
  ghost predicate Passes(ds: seq<DirFilesDescriptor>, host: Host, j: nat)
    requires j < |ds|
  {
    var d := host.clean(ds[j].dir);
    host.stat(d) == Directory && (forall i :: 0 <= i < j ==> host.clean(ds[i].dir) != d) && host.canAdd(d)
  }

  /** Descriptor j fails the loop body with error e: the first of the four checks, in order, that it fails. */
  ghost predicate FailsAt(e: NotifyError, ds: seq<DirFilesDescriptor>, host: Host, j: nat)
    requires j < |ds|
  {
    var d := host.clean(ds[j].dir);
    match e
    case DirNotFound(d') => d' == d && host.stat(d) == Missing
    case NotADirectory(d') => d' == d && host.stat(d) == NotDirectory
    case AlreadyRegistered(d') =>
      d' == d && host.stat(d) == Directory && exists i :: 0 <= i < j && host.clean(ds[i].dir) == d
    case AddFailed(d') =>
      d' == d && host.stat(d) == Directory && (forall i :: 0 <= i < j ==> host.clean(ds[i].dir) != d) && !host.canAdd(d)
    case _ => false
  }

  /** The error an unacceptable descriptor list reports is the failure of its first failing descriptor. */
  ghost predicate Explains(e: NotifyError, ds: seq<DirFilesDescriptor>, host: Host)
  {
    exists j :: 0 <= j < |ds| && (forall k :: 0 <= k < j ==> Passes(ds, host, k)) && FailsAt(e, ds, host, j)
  }

  /** A failure registering a prefix is the failure of the whole list. */
  lemma {:induction false} DescriptorTablePrefixFailure(ds: seq<DirFilesDescriptor>, host: Host, k: nat)
    requires k <= |ds| && DescriptorTable(ds[..k], host).Failure?
    ensures DescriptorTable(ds, host) == DescriptorTable(ds[..k], host)
    decreases |ds| - k
  {
    if k < |ds| {
      assert ds[..|ds| - 1][..k] == ds[..k];
      DescriptorTablePrefixFailure(ds[..|ds| - 1], host, k);
    } else {
      assert ds[..k] == ds;
    }
  }

  /**
   * Registration succeeds exactly when every directory is watchable and no
   * cleaned directory repeats; the table then has one key per directory.
   */
  lemma {:induction false} DescriptorTableSucceeds(ds: seq<DirFilesDescriptor>, host: Host)
    ensures DescriptorTable(ds, host).Success? <==> Watchable(ds, host) && DistinctDirs(ds, host)
    ensures DescriptorTable(ds, host).Success? ==> DescriptorTable(ds, host).value.Keys == CleanDirs(ds, host)
    decreases |ds|
  {
    if |ds| > 0 {
      DescriptorTableSucceeds(ds[..|ds| - 1], host);
      DescriptorsAppend(ds, host);
    }
  }

  /**
   * A descriptor list is watchable, with distinct directories, exactly when
   * all but its last descriptor are and the last one's cleaned directory is
   * watchable and new; its directories are theirs and the last one's.
   */
  lemma DescriptorsAppend(ds: seq<DirFilesDescriptor>, host: Host)
    requires |ds| > 0
    ensures var init, dir := ds[..|ds| - 1], host.clean(ds[|ds| - 1].dir);
      CleanDirs(ds, host) == CleanDirs(init, host) + {dir}
      && (Watchable(ds, host) <==> Watchable(init, host) && host.stat(dir) == Directory && host.canAdd(dir))
      && (DistinctDirs(ds, host) <==> DistinctDirs(init, host) && dir !in CleanDirs(init, host))
  {
    var n, init, dir := |ds|, ds[..|ds| - 1], host.clean(ds[|ds| - 1].dir);
    assert forall i :: 0 <= i < n - 1 ==> init[i] == ds[i];
    forall p | p in CleanDirs(ds, host) ensures p in CleanDirs(init, host) + {dir} {
      var i :| 0 <= i < n && host.clean(ds[i].dir) == p;
      if i < n - 1 { assert init[i] == ds[i]; }
    }
    if dir in CleanDirs(init, host) {
      var i :| 0 <= i < n - 1 && host.clean(init[i].dir) == dir;
      assert host.clean(ds[i].dir) == host.clean(ds[n - 1].dir);
    }
  }


  /** A failed registration reports the first descriptor that fails, and the check it fails. */
  lemma {:induction false} DescriptorTableFailureExplained(ds: seq<DirFilesDescriptor>, host: Host)
    requires DescriptorTable(ds, host).Failure?
    ensures Explains(DescriptorTable(ds, host).error, ds, host)
    decreases |ds|
  {
    var n := |ds|;
    var init := ds[..n - 1];
    assert forall i :: 0 <= i < n - 1 ==> init[i] == ds[i];
    if DescriptorTable(init, host).Failure? {
      DescriptorTableFailureExplained(init, host);
      ExplainsExtends(DescriptorTable(init, host).error, init, ds, host);
    } else {
      var m := DescriptorTable(init, host).value;
      DescriptorTableSucceeds(init, host);
      var dir := host.clean(ds[n - 1].dir);
      forall k | 0 <= k < n - 1 ensures Passes(ds, host, k) {
        assert init[k] == ds[k];
        forall i | 0 <= i < k ensures host.clean(ds[i].dir) != host.clean(ds[k].dir) {
          assert init[i] == ds[i];
        }
      }
      if dir in m {
        var i :| 0 <= i < n - 1 && host.clean(init[i].dir) == dir;
        assert host.clean(ds[i].dir) == dir;
      } else {
        forall i | 0 <= i < n - 1 ensures host.clean(ds[i].dir) != dir {
          assert init[i] == ds[i];
          assert host.clean(init[i].dir) in CleanDirs(init, host);
        }
      }
      assert FailsAt(DescriptorTable(ds, host).error, ds, host, n - 1);
    }
  }

  /** An explanation found in a prefix is an explanation for the whole list. */
  lemma ExplainsExtends(e: NotifyError, init: seq<DirFilesDescriptor>, ds: seq<DirFilesDescriptor>, host: Host)
    requires |init| < |ds| && init == ds[..|init|]
    requires Explains(e, init, host)
    ensures Explains(e, ds, host)
  {
    assert forall i :: 0 <= i < |init| ==> init[i] == ds[i];
    var j :| 0 <= j < |init| && (forall k :: 0 <= k < j ==> Passes(init, host, k)) && FailsAt(e, init, host, j);
    forall k | 0 <= k < j ensures Passes(ds, host, k) {
      assert Passes(init, host, k);
    }
    assert FailsAt(e, ds, host, j);
  }

  /** On success each descriptor's cleaned directory is bound to that descriptor's matcher. */
  lemma {:induction false} DescriptorTableBinds(ds: seq<DirFilesDescriptor>, host: Host, i: nat)
    requires i < |ds| && DescriptorTable(ds, host).Success?
    ensures host.clean(ds[i].dir) in DescriptorTable(ds, host).value
    ensures DescriptorTable(ds, host).value[host.clean(ds[i].dir)] == ds[i].fileMatcher
    decreases |ds|
  {
    var init := ds[..|ds| - 1];
    assert DescriptorTable(init, host).Success?;
    if i < |ds| - 1 {
      assert init[i] == ds[i];
      DescriptorTableBinds(init, host, i);
    }
  }

  /** Construction fails exactly on zero descriptors, a watcher that does not start, or a bad or repeated directory. */
  lemma NewTableFails(ds: seq<DirFilesDescriptor>, host: Host)
    ensures NewTable(ds, host) == Failure(NoDescriptors) <==> |ds| == 0
    ensures NewTable(ds, host).Success? <==> |ds| > 0 && host.watcherStarts && Watchable(ds, host) && DistinctDirs(ds, host)
    ensures NewTable(ds, host).Success? ==> NewTable(ds, host).value.Keys == CleanDirs(ds, host)
    ensures |ds| > 0 && host.watcherStarts && NewTable(ds, host).Failure? ==> Explains(NewTable(ds, host).error, ds, host)
  {
    DescriptorTableSucceeds(ds, host);
    if |ds| > 0 && host.watcherStarts && DescriptorTable(ds, host).Failure? {
      DescriptorTableFailureExplained(ds, host);
    }
  }

  /** The fsnotify operation flags of an event. */
  datatype Op = Create | Write | Remove | Rename | Chmod

  datatype FsEvent = FsEvent(name: Path, ops: set<Op>)

  /** What the event reader does with one event. */
  datatype Outcome =
    | Skipped                    // not a write: `continue`
    | Signal                     // matching base name: one `eventChan <- true`
    | NoSignal                   // base name does not match: nothing sent
    | Unregistered(dir: Path)    // no matcher for the directory: error recorded, reader stops
    | NilMatcherPanic(dir: Path) // as written: error recorded, then the nil matcher is used

  /** The event filter, with the reader stopping after recording a missing matcher. */
  function Classify(table: map<Path, Matcher>, e: FsEvent): (o: Outcome)
    ensures o.Skipped? <==> Write !in e.ops
    ensures o.Unregistered? <==> Write in e.ops && Paths.Dir(e.name) !in table
    ensures o.Signal? <==> Write in e.ops && Paths.Dir(e.name) in table && table[Paths.Dir(e.name)](Paths.Base(e.name))
    ensures !o.NilMatcherPanic?
  {
    if Write !in e.ops then Skipped
    else
      var dir := Paths.Dir(e.name);
      if dir !in table then Unregistered(dir)
      else if table[dir](Paths.Base(e.name)) then Signal
      else NoSignal
  }

  /**
   * The filter as fsnotify.go:128-136 has it: after recording the missing
   * matcher it does not return, and calls MatchString on the nil matcher the
   * failed map lookup yields, which panics.
   */
  function ClassifyAsWritten(table: map<Path, Matcher>, e: FsEvent): (o: Outcome)
    ensures o.Skipped? <==> Write !in e.ops
    ensures o.NilMatcherPanic? <==> Write in e.ops && Paths.Dir(e.name) !in table
    ensures o.Signal? <==> Write in e.ops && Paths.Dir(e.name) in table && table[Paths.Dir(e.name)](Paths.Base(e.name))
    ensures !o.Unregistered?
  {
    if Write !in e.ops then Skipped
    else
      var dir := Paths.Dir(e.name);
      if dir !in table then NilMatcherPanic(dir)
      else if table[dir](Paths.Base(e.name)) then Signal
      else NoSignal
  }

  /** The two filters agree except on a write in an unregistered directory, where the written one panics. */
  lemma AsWrittenPanicsOnUnregisteredWrite(table: map<Path, Matcher>, e: FsEvent)
    ensures Classify(table, e).Unregistered? ==> ClassifyAsWritten(table, e) == NilMatcherPanic(Paths.Dir(e.name))
    ensures !Classify(table, e).Unregistered? ==> ClassifyAsWritten(table, e) == Classify(table, e)
  {
  }

  /** A concrete write that makes the written filter panic: a file under a directory that was never registered. */
  lemma AsWrittenPanicExample(m: Matcher)
    ensures ClassifyAsWritten(map["/site/templates" := m], FsEvent("/site/other/page.html", {Write}))
         == NilMatcherPanic("/site/other")
  {
    Paths.DirBaseOfJoin("/site/other", "page.html");
    assert Paths.Join("/site/other", "page.html") == "/site/other/page.html";
  }

  /**
   * The internal signals the reader sends for the events from position
   * `from` on, one flag per event it handles; it stops after an event that
   * records an error.
   */
  function ReaderTrace(table: map<Path, Matcher>, events: seq<FsEvent>, from: nat): (sent: seq<bool>)
    requires from <= |events|
    ensures |sent| <= |events| - from
    decreases |events| - from
  {
    if from == |events| then []
    else
      var o := Classify(table, events[from]);
      if o.Unregistered? then [false] else [o.Signal?] + ReaderTrace(table, events, from + 1)
  }

  /** The reader's trace so far, extended by event i: either it ends there or it goes on with event i + 1. */
  lemma ReaderTraceAdvance(table: map<Path, Matcher>, events: seq<FsEvent>, sent: seq<bool>, i: nat)
    requires i < |events| && ReaderTrace(table, events, 0) == sent + ReaderTrace(table, events, i)
    ensures Classify(table, events[i]).Unregistered? ==> ReaderTrace(table, events, 0) == sent + [false]
    ensures !Classify(table, events[i]).Unregistered? ==>
      ReaderTrace(table, events, 0) == (sent + [Classify(table, events[i]).Signal?]) + ReaderTrace(table, events, i + 1)
  {
    var rest := ReaderTrace(table, events, i + 1);
    var x := [Classify(table, events[i]).Signal?];
    assert sent + (x + rest) == (sent + x) + rest;
  }

  /** The reader's first step: its first flag, and the flags after it, which are those of the next position. */
  lemma ReaderTraceHead(table: map<Path, Matcher>, events: seq<FsEvent>, from: nat)
    requires from < |events|
    ensures var t := ReaderTrace(table, events, from);
      && |t| > 0 && t[0] == Classify(table, events[from]).Signal?
      && (|t| > 1 ==> !Classify(table, events[from]).Unregistered?
                      && t[1..] == ReaderTrace(table, events, from + 1))
  {
    var o := Classify(table, events[from]);
    if !o.Unregistered? {
      var rest := ReaderTrace(table, events, from + 1);
      assert ([o.Signal?] + rest)[1..] == rest;
    }
  }

  /** The flags from position k on are those of the reader started k events later. */
  lemma {:induction false} ReaderTraceShift(table: map<Path, Matcher>, events: seq<FsEvent>, from: nat, k: nat)
    requires from <= |events| && k < |ReaderTrace(table, events, from)|
    ensures from + k < |events| && ReaderTrace(table, events, from)[k..] == ReaderTrace(table, events, from + k)
    decreases k
  {
    if k > 0 {
      var t := ReaderTrace(table, events, from);
      ReaderTraceHead(table, events, from);
      ReaderTraceShift(table, events, from + 1, k - 1);
      assert t[k..] == t[1..][k - 1..];
    }
  }

  /** Each flag the reader sends is whether its event is a write the registered matcher accepts. */
  lemma ReaderTraceAt(table: map<Path, Matcher>, events: seq<FsEvent>, from: nat, k: nat)
    requires from <= |events| && k < |ReaderTrace(table, events, from)|
    ensures ReaderTrace(table, events, from)[k] == Classify(table, events[from + k]).Signal?
  {
    ReaderTraceShift(table, events, from, k);
    ReaderTraceHead(table, events, from + k);
    assert ReaderTrace(table, events, from)[k] == ReaderTrace(table, events, from)[k..][0];
  }

  /** Every event the reader handles before its last one is not a write in an unregistered directory. */
  lemma ReaderTraceRegistered(table: map<Path, Matcher>, events: seq<FsEvent>, from: nat, k: nat)
    requires from <= |events| && k + 1 < |ReaderTrace(table, events, from)|
    ensures !Classify(table, events[from + k]).Unregistered?
  {
    ReaderTraceShift(table, events, from, k);
    ReaderTraceHead(table, events, from + k);
  }

  /** The reader handles every event unless it stops early, and it stops early only after an unregistered write. */
  lemma {:induction false} ReaderTraceEnd(table: map<Path, Matcher>, events: seq<FsEvent>, from: nat)
    requires from <= |events|
    ensures var n := |ReaderTrace(table, events, from)|;
      n < |events| - from ==> n > 0 && Classify(table, events[from + n - 1]).Unregistered?
    decreases |events| - from
  {
    if from < |events| && !Classify(table, events[from]).Unregistered? {
      ReaderTraceEnd(table, events, from + 1);
    }
  }

  /** What the reader and flush goroutines see, interleaved in the order they see it. */
  datatype Input = FileEvent(e: FsEvent) | TimerTick

  /** The inputs the flush goroutine receives: one Event per matching write, every tick. */
  function Pulses(table: map<Path, Matcher>, inputs: seq<Input>): (ps: seq<Debounce.Pulse>)
    ensures |ps| <= |inputs|
    decreases |inputs|
  {
    if inputs == [] then []
    else
      match inputs[0]
      case TimerTick => [Debounce.Tick] + Pulses(table, inputs[1..])
      case FileEvent(e) =>
        var o := Classify(table, e);
        if o.Unregistered? then []
        else if o.Signal? then [Debounce.Event] + Pulses(table, inputs[1..])
        else Pulses(table, inputs[1..])
  }

  /** An input that stops the reader: a write in a directory with no matcher. */
  predicate StopsReader(table: map<Path, Matcher>, input: Input)
  {
    input.FileEvent? && Classify(table, input.e).Unregistered?
  }

  /** The position of the first input that stops the reader, or the length when none does. */
  function FirstStop(table: map<Path, Matcher>, inputs: seq<Input>): (k: nat)
    ensures k <= |inputs|
    ensures forall j :: 0 <= j < k ==> !StopsReader(table, inputs[j])
    ensures k < |inputs| ==> StopsReader(table, inputs[k])
  {
    if inputs == [] || StopsReader(table, inputs[0]) then 0
    else 1 + FirstStop(table, inputs[1..])
  }

  function CountTicks(inputs: seq<Input>): nat
  {
    if inputs == [] then 0 else (if inputs[0].TimerTick? then 1 else 0) + CountTicks(inputs[1..])
  }

  function CountSignals(table: map<Path, Matcher>, inputs: seq<Input>): nat
  {
    if inputs == [] then 0
    else (if inputs[0].FileEvent? && Classify(table, inputs[0].e).Signal? then 1 else 0)
         + CountSignals(table, inputs[1..])
  }

  /**
   * Up to the first write that stops the reader, the flush goroutine gets one
   * Tick per timer tick and one Event per matching write; after it, nothing.
   */
  lemma {:induction false} PulsesCount(table: map<Path, Matcher>, inputs: seq<Input>)
    ensures var k := FirstStop(table, inputs);
      && Debounce.CountOf(Pulses(table, inputs), Debounce.Tick) == CountTicks(inputs[..k])
      && Debounce.CountOf(Pulses(table, inputs), Debounce.Event) == CountSignals(table, inputs[..k])
  {
    if inputs != [] && !StopsReader(table, inputs[0]) {
      var rest := inputs[1..];
      PulsesCount(table, rest);
      var k := FirstStop(table, inputs);
      assert inputs[..k][0] == inputs[0] && inputs[..k][1..] == rest[..k - 1];
      var ps := Pulses(table, rest);
      match inputs[0]
      case TimerTick =>
        assert ([Debounce.Tick] + ps)[1..] == ps;
      case FileEvent(e) =>
        assert ([Debounce.Event] + ps)[1..] == ps;
    }
  }

  /** Events that are not writes never reach the flush goroutine. */
  lemma {:induction false} NonWritesIgnored(table: map<Path, Matcher>, inputs: seq<Input>, e: FsEvent)
    requires Write !in e.ops
    ensures Pulses(table, [FileEvent(e)] + inputs) == Pulses(table, inputs)
  {
    assert ([FileEvent(e)] + inputs)[1..] == inputs;
  }

  class FileChangeNotifier {
    const dirFiles: seq<DirFilesDescriptor>
    var dirDescriptorMap: map<Path, Matcher>
    var err: Option<NotifyError>

    constructor (descriptors: seq<DirFilesDescriptor>)
      ensures dirFiles == descriptors && dirDescriptorMap == map[] && err == None
    {
      dirFiles := descriptors;
      dirDescriptorMap := map[];
      err := None;
    }

    /**
     * The event-reading goroutine over the events it receives: writes are
     * filtered, a matching base name sends one internal signal, and a write
     * in a directory with no matcher records the error and ends the reader.
     */
    method ReadEvents(events: seq<FsEvent>) returns (sent: seq<bool>)
      modifies this`err
      ensures sent == ReaderTrace(dirDescriptorMap, events, 0)
      ensures |sent| > 0 && Classify(dirDescriptorMap, events[|sent| - 1]).Unregistered? ==>
                err == Some(NoMatcher(Classify(dirDescriptorMap, events[|sent| - 1]).dir))
      ensures (|sent| == 0 || !Classify(dirDescriptorMap, events[|sent| - 1]).Unregistered?) ==> err == old(err)
    {
      sent := [];
      var table := dirDescriptorMap;
      var i := 0;
      while i < |events|
        invariant 0 <= i <= |events| && |sent| == i
        invariant ReaderTrace(table, events, 0) == sent + ReaderTrace(table, events, i)
        invariant i > 0 ==> !Classify(table, events[i - 1]).Unregistered?
        invariant err == old(err) && table == dirDescriptorMap
      {
        var e := events[i];
        ReaderTraceAdvance(table, events, sent, i);
        ghost var o := Classify(table, e);
        if Write !in e.ops {
          sent := sent + [false];
        } else {
          var dir := Paths.Dir(e.name);
          if dir !in table {
            assert o == Unregistered(dir);
            err := Some(NoMatcher(dir));
            sent := sent + [false];
            return;
          }
          var matcher := table[dir];
          sent := sent + [matcher(Paths.Base(e.name))];
        }
        i := i + 1;
      }
    }
  }

  /**
   * NewFileChangeNotifier up to the start of its goroutines: zero descriptors
   * and a watcher that cannot start are refused, then each descriptor's
   * cleaned directory is checked and entered in the table in place.
   */
  method NewFileChangeNotifier(descriptors: seq<DirFilesDescriptor>, host: Host) returns (r: Result<FileChangeNotifier, NotifyError>)
    ensures r.Failure? <==> NewTable(descriptors, host).Failure?
    ensures r.Failure? ==> r.error == NewTable(descriptors, host).error
    ensures r.Success? ==> fresh(r.value) && r.value.dirDescriptorMap == NewTable(descriptors, host).value
    ensures r.Success? ==> r.value.dirFiles == descriptors && r.value.err == None
  {
    if |descriptors| < 1 {
      return Failure(NoDescriptors);
    }
    var fcn := new FileChangeNotifier(descriptors);
    if !host.watcherStarts {
      return Failure(WatcherInit);
    }
    var i := 0;
    while i < |descriptors|
      invariant 0 <= i <= |descriptors|
      invariant DescriptorTable(descriptors[..i], host) == Success(fcn.dirDescriptorMap)
      invariant fcn.dirFiles == descriptors && fcn.err == None
    {
      var desc := descriptors[i];
      assert descriptors[..i + 1][..i] == descriptors[..i];
      var dir := host.clean(desc.dir);
      var check := host.stat(dir);
      if check == Missing {
        DescriptorTablePrefixFailure(descriptors, host, i + 1);
        return Failure(DirNotFound(dir));
      }
      if check != Directory {
        DescriptorTablePrefixFailure(descriptors, host, i + 1);
        return Failure(NotADirectory(dir));
      }
      if dir in fcn.dirDescriptorMap {
        DescriptorTablePrefixFailure(descriptors, host, i + 1);
        return Failure(AlreadyRegistered(dir));
      }
      if !host.canAdd(dir) {
        DescriptorTablePrefixFailure(descriptors, host, i + 1);
        return Failure(AddFailed(dir));
      }
      fcn.dirDescriptorMap := fcn.dirDescriptorMap[dir := desc.fileMatcher];
      i := i + 1;
    }
    assert descriptors[..i] == descriptors;
    return Success(fcn);
  }
}
