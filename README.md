# firstgo core, modelled in Dafny

firstgo serves a "clickable image" web site. Each page is an image with
rectangular zones, and each zone links to another page. A YAML file
describes the site. This project models the decision logic at the core of
the program:

- **the generic event loop** (`EventLoop`, eventloop.go): a table from
  message labels to commands, the `Update` step, and `Run`, which schedules
  one command per received message.
- **the file-change notifier** (`FileNotify`, fsnotify.go):
  - validating the watched directories and building the
    directory-to-matcher table;
  - the filter that turns write events into internal signals.
- **the debounce loop** (`Debounce`, fsnotify.go): a `flush` flag that
  collapses bursts of writes into one refresh per timer tick.
- **the suffix rule** (`SuffixRule`): the file-selection rule the notifier's
  tests use, and the six-write test scenario that ends in three refreshes.
- **site validation**:
  - the shared site model and zone loop (`Site`);
  - the structural `validateConfig` of config.go (`SiteConfig`);
  - the older variant in pages.go (`LegacyPages`);
  - the `hasURL` register.
- **server construction** (`ServerSetup`, server.go): the address and port
  checks, the mount paths, the page-count check, and the index pages.
- **the application** (`DevMode`, app.go):
  - `NewApp` and `Interactive`;
  - `Serve`'s chain of early-returning steps;
  - the development-mode controller of `ServeInDevelopment`. Its three
    command closures share `cfg`, `srv` and `templateDir`, and it routes
    their messages through the event loop's table.

The outside world is passed in as parameters:

- the file system, fsnotify and `filepath.Clean` are a `FileNotify.Host` value;
- `net.ParseIP` and `strconv.Atoi` are validity predicates;
- reading and unmarshalling the configuration file is a `DevMode.ConfigFile` value;
- each step of the development loop gets the world's answer as a `DevMode.World`.

Channels, goroutines and the timer are replaced by the sequence of inputs a
loop receives. Go command closures become opaque command identifiers. The
per-directory regular expressions become predicates on base names.

The command table has a `CONFIG_LOAD_FAILED` entry, but the commands behave
differently from what that entry suggests:

- `loadConfigCmd` returns `FILE_WAIT` on every failure (app.go:110, 117),
  never `CONFIG_LOAD_FAILED`. `FILE_WAIT` has no table entry, so it reaches
  the file wait through the default command. The `CONFIG_LOAD_FAILED` entry
  is never used (`DevMode.NoLoadFailedMessage`).
- `startServerCmd` assigns the result of `newServer` to `srv` even on
  failure (app.go:131), so a failed start leaves no server. The model keeps
  this.

## Model

| member | source | states |
|---|---|---|
| EventLoop.CmdTable | eventloop.go:48-53 | A failed registration always reports a repeated label, and that label is one of the list's labels. |
| EventLoop.NewTable | eventloop.go:37-53 | "No commands" is the result exactly for the empty list. |
| EventLoop.NewTableFails | eventloop.go:37-53 | Construction fails exactly when the list is empty or a label repeats. "No commands" is reported exactly for the empty list. On success the table's keys are exactly the labels. |
| EventLoop.CmdTableSucceedsIffUnique | eventloop.go:48-53 | Registration succeeds iff no label occurs twice; its keys are then the set of labels. |
| EventLoop.CmdTableFailureIsDuplicate | eventloop.go:49-51 | A failed registration always reports a duplicate label, and that label occurs at two positions of the list. |
| EventLoop.CmdTableBindsLabels | eventloop.go:48-53 | On success every label is bound to its own command. |
| EventLoop.CmdTablePrefixFailure | eventloop.go:48-51 | A failure registering a prefix is the result for the whole list (registration stops at the first duplicate). |
| EventLoop.EventLoop.constructor | eventloop.go:42-47 | A new loop holds the start and default commands and an empty table. |
| EventLoop.NewEventLoop | eventloop.go:37-57 | The in-place filling loop fails or succeeds exactly as the table function does, with the same error. On success the fresh loop's table is that table and it holds the given start and default commands. |
| EventLoop.EventLoop.Update | eventloop.go:61-66 | Update reads the loop and changes nothing. The command it returns is the default command or one registered in the table. |
| EventLoop.UpdateOfRegistered | eventloop.go:61-66 | After construction, Update of any registered label is that label's command, and Update of any other message is the default command. |
| EventLoop.EventLoop.Run | eventloop.go:69-91 | The start command is scheduled first, then Update of each received message. Scheduling a nil command panics and stops the loop; this happens exactly when the start command or some Update result is nil. |
| FileNotify.Register | fsnotify.go:73-88 | One descriptor registers exactly when its cleaned directory exists, is a directory, is not yet in the table and can be added. It then adds exactly that directory, bound to its matcher. Otherwise the error names that directory and is one of the four checks. |
| FileNotify.DescriptorTable | fsnotify.go:72-89 | A failed descriptor loop reports one of the four directory checks, for the cleaned directory of one of the descriptors. |
| FileNotify.NewTable | fsnotify.go:54-89 | "No descriptors" is the result exactly for an empty list, and "watcher init" exactly for a non-empty list when the watcher cannot start. |
| FileNotify.NewTableFails | fsnotify.go:54-89 | Construction fails with "no descriptors" exactly for an empty list. It succeeds iff the list is non-empty, the watcher starts, every cleaned directory exists and is a directory that can be added, and no cleaned directory repeats. The table's keys are the cleaned directories. Every other failure is explained by the descriptor it names. |
| FileNotify.DescriptorTableSucceeds | fsnotify.go:72-89 | The descriptor loop succeeds iff every directory is watchable and the cleaned directories are distinct; the keys are then the cleaned directories. |
| FileNotify.DescriptorTableFailureExplained | fsnotify.go:73-87 | A failed descriptor loop reports the first failing descriptor. Every earlier descriptor passes: its cleaned directory exists, is a directory, is new and can be added. The reported error names the first of those checks, in that order, that the failing descriptor fails. |
| FileNotify.ExplainsExtends | fsnotify.go:72-87 | An explanation of a failure in a prefix stays valid for the whole descriptor list. |
| FileNotify.DescriptorTablePrefixFailure | fsnotify.go:72-87 | The first failing descriptor ends the loop with that failure. |
| FileNotify.DescriptorTableBinds | fsnotify.go:88 | On success each descriptor's cleaned directory is bound to that descriptor's matcher. |
| FileNotify.FileChangeNotifier.constructor | fsnotify.go:60-64 | A new notifier holds the descriptors, an empty table and no error. |
| FileNotify.NewFileChangeNotifier | fsnotify.go:54-89 | The in-place construction fails or succeeds exactly as the table function does, with the same error. On success the notifier's table is that table and no error is recorded. |
| FileNotify.Classify | fsnotify.go:118-136 | An event without Write is skipped. A write in an unregistered directory is reported as unregistered. A write signals iff its directory's matcher accepts the base name. The corrected filter never reaches the nil matcher. |
| FileNotify.ClassifyAsWritten | fsnotify.go:118-136 | The filter as written skips exactly the events without Write and signals exactly on a write whose registered matcher accepts the base name. A write in an unregistered directory reaches the nil matcher; it is never reported as unregistered. |
| FileNotify.AsWrittenPanicsOnUnregisteredWrite | fsnotify.go:128-132 | The filter as written uses the nil matcher exactly on the writes the corrected filter reports as unregistered; elsewhere the two agree. |
| FileNotify.AsWrittenPanicExample | fsnotify.go:128-132 | A write to /site/other/page.html, with only /site/templates registered, reaches the nil matcher. |
| FileNotify.ReaderTrace | fsnotify.go:112-136 | From any position, the reader emits at most one output per remaining event. |
| FileNotify.ReaderTraceHead | fsnotify.go:117-136 | The reader's first flag is whether the first event signals. If it goes on, that event was not an unregistered write and the remaining flags are the reader's from the next event. |
| FileNotify.ReaderTraceShift | fsnotify.go:117-136 | The flags from position k on are those of the reader started k events later. |
| FileNotify.ReaderTraceAt | fsnotify.go:117-136 | Flag k of the reader is whether event from + k is a write whose registered matcher accepts the base name. |
| FileNotify.ReaderTraceRegistered | fsnotify.go:128-132 | Every event the reader handles before its last one is a non-write or a write in a registered directory. |
| FileNotify.ReaderTraceEnd | fsnotify.go:128-132 | The reader handles every remaining event unless it stops early. It stops early only right after a write in an unregistered directory. |
| FileNotify.ReaderTraceAdvance | fsnotify.go:117-136 | Proof step for the invariant of `ReadEvents`' loop: one more reader iteration either ends the trace with a final false at an unregistered write, or adds that event's flag and goes on with the next event. |
| FileNotify.FileChangeNotifier.ReadEvents | fsnotify.go:100-138 | The reading loop emits exactly the reader trace. It records "no matcher" for the directory of the unregistered write that ended it, and otherwise leaves the error unchanged. |
| FileNotify.NonWritesIgnored | fsnotify.go:118-120 | An event without Write contributes nothing to the debounce loop's input. |
| FileNotify.Pulses | fsnotify.go:117-159 | The flush goroutine receives at most one input for each event or tick. |
| FileNotify.FirstStop | fsnotify.go:128-132 | The first input that is a write in an unregistered directory, or the end: no earlier input is one, and the input found is. |
| FileNotify.PulsesCount | fsnotify.go:117-163 | Up to the first write that stops the reader, the flush goroutine receives exactly one Tick per timer tick and one Event per write its matcher accepts, consecutive writes included. Nothing comes from the inputs after that write. |
| Debounce.Step | fsnotify.go:153-163 | One pass of the select sets the flag exactly on an event. It sends a refresh exactly on a tick while the flag is set. |
| Debounce.Refreshes | fsnotify.go:144-166 | The loop makes one decision (refresh or not) per input. |
| Debounce.FlushLoop | fsnotify.go:145-165 | The flag-toggling loop sends exactly the refreshes of the fold, starting with the flag clear. |
| Debounce.RefreshAt | fsnotify.go:153-163 | A refresh is sent at input i iff input i is a tick and the previous input was an event (or, for the first input, the flag was set). |
| Debounce.NoRefreshWithoutEvent | fsnotify.go:157-163 | Every refresh is preceded by an event, and between two refreshes there is an event. |
| Debounce.AtMostOnePerTick | fsnotify.go:159-163 | There are no more refreshes than ticks. |
| Debounce.AtMostOnePerEvent | fsnotify.go:153-163 | There are no more refreshes than events, plus one if the flag started set. |
| Debounce.BurstSetsFlag | fsnotify.go:153-158 | A burst of n ≥ 1 events sends nothing and leaves the flag set. |
| Debounce.BurstCollapses | fsnotify.go:153-163 | A burst of events followed by a tick sends exactly one refresh, on the tick. |
| Debounce.SeparatedEventsEachRefresh | fsnotify.go:153-163 | n events each followed by a tick send exactly n refreshes. |
| SuffixRule.Normalize | filewatcher_test.go:43-44 | The result always starts with a dot. A dotted suffix is unchanged, and an undotted one becomes "." followed by the suffix. |
| SuffixRule.DotOptional | filewatcher_test.go:43-44 | A suffix without a leading dot selects the same base names as the same suffix with one ("txt" and ".txt"). |
| SuffixRule.CaseInsensitive | filewatcher_test.go:18-19 | Two base names whose lower-cased forms are equal are selected alike. |
| SuffixRule.EndsWithSelected | filewatcher_test.go:17-22 | A base name that is not hidden and ends with a dotted suffix is selected by that suffix. |
| SuffixRule.HiddenNeverMatches | filewatcher_test.go:17-20 | A base name starting with a dot is never selected. |
| SuffixRule.NoSuffixesNoMatch | filewatcher_test.go:16-23 | With no suffixes nothing is selected. |
| SuffixRule.SingleSuffix | filewatcher_test.go:43-44 | Under one suffix, a base name is selected iff it is not hidden and its lower-cased form ends with the normalised, lower-cased suffix. |
| SuffixRule.TestMatchers | filewatcher_test.go:90-95 | The test's two directories are watched for ".html" and "txt". |
| SuffixRule.HtmlFilesSelected | filewatcher_test.go:17-20 | ".newfile.html" and ".hidden.HTML" are not selected; "abc.html" and "abc.HTML" are. |
| SuffixRule.TxtFilesSelected | filewatcher_test.go:21-22 | "abctxt" is not selected; "ABC.txt" is. |
| SuffixRule.PulsesOfWriteThenTick | filewatcher_test.go:24-34 | A file written in a watched directory, followed by a flush interval, gives an event and a tick when its name is selected, and only a tick otherwise. |
| SuffixRule.PulsesOfWrites | filewatcher_test.go:16-35 | A series of writes, each followed by a tick, gives the debounce loop one event per selected file, each followed by a tick. |
| SuffixRule.TestPulses | filewatcher_test.go:16-35 | The test's six writes give the debounce input predicted from the three selected names. |
| SuffixRule.TestRefreshCount | filewatcher_test.go:139-141 | The six writes of the test produce exactly three refreshes. |
| Paths.Base | fsnotify.go:122 | A base name contains no '/'. |
| Paths.Ext | app.go:159 | filepath.Ext on the last element. A non-empty extension starts at a '.' with no '.' or '/' after it. An empty one means the last element has no '.' at all. Either way the extension is a suffix of the path. |
| Paths.ExtEndsBase | app.go:159 | A non-empty extension is a suffix of the base name. |
| Paths.DirBaseOfJoin | fsnotify.go:121-122 | For a file created as Join(dir, name), the event's directory is dir and its base name is name. |
| Format.ZoneContext | config.go:151-153 | A zone context string ("page %d zone %d") is non-empty and starts with 'p'. |
| Site.PageZone.Width | config.go:281-283 | The width is non-negative exactly when the left edge is not right of the right edge. |
| Site.PageZone.Height | config.go:286-288 | The height is non-negative exactly when the top edge is not below the bottom edge. |
| Site.ZoneStep | config.go:145-165 | One zone passes exactly when it has a target and a proper right and bottom edge. Otherwise the error is an empty target, a bad right edge or a bad bottom edge, for that page and zone. |
| Site.ScanZonesOK | config.go:144-166 | The zone loop passes iff every zone has a target and a proper right and bottom edge. The register then gains exactly the zone targets, and its values stay context strings. |
| Site.ScanZonesErrorExplained | config.go:145-165 | A failed zone loop reports the first failing zone and the check it fails (empty target, right edge, bottom edge, in that order). |
| Site.ScanZonesPrefixFailure | config.go:144-166 | The first failing zone ends the zone loop with that failure. |
| Site.ValidateZones | config.go:144-166 | The in-place zone loop yields the register and error of the zone-loop function. |
| SiteConfig.ScanPageOK | config.go:127-166 | One page passes iff its URL, title and image path are set, it has a zone, every zone passes, and its URL is new. It then adds its URL and zone targets to the registers. |
| SiteConfig.ScanPagesOK | config.go:123-167 | The page loop passes iff every page passes and no URL repeats. The URL register then holds exactly the page URLs, and the target register exactly the zone targets. |
| SiteConfig.ScanPagesErrorExplained | config.go:126-166 | A failed page loop reports the first failing page and the first check it fails: empty URL, repeated URL, empty title, empty image path, no zones, or a zone error. |
| SiteConfig.ScanPagesPrefixFailure | config.go:126-167 | The first failing page ends the page loop with that failure. |
| SiteConfig.ScanPagesStep | config.go:126-167 | Proof step for the invariant of `Config.ValidatePages`' loop: with no error so far, the loop over one more page is one page step on the registers. |
| SiteConfig.AcceptsIffWellFormed | config.go:114-182 | The structural checks accept iff there are at least two pages, every page passes, URLs are distinct, and every zone target is some page's URL. |
| SiteConfig.AcceptedZonesHaveExtent | config.go:281-288 | When the page loop passes, every zone's width and height are non-negative. |
| SiteConfig.TestSiteAccepted | config_test.go:24-56 | The two-page home/detail site is accepted. |
| SiteConfig.TestDuplicateURLRefused | config_test.go:182-213 | A second page with URL "/home" is refused as a repeated URL at page 1. |
| SiteConfig.TestUnresolvedTargetRefused | config_test.go:150-181 | The home/detail site whose detail zone targets "/homes" passes the page loop and is refused. "/homes" is the only target no page has, and it is registered with the context "page 1 zone 0". |
| SiteConfig.TestUnresolvedTargetError | config_test.go:150-181 | Validating that site returns the unresolved-target error for "/homes" with the context "page 1 zone 0". |
| SiteConfig.Config.ValidatePages | config.go:123-167 | The in-place page loop fills urlMap and the zone register exactly as the page-loop function does, with its error. |
| SiteConfig.Config.ValidateConfig | config.go:114-182 | Accepts iff the structural checks hold. Fewer than two pages fails first and leaves urlMap alone; otherwise urlMap is the loop's URL register. A loop error is returned as is. When the page loop passes on two or more pages but the site is not accepted, the error is an unresolved target. Any unresolved target reported is a registered target that no page has, with its context. |
| SiteConfig.HasURLAfterScan | config.go:253-256 | After a passing page loop, hasURL(u) holds iff some page has URL u. |
| LegacyPages.ScanPagesOK | pages.go:42-82 | The older page loop passes iff every page passes (repeats allowed). The registers then hold the page URLs and zone targets, with context values. |
| LegacyPages.ScanPageOK | pages.go:45-81 | One page passes exactly when its own checks pass. It adds its URL and its zone targets to the registers, and keeps every registered value a zone context. |
| LegacyPages.ScanPagesFailureIsPageError | pages.go:45-81 | A page-loop failure is a page or zone check, never a template, page-count or target error. |
| LegacyPages.ScanPagesPrefixFailure | pages.go:45-82 | The first failing page ends the older page loop with that failure. |
| LegacyPages.ScanPagesStep | pages.go:45-82 | Proof step for the invariant of `LegacyPages.ValidatePages`' loop: with no error so far, the older loop over one more page is one page step. |
| LegacyPages.AcceptsIffWellFormed | pages.go:30-94 | The corrected older validator accepts iff the page template is named, there are at least two pages, every page passes, and every target is some page's URL. |
| LegacyPages.AsWrittenRejectsSlashedURLs | pages.go:85-91 | As written, the final loop refuses every configuration whose page URLs all start with '/'. |
| LegacyPages.AsWrittenRefusesTestConfig | pages.go:85-91 | The home/detail site is well formed and accepted by the corrected check, and refused as written. |
| LegacyPages.RepeatedURLAccepted | pages.go:49 | Two pages with the same URL pass the page loop of the older validator (with the corrected final loop). |
| LegacyPages.ValidatePages | pages.go:42-82 | The in-place older page loop yields the registers and error of the page-loop function. |
| LegacyPages.ValidateConfig | pages.go:30-94 | Accepts iff the corrected check holds. An empty template fails first, then fewer than two pages, and a page-loop error is returned as is. When the checks up to the final loop pass but the site is not accepted, the error is an unresolved target. Any unresolved target reported is a registered target that no page has. |
| ServerSetup.Pather | server.go:77-79 | A mount path starts and ends with '/' and has no other '/'. |
| ServerSetup.PatherOfName | server.go:77-79 | A directory name without '/' is mounted at "/" + name + "/". |
| ServerSetup.MountPaths | server.go:80-82 | The mount paths are "/images/", "/static/" and "/templates/". |
| ServerSetup.Missing | server.go:98-104 | The missing candidates are no more than the candidates. |
| ServerSetup.MissingMembers | server.go:98-104 | A URL is an index page iff it is a candidate that is not registered. |
| ServerSetup.IndexPagesCases | server.go:98-104 | The index pages for each of the four combinations of "/index" and "/" being registered, in order. |
| ServerSetup.NewServer | server.go:48-107 | An invalid address fails first, then an invalid port, then fewer than two pages. A built server has the fixed mount paths, the address and port, the web address address + ":" + port, the pages, and the unregistered index candidates. |
| ServerSetup.IndexPagesOfAcceptedSite | server.go:99-103 | On an accepted site, u is an index page iff u is "/index" or "/" and no page has URL u. |
| DevMode.DevTableRegistered | app.go:192-201 | The development commands register without error into the four-entry table. |
| DevMode.Route | app.go:192-201 | The next command starts the server iff the message is CONFIG_LOAD_OK, reloads the configuration iff it is FILE_UPDATED, and waits for a file change otherwise. |
| DevMode.UpdateIsRoute | app.go:192-201 | An event loop whose table is the development table and whose default is the file wait decides by Route. |
| DevMode.NewDevLoop | app.go:192-201 | The event loop built from the development commands has the development table, starts with the configuration load, and defaults to the file wait. |
| DevMode.StartFollowsLoad | app.go:192-201 | In any run, the server is started only right after a configuration load that returned CONFIG_LOAD_OK. |
| DevMode.LoadFollowsUpdate | app.go:192-201 | In any run, after the first step the configuration is loaded only right after a file wait that returned FILE_UPDATED. |
| DevMode.WaitAfterFailure | app.go:192-201 | After a FILE_WAIT the loop always waits for a file change. |
| DevMode.NoLoadFailedMessage | app.go:106-185 | No command ever returns CONFIG_LOAD_FAILED. |
| DevMode.Controller.constructor | app.go:99-101 | The controller starts with no configuration, no server, and the template directory "assets/templates". |
| DevMode.Controller.LoadConfig | app.go:106-123 | The result is CONFIG_LOAD_OK iff the file was read, parsed and accepted; otherwise it is FILE_WAIT and the configuration and template directory are unchanged. On success the validated configuration is kept and the template directory is Join(assetsDir, "templates"). |
| DevMode.Controller.StartServer | app.go:126-153 | A running server is shut down first. The new server replaces it, and a failed build leaves none. The result is SERVER_STARTED iff the address, port and page count are valid, and FILE_WAIT otherwise. |
| DevMode.WatchDescriptors | app.go:157-162 | The file wait watches the configuration file's directory for its extension and the template directory for the template suffixes. |
| DevMode.ConfigFileSelected | app.go:157-162 | When the configuration file has an extension and is not hidden, its own base name passes the matcher the file wait builds for its directory. So writes to it are noticed. |
| DevMode.CanWatchIffBuilds | app.go:157-165 | The file wait's notifier is built exactly when the watcher starts and both watched directories exist, are directories, can be added and differ. |
| DevMode.Answer | app.go:106-185 | Each command's answer is a message that command can return. |
| DevMode.DevSessionAnswers | app.go:192-226 | A session that has not ended, given a step whose command is answered, extends by that command, its message, and the template directory the step leaves. Its next command is the route of the message. |
| DevMode.DevSessionEnds | app.go:156-226 | A session that has not ended stops at a file wait whose notifier cannot be built. That wait is its last command and has no message, whatever the world does afterwards. |
| DevMode.DevSessionFatalPrefix | app.go:163-165 | A session that ended stays ended on any longer world. |
| DevMode.DevSessionShape | app.go:192-226 | A session runs one command per step of the world. It stops early only on a fatal file wait, which is then its last command and has no message. |
| DevMode.DevSessionNext | app.go:120-201 | While the session goes on, its next command is the route of its last message, and its template directory is the one its last step left. |
| DevMode.DevSessionFollows | app.go:192-201 | A session follows the routing table: configuration load first, then the route of each message, and each message is one its command can return. |
| DevMode.DevSessionAnswered | app.go:106-185 | Every message of a session is its command's answer to that step's world. |
| DevMode.DevSessionDirs | app.go:101-120 | The template directory starts at the initial one, and each step sees the directory the step before it left (moved only by a successful load). |
| DevMode.DevSessionWaits | app.go:157-165 | A file wait of a session is answered exactly when its notifier could be built for that step's template directory. |
| DevMode.DevSessionIsRun | app.go:192-226 | Every session is a run: it follows the table, answers each step, tracks the template directory, and a file wait is answered exactly when its notifier could be built. |
| DevMode.RecoversFromFailedLoad | app.go:106-201 | A run whose first load fails and whose third step loads a good configuration goes: load, file wait, load, server start, file wait, then load again after the next update. |
| DevMode.Controller.FileWaitForUpdate | app.go:156-185 | A notifier that cannot be built is fatal. Otherwise a watch error gives FILE_WAIT, a closed update stream "", and an update FILE_UPDATED. |
| DevMode.Controller.Step | app.go:106-185 | One step runs the given command against the world. It returns no message exactly when a file wait cannot build its notifier. Otherwise the message is the command's answer, and the template directory moves only on a successful load. After CONFIG_LOAD_OK a validated configuration is loaded, and only the load changes it. |
| DevMode.Controller.ServeInDevelopment | app.go:97-226 | The commands run, the messages returned and whether a file wait ended the process are exactly those of the development session over the world's answers. If the run did not end early, the template directory is the one the session leaves. |
| DevMode.App.constructor | app.go:28-33 | A new App is not interactive. |
| DevMode.App.Interactive | app.go:36-38 | Interactive flips the flag. |
| DevMode.App.Serve | app.go:41-61 | The first failure is returned, in order: read, parse, validation (with the validator's error), server construction (invalid address, then port), serving. The result is no error iff every step passes. |

## Left out

- Goroutines, channels, the errgroup and WaitGroup, the flush ticker and its `Reset`, context cancellation, `EventLoop.Stop`, the stopper channel and the SIGINT handler. Each loop is modelled over the sequence of inputs it receives; which goroutine runs first is not modelled.
- EventLoop.EventLoop.Run: a received message stands for the channel value; the end of the sequence stands for the channel being closed by `Stop`.
- The fsnotify library, `os.Stat` and `filepath.Clean` are answered by a `FileNotify.Host`. The watcher's `Errors` channel and the closing of its channels (fsnotify.go:104-116) are not modelled. `errRecorder` is not defined in fsnotify.go; the model records the error in the notifier's `err` field.
- Regular-expression matching: each directory's matcher is a predicate on base names.
- SuffixRule: app.go and filewatcher_test.go build descriptors from suffix lists, and the test calls `Watch`, `Update` and a `flushDuration` field. fsnotify.go has none of these, and the suffix-list matcher's implementation is not part of this model. `SuffixRule` rebuilds the rule from the expectations written beside the test's file names.
- Paths: `Dir`, `Base`, `Ext` and `Join` split on '/' only and do no cleaning of "//", "." or "..".
- YAML unmarshalling, template parsing, and the directory and file-system checks before the page count in config.go (config.go:74-112). `SiteConfig.Config.ValidateConfig` starts at the page-count check.
- SiteConfig.Config.ValidateConfig: Go map order decides which unresolved target is reported. The model picks any one, and the contract says only that the one reported is unresolved and gives its context.
- `WriteAssets`, the HTTP handlers, routing and `page.endpoint`: these are I/O.
- `App.Demo` and `App.Init` (app.go:64-91): they differ from `Serve` only in using the embedded configuration or the write function, which are I/O.
- Console and log output, the interactive messages, and the text of every error message.
- DevMode.Controller.StartServer: requires a loaded configuration. With a nil `cfg` and a valid address, `newServer` would dereference a nil pointer. `ServeInDevelopment` never calls it without one.
- DevMode.Controller.StartServer: the goroutine running `serveFunc` and its fatal exit on an unexpected server error (app.go:140-150) are not modelled; `srv.webServer.Shutdown` is recorded in `shutdowns`.
- DevMode.Controller.ServeInDevelopment: the `log.Fatalf` on a failed `NewEventLoop` is not modelled as a branch, because `DevMode.DevTableRegistered` proves registration succeeds.
- DevMode.LoadedConfig: app.go reads `cfg.AssetsDir`, and server.go `cfg.AssetsFS`. The `config` struct of config.go has neither field, so the model carries the assets directory beside the validated configuration.
- Site.PageZone.Width: Go's 64-bit `int` subtraction may wrap around; coordinates here are unbounded integers (Site.PageZone.Height likewise).
- The CLI surface (cli.go, flags.go, main.go), the demo `main` of fsnotify.go, and main_test.go.

## Findings

| source | as written | input that shows it | evidently intended | confidence | as-written member | corrected member |
|---|---|---|---|---|---|---|
| pages.go:85-91 | The final loop looks up each zone's context string `v` ("page i zone j") among the page URLs, instead of its target `k`. | The two-page site /home ↔ /detail: every context starts with "page", no URL does, so the valid site is refused. | Look up the target `k`, as the loop's comment and its error message say. | not executed | LegacyPages.AsWrittenRefusesTestConfig | LegacyPages.AcceptsIffWellFormed |
| fsnotify.go:128-132 | After recording "could not find matcher" the reader does not return, and calls `MatchString` on the nil matcher. | A write to /site/other/page.html with only /site/templates registered. | Return after recording the error, as every other `errRecorder` call in that goroutine does. | not executed | FileNotify.AsWrittenPanicExample | FileNotify.FileChangeNotifier.ReadEvents |
