# Verification of the LED-panel daemon

The daemon drives one or two 9x34 LED modules over serial ports, keeps a revisioned configuration
with short-lived previews, gathers metadata about assistant sessions, and sends a snapshot a second to
local clients. This project states in Dafny what each of these parts keeps, over every input and every
run, and proves it. `dafny verify dfyconfig.toml` checks everything.

| file | what it is about |
|---|---|
| `Basics`, `Json`, `JsonReading` | shared types; the JSON text that is written, escapes as in section 7 of RFC 8259; why it can be read back |
| `Protocol`, `Firmware` | the serial byte language, and an automaton of the module that reads it byte by byte |
| `Panel`, `PanelDevice`, `PanelFlags`, `PanelSleep`, `PanelRuns` | one panel: the stages of a routing job and of an identification as functions; the class that carries them out on a port; the quarantine flag; what closing leaves; whole jobs and the keepalive |
| `Driver`, `DriverSafety`, `JobStages` | routing rounds, jobs, identifications and the shutdown poll in any interleaving: cache coherence, sleep and quarantine; jobs as whole pieces of work |
| `Shutdown`, `Threats` | what the shutdown poll's report is worth, and exactly when |
| `Routing` | which panel is shown on which port |
| `Layout`, `PocRenderer`, `RenderLaws` | the daemon's renderer, the proof of concept's, and what relates them |
| `Assistant`, `Feeds`, `ClaudeFeed`, `OpencodeFeed` | feeds: acceptance, scan, selection, and the two producers |
| `Configuration`, `ConfigFile`, `FileReading`, `Store`, `StoreRuns` | validation, the file, the store, and the store over runs with crashes |
| `Snapshot`, `MessageReading`, `ShownFrames`, `Delivery` | the clock loop's message, what is on the panels end to end, and the client's check |
| `Endpoint`, `Backoff`, `Flow` | socket ownership, the supervised child, one frame in flight |

How the outside world enters. A write on a port delivers all of its bytes, or any prefix and an error
(`Delivery`); everything that reached the module on one opening of the port is kept in a ghost log. An
opened port may be refused, busy, or answer with any version bytes. Times are integers in milliseconds
or reals. A save replaces the whole file or fails. Clocks, schedulers, kernels and other processes are
arguments or steps, chosen freely. Work a task does under a panel's lock between two accesses to shared
state is one step; every access to the stop flag, the job set, the registry and the locks is its own.
The module's behaviour (sleep, wake, the first command lost on waking, the idle timer) follows
`poc/README.md`. Strings that are measured are sequences of bytes, one character a byte of UTF-8.
Arithmetic on readings is over the reals. A listening local socket never refuses a connection; a dead
one, or one bound but not yet listening, does.

Results that differ from the documentation or from what one might expect:

* `docs/INTEGRATIONS.md:94-95` says that an ended session stays hidden until the next `SessionStart`.
  In the code any later hook of the session other than `SessionEnd` shows it again
  (`ClaudeFeed.EndedSessionRevives`).
* A greyscale frame written to a sleeping module is shown completely only if its first column was staged
  already (`Firmware.GreyscaleShownIff`); this is why the driver wakes a module and waits first.
* The comments in `audio.py` say that the delay lengthens on repeated failure. It does for children that
  start and die. Once spawning itself fails half a minute after the last good start, each failure starts
  the delays over and an attempt is made every second (`Backoff.ShortestDelayIff`,
  `Backoff.FailedSpawnsNeverBackOff`).
* A write cut while a port is being opened does not start the quarantine: the port is opened again
  after five seconds (`DriverSafety.CutWhileOpeningIsRetried`).
* An identification under way during the shutdown may still write after the poll reported complete
  (`Threats.IdentificationMayWriteAfterShutdown`). `Threats.StopSafetyExactly` says which ones do, so
  the report can be relied on exactly when none of these is in flight.

## Model

| member | source | states |
|---|---|---|
| Protocol.Greyscale | crates/matrix-core/src/protocol.rs:20-34 | the nested loops give, for exactly the valid frames, the encodings of nine staged columns in order and one flush |
| Protocol.Bw | crates/matrix-core/src/protocol.rs:8-19 | for exactly the valid frames, the encoding of a bitmap whose bit i is pixel i being lit |
| Protocol.SetBitSetsOne | crates/matrix-core/src/protocol.rs:13-17 | or-ing in `1 << k` sets bit k and changes no other bit |
| Protocol.EncodeIsComplete | crates/matrix-core/src/protocol.rs:3-7 | an encoded command is one whole command and decodes to itself |
| Protocol.PendingIffCutCommand | crates/matrix-core/src/protocol.rs:3-7 | bytes count as a command begun but not finished exactly when they are a proper prefix of some command's encoding |
| Protocol.ParseEncodeAll | crates/matrix-core/src/protocol.rs:3-34 | any concatenation of whole commands, with a cut one behind it, parses back to that command list and that cut |
| Protocol.ParseIsExact | crates/matrix-core/src/protocol.rs:3-34 | parsing any log loses nothing: encoding the commands and appending the rest gives the log |
| Protocol.PrefixHasOneCut | crates/matrix-daemon/src/devices.rs:306-310 | however many bytes of a command list arrive, they are whole commands and at most one cut one |
| Firmware.FeedCommand | crates/matrix-core/src/protocol.rs:3-7 | from a command boundary, reading an encoding byte by byte has exactly the command's effect and ends at a boundary |
| Firmware.FeedAll | crates/matrix-core/src/protocol.rs:3-34 | byte by byte and command by command agree on every command list |
| Firmware.FeedFollowsParse | crates/matrix-core/src/protocol.rs:3-34 | on any log of whole commands and at most one cut one, the automaton has executed exactly the parsed commands and buffers exactly the cut one |
| Firmware.GreyscaleShownIff | crates/matrix-core/src/protocol.rs:20-34 | from any boundary, the bytes of a greyscale frame show exactly that frame if and only if the module was awake or had its first column staged already |
| Firmware.BwShowsNonzeroPixels | crates/matrix-core/src/protocol.rs:8-19 | an awake module shows full light exactly on the pixels that are not dark |
| PanelDevice.WriteCommands | crates/matrix-daemon/src/devices.rs:306-310 | commands written one by one until the first error put exactly a prefix of their joint encoding into the log, and report an error exactly if it was cut |
| PanelDevice.PanelDevice.Failed | crates/matrix-daemon/src/devices.rs:341-352 | a failure quarantines exactly if a port was stored, forgets port and frame, and sets the retry time |
| PanelDevice.PanelDevice.Sleep | crates/matrix-daemon/src/devices.rs:353-367 | the sleep command's outcome decides between confirmed off and quarantine; port, frame and level are forgotten; what the module does then is DriverSafety.ClosedIsAsleep |
| PanelDevice.PanelDevice.Open | crates/matrix-daemon/src/devices.rs:368-406 | an open port is kept; otherwise wake, version query and version check decide, and only a good answer stores the port |
| PanelDevice.PanelDevice.Paint | crates/matrix-daemon/src/devices.rs:303-321 | a new frame or level is painted level first; an equal one is refreshed after 25 s; otherwise nothing is written |
| PanelDevice.PanelDevice.RunJob | crates/matrix-daemon/src/devices.rs:286-331 | the routing job does what the composed stages say, for every outcome of every write and every value of the stop flag at each look |
| PanelDevice.PanelDevice.IdentifyOn | crates/matrix-daemon/src/devices.rs:528-566 | level and border pattern if still wanted, then the latest frame, and nothing behind a failed write |
| PanelDevice.PanelDevice.RunIdentify | crates/matrix-daemon/src/devices.rs:172-244 | the identification does what the composed stages say, for every outcome |
| PanelRuns.RouteJobIsSound | crates/matrix-daemon/src/devices.rs:286-331 | a job leaves a panel whose cache is right about the module, whatever its writes met |
| PanelRuns.LitJobShows | crates/matrix-daemon/src/devices.rs:290-323 | after an undisturbed lit job the module is awake and shows the wanted frame at the wanted level, whatever was cached before |
| PanelRuns.OpensIff | crates/matrix-daemon/src/devices.rs:368-406 | a closed port is opened exactly if it is free, takes wake and query, and answers with two decimal bytes and a third; the connection holds exactly those two commands |
| PanelRuns.SettledJobIsSilent | crates/matrix-daemon/src/devices.rs:303-321 | a job that finds frame and level as wanted, less than 25 s after the last write, changes nothing |
| PanelRuns.UnlitJobSleeps | crates/matrix-daemon/src/devices.rs:290-299 | after an undisturbed job for a panel switched off, the module is asleep, whatever it showed, the port is closed and the panel confirmed off |
| PanelRuns.OffStaysOff | crates/matrix-daemon/src/devices.rs:290-293 | a panel confirmed off is not opened again to be switched off: whatever happens, no connection is added |
| PanelRuns.FailedOpenWaits | crates/matrix-daemon/src/devices.rs:338-352 | behind a failed attempt to open its port a panel is ready again after exactly 5000 ms |
| PanelRuns.NotReadyIsLeftAlone | crates/matrix-daemon/src/devices.rs:286-289 | a panel that is not ready is left exactly as it is, by jobs and identifications alike |
| PanelRuns.FlashShowsBorder | crates/matrix-daemon/src/devices.rs:528-566 | the flash lights exactly the border pixels, at the flash level |
| PanelRuns.IdentificationRestores | crates/matrix-daemon/src/devices.rs:172-244 | after an undisturbed identification the module shows the latest frame at the applied level or, without one, is asleep behind a closed port |
| PanelRuns.NeverIdleForAMinute | crates/matrix-daemon/src/devices.rs:303-321 | on a lit healthy panel the module never goes 60 s without a command, if at most 35 s, less the lag in storing the time of a write, pass from one job's look at the last write to the end of the next job, with identifications shorter than a minute in between |
| Driver.StepKeeps | crates/matrix-daemon/src/devices.rs:131-332 | every step of every task keeps the driver's invariant: locks, job set and registry fit the tasks, and every panel is what its holder, or the next one, relies on |
| DriverSafety.OneWriterPerPanel | crates/matrix-daemon/src/devices.rs:279-286 | after any interleaving no two tasks hold the same panel, and no two routing jobs are at work on the same port |
| DriverSafety.AtMostTwoPanels | crates/matrix-daemon/src/devices.rs:131-160 | after any interleaving at most two panels are retained, whatever ports came and went |
| DriverSafety.LookupFinds | crates/matrix-daemon/src/devices.rs:131-160 | a lookup finds the port's panel if it is on the bus or in use; otherwise, if there is room, a new one that is closed and ready at once, so replugging ends a quarantine |
| DriverSafety.LookupKeepsUsed | crates/matrix-daemon/src/devices.rs:131-160 | of the other ports a lookup keeps exactly those on the bus or in use |
| DriverSafety.CacheCoherence | crates/matrix-daemon/src/devices.rs:290-330 | after any interleaving, a free open panel that remembers a frame also remembers a level, and the module is awake and shows exactly that frame at that level, so skipping an equal repaint is right |
| DriverSafety.LogsAreWholeCommandsAndOneCut | crates/matrix-daemon/src/devices.rs:341-367 | after any interleaving, each connection's log is whole commands and at most one cut command, and none is cut unless an error was reported |
| DriverSafety.FlaggedIffStoredPortFailed | crates/matrix-daemon/src/devices.rs:341-367 | after any interleaving a panel is flagged for replugging exactly if a connection the driver had stored met an error |
| DriverSafety.ClosedIsAsleep | crates/matrix-daemon/src/devices.rs:353-367 | after any interleaving, a module behind a stored connection that was closed and met no error is at a command boundary and asleep, whatever it showed before |
| DriverSafety.ConfirmedOffIsClosed | crates/matrix-daemon/src/devices.rs:353-367 | after any interleaving, a panel confirmed off is closed, behind a stored connection that met no error and with none stored since |
| DriverSafety.EvictionSleeps | crates/matrix-daemon/src/devices.rs:252-265 | a free panel no longer routed is put to sleep, closed and forgotten, except that a flagged one stays while on the bus; one at work is left alone |
| JobStages.JobsAreOnePiece | crates/matrix-daemon/src/devices.rs:286-331 | whatever runs in between, a routing job changes its panel, from taking the lock to giving it back, exactly as one whole routing job does |
| JobStages.IdentificationsAreOnePiece | crates/matrix-daemon/src/devices.rs:172-244 | whatever runs in between, an identification changes its panel exactly as one whole identification does |
| DriverSafety.Quarantine | crates/matrix-daemon/src/devices.rs:246-265 | whatever happened before, once the stored connection of a tracked port's panel met an error, then as long as the port stays on the bus, routed or not, no interleaving writes a byte on any panel object of the port, and no new one appears |
| DriverSafety.TrackedWhileRouted | crates/matrix-daemon/src/devices.rs:131-160 | a port is tracked at the start and whenever no task refers to a panel of it and no routing round is under way, so also when a module is plugged in or bound later, and stays so while it is routed and on the bus |
| DriverSafety.CutWhileOpeningIsRetried | crates/matrix-daemon/src/devices.rs:393-400 | a wake command cut during opening leaves the panel ready after the retry delay, and the next attempt writes again |
| Shutdown.StopSafety | crates/matrix-daemon/src/devices.rs:439-464 | whatever ran before: once the poll reported complete and no identification in flight may still write, all registered ports are closed, every module whose stored connection met no error is asleep, no job is past its checks, and no later interleaving writes a byte on any panel |
| Threats.StopSafetyExactly | crates/matrix-daemon/src/devices.rs:161-177 | once the poll reported complete, some later run without new identifications writes if and only if an identification in flight has still to look its panel up, has found or locked one that is not quarantined, or is past its checks with a port open or to be opened |
| Threats.IdentificationMayWriteAfterShutdown | crates/matrix-daemon/src/devices.rs:161-177 | there is a run in which the poll reports complete and an identification asked for before writes afterwards |
| Routing.ResolveExact | crates/matrix-daemon/src/devices.rs:473-486 | there is a route exactly for each panel bound to a location where one device stands and no second one, to that device's port |
| Routing.RoutesAreDistinct | crates/matrix-daemon/src/devices.rs:473-486 | with distinct names and locations no two routes share a panel name or a port |
| Routing.PortShowsItsPanel | crates/matrix-daemon/src/devices.rs:487-513 | under a valid configuration the port of a device alone at a panel's location is given that panel's frame and level |
| Layout.StampNumber | crates/matrix-core/src/layout.rs:176-191 | the glyph loops draw two digits, or the overflow sign, and touch no other pixel |
| Layout.FillGauge | crates/matrix-core/src/layout.rs:250-261 | the gauge loops give every pixel of the rectangle its row's level, mirrored if reversed, and touch no other |
| Layout.RenderPanel | crates/matrix-core/src/layout.rs:192-264 | the slot loop, total for any panel, draws slot after slot |
| PocRenderer.DrawBar | poc/matrixd/render.py:155-194 | the loops draw full rows from the foot, then one dimmer tip row, and nothing above |
| PocRenderer.DrawTwoDigits | poc/matrixd/render.py:134-152 | the loops stamp two digits or the overflow glyphs |
| PocRenderer.RenderMachine | poc/matrixd/render.py:221-231 | clock, then battery bar, on a dark panel |
| PocRenderer.RenderClaude | poc/matrixd/render.py:276-321 | both bars if known, then the context number if known |
| RenderLaws.LevelsAgree | crates/matrix-core/src/layout.rs:250-252 | clamping row by row gives the level that full rows and a tip give, at every row and for every reading |
| RenderLaws.MachinePanelsAgree | poc/matrixd/render.py:221-231 | the default left panel equals the proof of concept's machine panel pixel for pixel, for every time and battery value, absent included |
| RenderLaws.ClaudePanelsAgree | poc/matrixd/render.py:276-321 | the default right panel equals the proof of concept's Claude panel pixel for pixel, for every given context or else the selected session's, its busy flag and the quotas, absent included, although drawn in another order |
| Layout.DrawClock | crates/matrix-core/src/lib.rs:47-68 | a frame exactly for a time of day, with both numbers drawn |
| RenderLaws.PlainClockIsLeftPanel | crates/matrix-core/src/layout.rs:285-295 | without a battery reading the default left panel equals the plain clock, for every time |
| RenderLaws.ValueOfFollowed | crates/matrix-core/src/layout.rs:158-174 | a widget shows a given finite reading, otherwise the context percentage of the session it follows, or 100 or 0 by its busy flag; the session it follows is the last eligible one no other exceeds |
| RenderLaws.ValueOfUnfollowed | crates/matrix-core/src/layout.rs:158-174 | if no session is eligible, only a given finite reading is shown |
| RenderLaws.ValueOfReading | crates/matrix-core/src/layout.rs:158-174 | battery and quotas are shown exactly if given and finite; the time is no reading |
| RenderLaws.LevelOfWidget | crates/matrix-core/src/layout.rs:202-239 | full light exactly for the context of a busy session or a threshold reached, by the battery from above and by all others from below; otherwise the widget's own level or 180 |
| RenderLaws.HiddenZeroIsDark | crates/matrix-core/src/layout.rs:212-223 | hiding the leading zero darkens the hour's tens digit before ten o'clock and changes no other pixel of the panel, at no other hour |
| RenderLaws.NumberOnPanel | crates/matrix-core/src/layout.rs:240-243 | above the gauges, the panel shows exactly the digits of the truncated value, at its level |
| RenderLaws.GaugeOnPanel | crates/matrix-core/src/layout.rs:244-261 | on the rendered panel every column of a gauge holds exactly the light of its value at its level |
| RenderLaws.FullGaugeIsWhole | crates/matrix-core/src/layout.rs:244-249 | a full gauge does so in columns 3 to 5 over all 34 rows |
| RenderLaws.GaugeColumnSum | crates/matrix-core/src/layout.rs:250-261 | the pixels of every column of a drawn gauge, upright or reversed, add up to exactly floor(intensity * rows * clamp(value / 100)) |
| RenderLaws.ReversedIsMirrored | crates/matrix-core/src/layout.rs:253-257 | the reversed gauge is the upright one upside down |
| RenderLaws.GaugeGrowsWithReading | crates/matrix-core/src/layout.rs:227-261 | except for the battery, a larger reading lights every pixel at least as much, across the warning threshold too |
| RenderLaws.OrderDoesNotMatter | crates/matrix-core/src/layout.rs:198-262 | for any panel, valid or not, drawing the slots in any order gives the rendered frame |
| RenderLaws.SlotsDoNotInterfere | crates/matrix-core/src/layout.rs:198-262 | changing one slot or what it reads changes no pixel outside its rectangle |
| Assistant.NormalizeFeed | crates/matrix-core/src/assistant.rs:87-122 | a feed is refused for its header, its age or any bad session, in that order, and otherwise gives its main sessions' records |
| Assistant.NormalizeExact | crates/matrix-core/src/assistant.rs:87-108 | invalid exactly without its header, at most five seconds ahead; stale exactly from 60 s after its heartbeat; invalid then exactly for a bad session; accepted otherwise |
| Assistant.MainRecordsExact | crates/matrix-core/src/assistant.rs:104-121 | the records are those that mirror, field by field, a session without a parent, no more and no less |
| Assistant.SelectedIsGreatest | crates/matrix-core/src/assistant.rs:69-85 | selection returns an eligible record that no eligible one exceeds in activity, then ids, and nothing only if none is eligible |
| Assistant.SelectedIsLastGreatest | crates/matrix-core/src/assistant.rs:69-85 | the session selected is the one at the place no earlier eligible one exceeds and no later one reaches |
| Assistant.LastGreatestExists | crates/matrix-core/src/assistant.rs:69-85 | there is such a place if any session is eligible |
| Feeds.ScanProvider | crates/matrix-daemon/src/feeds.rs:34-105 | the loops over files and sessions compute the collected records sorted, deduplicated, sorted and cut, and the status |
| Feeds.RawExact | crates/matrix-daemon/src/feeds.rs:44-81 | the collected records are exactly the main records of the first sixteen files that parse, bear their own name and are accepted now |
| Feeds.FewFilesAreAllRead | crates/matrix-daemon/src/feeds.rs:44-81 | of at most sixteen files, listed in any order, the collected records are exactly what some file offers |
| Feeds.ManyFilesAreLimited | crates/matrix-daemon/src/feeds.rs:45-55 | of more, exactly sixteen of the first seventeen listed are read, the one left out has the last name, and the status is "error_or_limited" |
| Feeds.StatusExact | crates/matrix-daemon/src/feeds.rs:41-96 | "error_or_limited" exactly for an unreadable directory, more than sixteen files or a bad one; else "live" for an accepted file, else "stale" for an expired one, else "missing" |
| Feeds.DedupeKeepsFirst | crates/matrix-daemon/src/feeds.rs:98-99 | retaining unseen ids keeps exactly the first record of each id |
| Feeds.PublishedContract | crates/matrix-daemon/src/feeds.rs:97-102 | at most 32 records with distinct ids, most active first, each the freshest of its id; a freshest record left out is no more active than any that is in |
| Feeds.UnpinnedFollowsActivity | crates/matrix-core/src/assistant.rs:69-85 | without a pin the selected session is as active as any freshest record, published or not, and none is selected only if there is none |
| Feeds.PinNeverFallsBack | crates/matrix-core/src/assistant.rs:69-85 | a pin yields the freshest record of exactly its id or nothing |
| ClaudeFeed.UpdateExtends | crates/matrix-claude/src/lib.rs:134-195 | an update is skipped exactly for an older event or a status line behind an end, and otherwise takes the closed form of the events one event further |
| ClaudeFeed.FeedIsClosedForm | crates/matrix-claude/src/lib.rs:102-200 | however many helpers race, wait, give up or crash, the file is the closed form of the events committed in lock order, whose times never go back |
| ClaudeFeed.OnlyMainSessionDrives | crates/matrix-claude/src/lib.rs:67-95 | after any run, every committed event was an input of the main session itself, within bounds and of no child agent, and is of the kind that input names; a status line's percentage is the nearest whole one |
| ClaudeFeed.EventIffKnown | crates/matrix-claude/src/lib.rs:67-95 | an input of the session is an event exactly if it is of the main session, within bounds, and a status line or a hook of one of the five names |
| ClaudeFeed.FeedByName | crates/matrix-claude/src/lib.rs:163-200 | after any run: no session exactly if the last committed input was named "SessionEnd"; otherwise one, busy exactly if the last hook was named "UserPromptSubmit", active when the last hook was, with the context of the last status line unless the session started or ended since |
| ClaudeFeed.EndedSessionRevives | crates/matrix-claude/src/lib.rs:148-184 | an ended session is shown again exactly by a committed hook other than an end |
| ClaudeFeed.ForeignFileStays | crates/matrix-claude/src/lib.rs:113-147 | a file that is not the session's own snapshot is never replaced |
| ClaudeFeed.ReaderAcceptsForAMinute | crates/matrix-core/src/assistant.rs:87-122 | every file the helpers leave is accepted from its heartbeat for exactly sixty seconds, as one record or none, and is stale from then on |
| OpencodeFeed.Latest | integrations/opencode/producer.js:28-30 | the newest plausible time offered, or zero; never more than five seconds ahead |
| OpencodeFeed.ContextPercent | integrations/opencode/producer.js:17-26 | a percentage exactly for finite non-negative counts, a finite positive limit and a share below 1000.5 %, and then the nearest whole one |
| OpencodeFeed.SnapshotExact | integrations/opencode/producer.js:84-108 | a snapshot holds at most sixteen sessions, most active first, each what the sweep says of a wanted candidate; another one's is left out only behind sixteen at least as active |
| OpencodeFeed.ReaderAcceptsForAMinute | integrations/opencode/producer.js:85-108 | every snapshot of the producer, whatever the SDK answered, is accepted whole for exactly sixty seconds and is stale from then on |
| Configuration.Validate | crates/matrix-core/src/config.rs:30-106 | the loops with their name and location sets report exactly the wrong fields, and none exactly for a valid configuration |
| Configuration.ValidIffNothingWrong | crates/matrix-core/src/config.rs:30-106 | no field is wrong exactly if the whole is valid: distinct names of 1 to 32 bytes, distinct locations, slots that fit their template, sane levels |
| Configuration.DefaultIsValid | crates/matrix-core/src/config.rs:14-23 | the configuration a first start uses is valid |
| ConfigFile.ValidFileFits | crates/matrix-daemon/src/config.rs:38-43 | the pretty-printed document of any valid configuration is within the 32768 bytes a start accepts |
| FileReading.FileTextIsInjective | crates/matrix-daemon/src/config.rs:178-198 | whatever their configurations, two documents whose files have the same text are the same |
| Store.LoadReadsWritten | crates/matrix-daemon/src/config.rs:35-70 | loading what a save left gives the saved document |
| Store.LoadExact | crates/matrix-daemon/src/config.rs:41-70 | no file loads as the defaults; a file loads exactly if it is within 32768 bytes, well-formed, of schema 1 or 2 and valid as schema 2, and then with its own revision, clock intensity, brightness and panels |
| Store.ConfigStore.LoadFrom | crates/matrix-daemon/src/config.rs:35-70 | a store comes up exactly if the file loads, with the document that Store.LoadExact describes, no preview and no generation given; the file is never written |
| Store.ConfigStore.OutputAt | crates/matrix-daemon/src/config.rs:82-90 | the live lease's configuration, otherwise the applied one; a lease that ran out is dropped |
| Store.ConfigStore.BeginPreview | crates/matrix-daemon/src/config.rs:91-123 | refused if malformed, busy or out of generations; otherwise a new generation for the requested seconds |
| Store.ConfigStore.CancelPreview | crates/matrix-daemon/src/config.rs:129-138 | ends the lease exactly for its owner and, if given, its generation |
| Store.ConfigStore.ApplyConfig | crates/matrix-daemon/src/config.rs:151-177 | file and store change together and exactly on an Applied reply; every other reply changes neither |
| StoreRuns.DurableHistory | crates/matrix-daemon/src/config.rs:151-198 | after any run with crashes anywhere, loading gives the newest document, which a running store also holds between calls; every document replaced exactly the revision its client expected with the next; replies are missing for no more saves than crashes, plus the one in progress |
| StoreRuns.NoAppliedRevisionIsLost | crates/matrix-daemon/src/config.rs:151-198 | once a client was told Applied, every later load gives that document or one of a higher revision |
| StoreRuns.ApplyExact | crates/matrix-daemon/src/config.rs:151-177 | after any run, a valid configuration applied with the newest revision, saved and undisturbed, becomes the newest document of the next revision; a failed save changes nothing; any other apply changes nothing and is told why |
| StoreRuns.RefusedFileStays | crates/matrix-daemon/src/config.rs:35-70 | a file that does not load is never touched |
| StoreRuns.OutputIsLiveLeaseOrLatest | crates/matrix-daemon/src/config.rs:74-138 | after any run what is shown is the newest preview while neither ended nor run out, at most 15 s after it began, otherwise the newest document; previews never overlap and at most one session owns one |
| StoreRuns.PreviewBeginsIff | crates/matrix-daemon/src/config.rs:91-123 | after any run, a preview begins exactly if it is well-formed, none is on and a generation is left, and is then shown at once; otherwise nothing changes |
| StoreRuns.LeavingEndsOnlyOwnPreview | crates/matrix-daemon/src/lib.rs:305-316 | a session that ends takes no other session's preview away, even under the same owner name |
| StoreRuns.OutputIsValid | crates/matrix-daemon/src/main.rs:67-72 | whatever clients, files and crashes do, only valid configurations are shown |
| Snapshot.ClockLoop.Tick | crates/matrix-daemon/src/main.rs:53-102 | the sequence number wraps at 32 bits; the snapshot holds each panel's frame, level, name and location |
| ShownFrames.DefaultSnapshotIsPoc | crates/matrix-daemon/src/main.rs:78-99 | a snapshot of the default configuration shows the proof of concept's panels for this hour, this minute, this battery and the session selected for Claude |
| ShownFrames.PanelsAsConfigured | crates/matrix-daemon/src/main.rs:86-99 | the i-th panel of a snapshot has the i-th panel's name and location and the level of its own brightness or else of the global one; switched off, it is dark |
| ShownFrames.RoutedIsSnapshot | crates/matrix-daemon/src/devices.rs:266-278 | the port at a panel's location is given the frame and the level that the snapshot has for the panel |
| Snapshot.AcceptedIffDatesHeld | crates/matrix-client/src/lib.rs:227-255 | a snapshot of a valid configuration passes `next_frame` exactly if its dates are below the client's limit, and they are if the clock is five seconds below it |
| Snapshot.EverySnapshotFits | crates/matrix-client/src/lib.rs:137-148 | its message is not empty and within 64 KiB, whatever the clock says |
| MessageReading.MessageTextIsInjective | crates/matrix-client/src/lib.rs:137-148 | two snapshots whose messages have the same text are the same |
| Snapshot.FirstSnapshotIsFine | crates/matrix-daemon/src/lib.rs:17-28 | the snapshot sent before the first turn exists for every time of day, fits and is accepted |
| Delivery.EveryTickIsDelivered | crates/matrix-daemon/src/main.rs:53-102 | from any file and after any run of clients and crashes, the next snapshot fits its message and passes the client |
| Endpoint.OneServingDaemon | crates/matrix-client/src/local/unix.rs:75-152 | after any interleaving at most one daemon serves, and the path names its own listening socket |
| Endpoint.OnlyOwnOrAbandonedIsUnlinked | crates/matrix-client/src/local/unix.rs:104-130 | a daemon's step takes away only the name of its own socket, of a dead one, or of one whose daemon crashed or gave up before it listened; never a live socket of another process |
| Endpoint.AloneItServesIff | crates/matrix-client/src/local/unix.rs:75-152 | a daemon that starts undisturbed serves on its own socket if the path was free or named an abandoned private socket; otherwise it gives up and leaves path and sockets as they were |
| Backoff.Subscriber.EnsureAlive | poc/matrixd/sources/audio.py:190-225 | at most one attempt, only without a live child and after the delay; a failure counts once |
| Backoff.Subscriber.ReadEvents | poc/matrixd/sources/audio.py:227-261 | the end of the pipe reaps the child at once and marks it dead |
| Backoff.AtMostFiveStartsInHalfAMinute | poc/matrixd/sources/audio.py:267-274 | in every run with a clock that never goes back, six starts never fall into thirty seconds |
| Backoff.ShortestDelayIff | poc/matrixd/sources/audio.py:267-274 | the next delay is the shortest exactly for a first failure or half a minute behind the last start |
| Backoff.DelaysInARow | poc/matrixd/sources/audio.py:267-274 | failures in a row wait 1, 2, 5 and 10 s, and 30 s from the fifth on; half a minute's life starts over |
| Backoff.FailedSpawnsNeverBackOff | poc/matrixd/sources/audio.py:203-217 | from a new subscriber: one good start whose child lives half a minute, then failing spawns, are tried every second for as long as they fail, with no other start |
| Flow.Acknowledgements.Replace | crates/matrix-client/src/flow.rs:12-15 | a new subscription drops the pending wait |
| Flow.Acknowledgements.Arm | crates/matrix-client/src/flow.rs:17-28 | a wait is handed out exactly for the subscription in force with nothing pending |
| Flow.Acknowledgements.Acknowledge | crates/matrix-client/src/flow.rs:30-40 | only the pending sequence of the subscription in force is released |
| Flow.OneFrameInFlight | apps/desktop/src-tauri/src/main.rs:103-172 | of all frames ever sent at most one still waits, and it is the subscription's in force |
| Flow.ReleasedByOwnAcknowledgement | crates/matrix-client/src/flow.rs:30-40 | a wait that gets released met an acknowledgement of its own subscription and sequence |
| Flow.AcknowledgementReleases | crates/matrix-client/src/flow.rs:30-40 | after any run, the acknowledgement of an open wait releases it, and any other acknowledgement changes nothing |
| Flow.ReleasedTaskGoesOn | apps/desktop/src-tauri/src/main.rs:103-172 | a task whose wait was released fetches on and, if not superseded, arms its next frame |

## Left out

- Driver.StepKeeps: the registry lock that routing and the shutdown poll hold while they go through the panels is modelled by letting no lookup or eviction happen during a poll; an eviction of one panel is one step.
- DriverSafety.Quarantine: the port has to stay on the bus from then on; a failed enumeration counts as absence. A task that looked the panel up before it was evicted, and so refers to a panel that is no longer registered, makes the port untracked. A write that fails before the port is stored starts no quarantine.
- Shutdown.StopSafety: identifications that start after the poll has reported complete are outside the claim.
- DriverSafety.CacheCoherence: the remembered `confirmed_off` is no claim about the module; a failed open may have woken it.
- PanelDevice.PanelDevice.RunIdentify: the flag by which a client withdraws its identification is an arbitrary value at its one use; which of several requests owns it is not modelled.
- Endpoint.OneServingDaemon: safety only. A daemon that crashes before it set the socket's mode leaves a file later starts refuse. Strangers listen as soon as they have bound.
- Store.LoadReadsWritten: that the parser gives back the document whose text it is given is assumed; there is only one such document (`FileReading.FileTextIsInjective`). A file is a size and the document in it, if any. No power loss: the directory is not synced by the code.
- Snapshot.EverySnapshotFits: the time stamp the date library prints is assumed to have at most 40 bytes.
- OpencodeFeed.ReaderAcceptsForAMinute: how the SDK is queried, cancelled and retried is not modelled, only what is assembled from its answers.
- Backoff.Subscriber.ReadEvents: the volume readings that events trigger are not modelled.
- Serial port, `/proc` and sysfs detail, file modes and symlink checks, Windows pipes: they only choose outcomes.
- IEEE rounding: readings are reals, or not finite.
- The firmware version text and the device list shown to users.
- Liveness: that jobs end, that shutdown completes within its five seconds, that anybody gets a turn.
- User interface, probes, power readers, quota clients, installers, shell hooks, the proof of concept's event loop, transport and pulse.
