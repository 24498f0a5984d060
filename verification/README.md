# Zygo, modelled and proved in Dafny

Zygo runs request handlers in sandboxes. This project models the parts of it whose
correctness is hardest to see from the code, and proves what they are for.

| module | models | what is proved |
|---|---|---|
| `Order`, `LayerDiff`, `LayerApply`, `LayerShape` | `derive.rs`: the diff of two file trees, written as an OCI layer | applied over the base, the layer gives the result back exactly when the diff mistook nothing for unchanged |
| `Protocol` | the warm-execution protocol, as a monitor of a run | what an accepted run is worth: one answer each, no handler before GO |
| `NodeQueue`, `NodeAgent`, `NodeRuns` | `zygo_agent.js`: the pool of one-shot workers; its queue; its runs | pool size, FIFO, one answer each exactly when every answer can be sent; what `ready` out of turn does; what crashes the agent |
| `PythonAgent`, `PythonRuns`, `PythonServe` | `zygo_agent.py`: the agent, its children, everybody's descriptors and the bytes children write; its runs; the `serve` loop | descriptor hygiene, end-of-file, the barrier, one answer each exactly when every answer can be sent, the heartbeat's period |
| `Framing` | the length-prefixed framing of both agents, and a result pipe's | chunking does not matter; what is sent is received |
| `CgroupKernel`, `CgroupSlice`, `CgroupEnsure`, `CgroupFunctions`, `Cgroups` | the cgroup v2 kernel rules; `cgroup.rs` on top of them | which found slices `ensure` repairs, with and without processes forking meanwhile; when a function can be created; what removal removes |
| `Freezer` | `kill_by_freezing` | no process left able to step |
| `Calendar` | `civil_from_unix` and `kernel_age` | the closed form is the Gregorian calendar |
| `Base64`, `ShellQuote` | `unbase64`; `sh_quote` and `ssh_args` | round trips against RFC 4648 and the POSIX shell's tokeniser |
| `ContentStore` | `blobs.rs` and `scripts.rs` | an atomic map under any interleaving of writers with distinct tokens |
| `Wrappers`, `Numbers` | | `Option`, `Max` and `Min` |

`dafny verify dfyconfig.toml` checks everything.

## How the models are built

**Steps and methods.** The agents, the content stores and the freezer are state machines:
a value holds the whole state, a function says what each event does to it, and a class
with the source's fields has a method for each handler, proved to do exactly that. What
holds over every run is then proved about the functions, and so of the methods.

**The world around the code.** Children, workers, other writers and the kernel are part
of the state. Their steps interleave freely with the code's; `Enabled`, `Arrives` and
`CanMove` say what they may do.

**Layers.** A tree maps paths to entries. The lookup in the base that follows symbolic
links is a second tree, `through`, holding what is found behind them; every theorem is
for all such trees. The layer is applied by the OCI Image Format Specification, "Image
Layer Filesystem Changeset". Names are strings of characters and none starts with `.wh.`.

**cgroups.** The kernel model has the "Top-down Constraint" and the "No Internal Process
Constraint" of the Linux cgroup v2 documentation, the second for the domain controllers
memory and io, and the rules of its section "Threads" for cpu and pids: a cgroup that holds
processes passes them on only while no child is populated, and then everything below it is
`domain invalid`, which can hold no process and pass nothing on. That no cgroup of the slice
both holds processes and delegates is proved for every controller, which the kernel alone
does not guarantee.

**Messages.** What a JSON reader makes of bytes is an arbitrary function, and so is how long
a message is as an answer and as the DONE that replaces one that is too long: the theorems
are for all of them, and their conditions are in those terms.

**Time.** A pass of the `serve` loop takes a bounded time to work; waking is when `select`
says. The bound on the heartbeat counts from the end of one round to the start of the next.

## What is assumed

- The supervisor does not reuse a request id while that request is queued or in flight,
  and sends the Node agent no EXEC after SHUTDOWN.
- Request ids and the types of messages are strings, and ids are short: what an agent builds
  of an id, its own words and the output it has kept fits in a frame.
- The error event that a write to a closed worker channel makes comes before any other event
  than messages of the same piece of input.
- A Node worker's `close` comes after its `exit`. That none says `ready` out of turn is no
  assumption on runs but the hypothesis `Orderly` of the theorems that need it.
- `fork` and `pipe` return numbers that are free.
- A result pipe that is readable can be read: a read fails only at end of file.
- A freeze is in force when its write returns; a process with SIGKILL pending takes no
  further step.
- The writers of a content store have distinct process tokens, and every digest is 64 hex
  digits; hashing is any function, injective only in `RepeatedPutIsInvisible`.

## Where the code and its documentation differ

The model follows the code.

- A symbolic link of the base that becomes a directory of the result can lose files behind
  it: `LinkBecomingDirectoryLosesFiles` names the trees, `LayerReproducesResult` the
  exact condition (`crates/zygo-core/src/derive.rs:662`).
- `_read_exactly` returns no bytes, not `None`, for a body cut short, so the Python agent
  answers a truncated message as one it cannot parse instead of reporting a lost connection
  (`agents/python/zygo_agent.py:190-191`).
- `_open_fds` is documented as keeping other requests' write ends out of a child. The agent
  closes a result pipe's write end right after the fork, so what a child would inherit is
  read ends and go pipes; it is the barrier that depends on closing them
  (`InheritedCovers`, `BarrierResolves`).
- Comments speak of `create_tenant`; the check they mean is in `create_function`.
- The temporary name's token is one per process, so two threads of one process that put the
  same bytes share it; `ClashTruncates` shows what that can do.
- A child's answer that is a JSON value but no object, or not UTF-8, is not caught where the
  answer is decoded (`agents/python/zygo_agent.py:1474-1492`); nor is one that does not fit
  caught where it is replaced, for the replacement repeats the child's own readings
  (`agents/python/zygo_agent.py:1226-1242`). By then the request is out of the tables: it is
  never answered and the agent ends. `AnAnswerIsLost` and `ATooLongAnswerIsLost` are such runs
  and `PythonRuns.EveryRun` has the exact condition.
- The Node agent loses a request in the same way (`agents/node/zygo_agent.js:910-979`), to a
  refusal or to readings that are too long: `NodeRuns.AnAnswerIsLost`, `NodeRuns.EveryRun`. A
  worker's message that is `null`, a progress report that is too long
  (`agents/node/zygo_agent.js:847-857`) and a GO for a worker whose channel is closed
  (`agents/node/zygo_agent.js:1025`) end it too: `CrashIff`, `AGoIsTooLate`.
- A CHUNK goes up under whatever id the child wrote in it, and one that no longer fits a frame
  when it is encoded again ends the Python agent (`agents/python/zygo_agent.py:1139-1146`); `ChunksIff`
  says when every CHUNK is an open request's.
- The Node agent takes every `ready` at its word (`agents/node/zygo_agent.js:847-851`). One
  sent again while a worker serves, or arriving after its exit, can leave a request in flight
  for good: `ReadyTwiceOrphans`, `ReadyLateOrphans`. `EveryOrphan` has the exact condition for
  that, and `OrderlyIff` the one, stricter, for the agent's tables to stay right.
- `ensure` does not repair every slice it may find, nor one in which a process forks between
  the reading of the slice's processes and the last move: `EnsuredIff` and `AmidIff` say which.
  A slice that holds processes and passes cpu or pids on already cannot be emptied into a
  cgroup below it (`TakesIff`), and a process left behind keeps every function without limit
  files (`ForkBehindVacate`).

## Model

| member | source | states |
|---|---|---|
| Order.PathsStrictTotal | crates/zygo-core/src/derive.rs:629-635 | The order in which the change list is sorted is a strict total order on paths. |
| Order.PrefixFirst | crates/zygo-core/src/derive.rs:629-635 | A directory sorts before everything inside it. |
| Order.OrderIs | crates/zygo-core/src/derive.rs:629-635 | What that order is: at the first component or character in which two differ, the smaller one comes first, and a proper prefix comes before what it is a prefix of. |
| LayerDiff.ChangeList.Emit | crates/zygo-core/src/derive.rs:661-710 | One visited entry pushes exactly the changes that comparing it with the base calls for: nothing, an addition, or a whiteout and an addition. |
| LayerDiff.Additions | crates/zygo-core/src/derive.rs:653-727 | The recursive walk over the result pushes exactly the changes of every path it visits below `rel`, each once, in whatever order directories are listed. |
| LayerDiff.Deletions | crates/zygo-core/src/derive.rs:729-755 | The recursive walk over the base pushes exactly one whiteout for each topmost visible path that the result no longer has, and nothing below it. |
| LayerDiff.WalkStep | crates/zygo-core/src/derive.rs:653-660 | Visiting one more name of a directory adds exactly that entry and, through a directory, everything visible below it. |
| LayerDiff.AddedStep | crates/zygo-core/src/derive.rs:653-727 | What the additions are after one more name is what they were before and that name's, with nothing counted twice. |
| LayerDiff.RemovedStep | crates/zygo-core/src/derive.rs:729-755 | The same for deletions: a name that is gone stops the descent, a directory that is still a directory continues it. |
| LayerDiff.AddedApartFromRemoved | crates/zygo-core/src/derive.rs:629-635 | No change is both an addition's and a deletion's, so the list has no duplicates. |
| LayerDiff.SortChanges | crates/zygo-core/src/derive.rs:629-635 | Sorting keeps every change as often as it was there and orders the list by path and rank. |
| LayerDiff.NoTies | crates/zygo-core/src/derive.rs:618-635 | Two changes of one diff that tie in path and rank are the same change. |
| LayerDiff.NoTiesSorted | crates/zygo-core/src/derive.rs:618-635 | So the sorted list is strictly sorted. |
| LayerDiff.VisibleIs | crates/zygo-core/src/derive.rs:637-642 | Exactly what the diff skips: `proc`, `sys`, `dev`, `tmp` and `run` at the top, and Zygo's two marker files anywhere, with everything below them. |
| LayerDiff.DiffSays | crates/zygo-core/src/derive.rs:653-755 | What a diff is, without its two walks: a path has a whiteout exactly when it can be seen and a directory of the result has lost it, or the lookup in the base finds an entry of another kind; it has an addition exactly when it is an entry of the result, no device, and the base has no directory there, no link with that target, or no file with that size, time, nanoseconds and mode. |
| LayerDiff.Diff | crates/zygo-core/src/derive.rs:629-635 | `diff` returns the strictly sorted list of exactly the changes between the two trees. |
| LayerApply.WriteLayer | crates/zygo-core/src/derive.rs:792-850 | The layer has one member for each change, in the list's order: a whiteout is an empty `.wh.` file beside its path, with mode 644 and time 0; an addition carries the result's mode, target and bytes, and its time, or that plus 2^64 when it is before 1970; applied over the base it gives the result exactly when nothing was wrongly read as unchanged. |
| LayerApply.AddedIsTheResults | crates/zygo-core/src/derive.rs:792-850 | For all pairs of trees, whatever was read as unchanged: at every path the layer adds, the unpacked tree has the result's own mode, target and bytes, and its time as the header holds it. |
| LayerApply.HiddenIff | crates/zygo-core/src/derive.rs:629-754 | Exactly the base entries at or below a whiteout are hidden when the layer is applied. |
| LayerApply.Unhidden | crates/zygo-core/src/derive.rs:653-710 | An entry the diff left out as unchanged is never hidden by a whiteout. |
| LayerApply.MissingIsWhitedOut | crates/zygo-core/src/derive.rs:729-755 | Every base path the result does not have is at or below a whiteout of the list. |
| LayerApply.Replay | crates/zygo-core/src/derive.rs:792-850 | Unpacking the first n members leaves every path as the result has it if its addition is among them, and as the base has it otherwise, when the diff read nothing wrongly as unchanged. |
| LayerApply.SoundReproduces | crates/zygo-core/src/derive.rs:629-754 | If the diff read nothing wrongly as unchanged, the layer applied over the base gives the result on every path it looks at. |
| LayerApply.ReproducesOnlyIfSound | crates/zygo-core/src/derive.rs:661-700 | If the layer gives the result back, the diff read nothing wrongly as unchanged. |
| LayerApply.LayerReproducesResult | crates/zygo-core/src/derive.rs:1069-1145 | The purpose of the code, for all pairs of trees: the layer applied over the base by the OCI rules gives the result exactly when every entry taken for unchanged was the base's own entry with the same bytes. |
| LayerApply.DocumentedTreesAreSound | crates/zygo-core/src/derive.rs:653-727 | That condition holds for all trees in which equal size, times and mode mean equal bytes and no symbolic link of the base becomes a directory. |
| LayerApply.LinkBecomingDirectoryLosesFiles | crates/zygo-core/src/derive.rs:661-663 | It fails when a link becomes a directory: the lookup in the base follows the link, finds an equal file behind it, and the file is lost. |
| LayerShape.DiffIsUnique | crates/zygo-core/src/derive.rs:613-635 | Two trees have one change list: the layer does not depend on the order in which directories are read. |
| LayerShape.ParentsFirst | crates/zygo-core/src/derive.rs:618-635 | In the list a parent precedes its children and a whiteout precedes its replacement. |
| LayerShape.WhiteoutsAreAnAntichain | crates/zygo-core/src/derive.rs:729-755 | No whiteout lies below another when no symbolic link of the base becomes a directory. |
| LayerShape.Whitened | crates/zygo-core/src/derive.rs:729-755 | A whiteout covers an entry of the base itself, which is gone or of another kind, when no symbolic link of the base becomes a directory. |
| LayerShape.CopyPreserving | crates/zygo-core/src/derive.rs:547-584 | The recursive copy writes exactly the copied entries below its source directory, with modes and clamped times. |
| LayerShape.CopyAt | crates/zygo-core/src/derive.rs:547-584 | What the copy has at a path: the mode, the time or 0 if that is before 1970, the target and the bytes, a link taking the time of the copy; and nothing exactly at device nodes, and at the marker files and below them. |
| LayerShape.CopyIsWellFormed | crates/zygo-core/src/derive.rs:547-584 | The copy of a tree is a tree. |
| LayerShape.CopyHasNoDiff | crates/zygo-core/src/derive.rs:547-635 | Diffing a tree against its copy finds nothing exactly when it has no device node and no file from before 1970 where the diff looks. |
| Calendar.YearStartClosed | crates/zygo-core/src/doctor.rs:331-342 | The leap-year count of days before a year has the closed form the code uses. |
| Calendar.CivilIsExact | crates/zygo-core/src/doctor.rs:331-342 | For every second count the closed form gives a valid Gregorian date whose naive day number is the whole days since 1970. |
| Calendar.SameOrder | crates/zygo-core/src/doctor.rs:1900-1918 | Day numbers and dates of the reference calendar are the same order, and equal together. |
| Calendar.EveryDateIsReached | crates/zygo-core/src/doctor.rs:331-342 | Every valid date is the conversion of every second of its day. |
| Calendar.CivilIsMonotone | crates/zygo-core/src/doctor.rs:331-342 | The conversion is monotone, and two seconds give one date exactly when they are of one day. |
| Calendar.CutIsExact | crates/zygo-core/src/doctor.rs:331-342 | Cutting the year to 32 bits leaves the date right exactly for the seconds of the years that fit, never touches month and day, and leaves a year congruent to the right one. |
| Calendar.NewestAtMost | crates/zygo-core/src/doctor.rs:308-315 | The search from the newest row finds the last one at or below the version, and every later row is above it. |
| Calendar.TableInOrder | crates/zygo-core/src/doctor.rs:248-267 | The release table is sorted by series and by release date alike. |
| Calendar.RowsInOrder | crates/zygo-core/src/doctor.rs:308-318 | A newer series is matched to a row released no earlier. |
| Calendar.AgeIs | crates/zygo-core/src/doctor.rs:299-324 | What an age is: none exactly for a series after 6.14; otherwise as many months as there are first-of-month boundaries between the release of the last listed series at or below it and today, or none before its release; exact when the series itself is listed, and LTS for the six long-term series. |
| Calendar.AgeGrowsWithTime | crates/zygo-core/src/doctor.rs:299-324 | A kernel's age in months never falls as time passes, while the year fits 32 bits. |
| Calendar.NewerSeriesIsYounger | crates/zygo-core/src/doctor.rs:299-324 | A newer series is never older than an older one, and has an age only if the older one has. |
| Base64.Unbase64 | agents/node/zygo_child_seccomp.c:41-61 | The decoder returns -1 exactly on a character outside the alphabet or on more bytes than there is room for; otherwise it writes the whole bytes of the number the characters spell, and nothing past the room. |
| Base64.NextState | agents/node/zygo_child_seccomp.c:48-58 | One character keeps 8·written + bits = 6·(characters read), bits < 8, and the wrapped accumulator congruent to the number read so far. |
| Base64.ByteOut | agents/node/zygo_child_seccomp.c:55-56 | The byte taken from the wrapped 32-bit accumulator is the byte of the unwrapped number. |
| Base64.AlphabetIs | agents/node/zygo_child_seccomp.c:42-43 | The table is the alphabet of table 1 of RFC 4648. |
| Base64.SextetOfChar | agents/node/zygo_child_seccomp.c:50-51 | Looking a character up inverts writing it. |
| Base64.ValueIsInjective | agents/node/zygo_child_seccomp.c:41-61 | Bytes are determined by the number they spell and how many there are. |
| Base64.CharsSpell | agents/node/zygo_child_seccomp.c:41-61 | The characters of the RFC's encoding spell the number of the bytes, shifted by its padding. |
| Base64.EncodedIsSpelled | agents/node/zygo_child_seccomp.c:41-61 | What the decoder reads of an encoded string, up to its padding, is those characters. |
| Base64.EncodedShape | agents/node/zygo_child_seccomp.c:41-61 | That string has four characters for every three bytes, begun or whole, and `=` exactly in the places of the bytes that are missing from the last three. |
| Base64.DecodingInvertsEncoding | agents/node/zygo_child_seccomp.c:41-61 | For every byte string the decoder refuses its encoding (section 4 of RFC 4648) exactly when it does not fit, and writes exactly the bytes that were encoded. |
| ShellQuote.ShQuote | crates/zygo-cli/src/shim.rs:666-688 | The quoted word, read by the shell's tokeniser before any rest of line, is the word; a word is left bare exactly when it is not empty and has only letters, digits and -_./=:@%+, in it. |
| ShellQuote.SshArgs | crates/zygo-cli/src/shim.rs:623-661 | The last argument, read by the shell, is `cd`, the directory, `&&`, then `env` and each name=value in its place when there are any, then /usr/local/bin/zygo and each argument in its place, and no more; the others are the ssh options. |
| ShellQuote.Command | crates/zygo-cli/src/shim.rs:653-660 | The arguments around the remote command. |
| ShellQuote.QuotedReadsBack | crates/zygo-cli/src/shim.rs:666-688 | Tokenising a quoted word gives the word, whatever follows it. |
| ShellQuote.EscapedReadsBack | crates/zygo-cli/src/shim.rs:677-687 | Inside the quotes every character, a quote included, is read back as itself. |
| ShellQuote.SpacedReadsBack | crates/zygo-cli/src/shim.rs:637-646 | A list of quoted words with spaces between is read back as that list. |
| ShellQuote.LedReadsBack | crates/zygo-cli/src/shim.rs:648-651 | The same for words that each follow a space. |
| ShellQuote.RemoteReadsBack | crates/zygo-cli/src/shim.rs:634-651 | For every directory, environment and argument list the remote command reads back as the words it was made of. |
| ShellQuote.RemoteRuns | crates/zygo-cli/src/shim.rs:634-651 | The same token by token, for every directory, environment and argument list. |
| Framing.NodeFraming.OnData | agents/node/zygo_agent.js:228-258 | One chunk: the messages delivered and the bytes kept are those of one parse of everything pending, and the connection is closed only at an over-limit length. |
| Framing.FeedAll | agents/node/zygo_agent.js:228-258 | However a stream is cut into chunks, the messages and bad-body reports delivered are those of one pass over it. |
| Framing.EventsOfMore | agents/node/zygo_agent.js:228-258 | Parsing can stop anywhere and resume on the bytes that were left. |
| Framing.SizeOfHeader | agents/node/zygo_agent.js:261-270 | The four header bytes are the length, most significant first, and give back every 32-bit length. |
| Framing.SentIsTold | agents/node/zygo_agent.js:228-270 | Parsing the concatenation of sent frames gives one report for each, in order: its message when its body reads as an object, a bad body otherwise. |
| Framing.MessagesAreReceived | agents/node/zygo_agent.js:228-270 | So when every body is an object, whatever the chunks, exactly the messages sent are delivered, in order. |
| Framing.Send | agents/node/zygo_agent.js:261-270 | A body over 32 MiB is refused before anything is written; any other adds exactly one report to the stream, its message when it is an object. |
| Framing.AgentsAgree | agents/python/zygo_agent.py:166-194 | The Python agent reads the same messages up to the first body nested too deeply for its interpreter, at which it stops, but for a body cut short by the end of the stream, which it reports as a message it cannot read. |
| Framing.PythonIsTold | agents/python/zygo_agent.py:166-194 | The Python agent too gets exactly the message of each frame whose body is an object, in order, and reads on where they end. |
| Framing.PythonStops | agents/python/zygo_agent.py:166-194 | How its reading of a stream without a whole next frame ends: at its end, in a header that is cut, at a length over the limit, or, for a header with nothing behind it, as a lost connection. |
| Framing.ResultPipe.Collect | agents/python/zygo_agent.py:1104-1148 | A read sends on exactly the leading CHUNKs of what is pending up to the first that can no longer be sent, keeps the rest, and raises exactly when one cannot or when what follows them is nested too deeply. |
| Framing.ChunksOfMore | agents/python/zygo_agent.py:1124-1148 | Forwarding can stop anywhere and resume on the bytes that were left. |
| Framing.FittingOfMore | agents/python/zygo_agent.py:1139-1146 | Where sending on stops for a CHUNK that does not fit does not depend on how the bytes were split. |
| Framing.DeepStays | agents/python/zygo_agent.py:1131-1138 | Nor does it depend on that where it stops for a frame nested too deeply. |
| Framing.ReadToEnd | agents/python/zygo_agent.py:1104-1158 | However a result pipe's bytes are split across reads, the CHUNKs sent on, whether a read raised, and the outcome decoded are those of one parse of the whole. |
| Framing.WellBehavedChild | agents/python/zygo_agent.py:1124-1158 | A child that writes CHUNKs and one other frame has every CHUNK sent on once, in order, and the other frame as its answer, never sent early. |
| Protocol.FollowsStep | agents/python/zygo_agent.py:1031-1068 | An event the monitor allows, with a table that changes as it says, keeps the run accepted for every id. |
| Protocol.OneAnswerEach | agents/python/zygo_agent.py:1193-1206 | In an accepted run each EXEC has exactly one DONE or ERROR, but for the request still open, and exactly one FORKED, but for those refused without a process or still waiting for one; only the forked ones have a DONE. |
| Protocol.EntryFollowsGo | agents/python/zygo_agent.py:524-536 | In an accepted run a handler is entered, or a heartbeat sent, only after a GO that followed the request's FORKED with no answer since. |
| Protocol.DoneFollowsFork | agents/python/zygo_agent.py:1326-1330 | A DONE comes after the FORKED of its own request with no other answer between. |
| Protocol.DoneAfterOneFork | agents/python/zygo_agent.py:1326-1330 | Between an EXEC and its DONE exactly one FORKED was sent, and no other EXEC or answer. |
| Protocol.AnswerAfterItsFork | agents/python/zygo_agent.py:1193-1206 | The same for every answer, or it is an ERROR and no FORKED was sent since the EXEC. |
| Protocol.ForkedOnce | agents/python/zygo_agent.py:1326-1330 | Since the EXEC of an open request exactly one FORKED was sent, or none while it waits. |
| Protocol.ChunksWithoutChunk | agents/python/zygo_agent.py:1139-1146 | Whether every CHUNK was an open request's does not depend on the other events. |
| Protocol.OpenSinceFork | agents/python/zygo_agent.py:1326-1330 | A request that is blocked or released has had a FORKED since its EXEC, and a released one a GO since that. |
| NodeQueue.FirstInFirstOut | agents/node/zygo_agent.js:847-851 | When a request is given a worker, every request that arrived before it has already been given one or been refused. |
| NodeQueue.NoOvertaking | agents/node/zygo_agent.js:847-851 | A run in which an earlier request still waits cannot start a later one. |
| NodeAgent.StepKeepsTables | agents/node/zygo_agent.js:803-874 | Every event but a `ready` out of turn keeps the idle list, the in-flight table and the workers' own requests consistent: inverse to each other, idle workers free and free workers idle. |
| NodeAgent.WelcomeIff | agents/node/zygo_agent.js:847-851 | A `ready` leaves those tables right exactly when it is the worker's first, or an exited worker's that takes a waiting request, or a free worker's that is on no list during shutdown. The code does not check. |
| NodeAgent.StepKeepsLiving | agents/node/zygo_agent.js:868-872 | Every event keeps the number of live workers: one that exits is replaced at once, until shutdown. |
| NodeAgent.StepKeepsPool | agents/node/zygo_agent.js:998-1067 | Every event keeps the queue within `MAX_WAITING` and empty while a worker is idle, and the agent, unless it has crashed, exits exactly when it is stopping with nothing in flight. |
| NodeAgent.StepKeepsQueue | agents/node/zygo_agent.js:847-851 | Every event keeps the queue equal to what first-in first-out service of the run implies. |
| NodeAgent.StepFollows | agents/node/zygo_agent.js:901-953 | Every event keeps the run accepted by the protocol for every id. |
| NodeAgent.StepKeepsChunks | agents/node/zygo_agent.js:839-846 | Every event keeps it so that each CHUNK named an open request. |
| NodeAgent.StepKeepsValid | agents/node/zygo_agent.js:803-1067 | All the invariants together survive an event exactly when it is not a `ready` out of turn. |
| NodeRuns.RunKeepsValid | agents/node/zygo_agent.js:803-1067 | They hold after every run without one. |
| NodeRuns.OrderlyIff | agents/node/zygo_agent.js:803-1067 | The invariants hold throughout a run exactly when no `ready` in it comes out of turn. |
| NodeRuns.ReadyTwiceOrphans | agents/node/zygo_agent.js:847-851 | The run that shows why: a worker that says `ready` again while serving is given a second request, and its close answers only the second. |
| NodeRuns.ReadyLateOrphans | agents/node/zygo_agent.js:847-851 | And the other: a `ready` after the exit puts a dead worker on the idle list, and a request it is given after its close stays in flight. |
| NodeRuns.OrphanForEver | agents/node/zygo_agent.js:863-865 | Whatever follows, a request in flight that no worker which can still close carries is never answered, and the agent never exits. |
| NodeRuns.EveryOrphan | agents/node/zygo_agent.js:847-851 | Over every run, orderly or not: a request is left in flight for good in that way exactly when one was given to a worker that was closed or carried one already. |
| NodeRuns.CarriedStep | agents/node/zygo_agent.js:847-851 | One step does so exactly when it gives a request to such a worker, and every other keeps each request in flight with one worker that will answer it. |
| NodeAgent.InitialIsValid | agents/node/zygo_agent.js:1159-1159 | They hold of the agent as `main` leaves it. |
| NodeRuns.EveryRun | agents/node/zygo_agent.js:803-1067 | After every run in which no `ready` comes out of turn: exactly `POOL_SIZE` live workers until shutdown, an empty queue while a worker is idle, FIFO service, one FORKED for each EXEC that was given a worker; each EXEC that is neither queued nor in flight has had exactly one answer, for every id, exactly when no worker closed with a request whose answer cannot be sent; the agent has crashed exactly when an event was in the run that nothing handles; and when it has exited every EXEC was answered. |
| NodeRuns.CrashIff | agents/node/zygo_agent.js:839-873 | A run crashes the agent, or loses a request, exactly when one of its events does: an error without a listener, a message that is `null`, a CHUNK that cannot be sent, a close with an answer that cannot. |
| NodeRuns.AnAnswerIsLost | agents/node/zygo_agent.js:910-979 | Such runs, without any `ready` out of turn: for every report that cannot be sent, a worker that makes it as its last crashes the agent, and its request is never answered. |
| NodeRuns.DeadIsSilent | agents/node/zygo_agent.js:910-979 | A crashed agent answers nothing in any continuation. |
| NodeRuns.GoDooms | agents/node/zygo_agent.js:1020-1036 | A GO for a request whose worker has exited or has closed its channel is the end of the agent. |
| NodeRuns.DoomedForEver | agents/node/zygo_agent.js:1020-1036 | Nothing but messages that are already there comes before that end, and no continuation answers the request. |
| NodeRuns.AGoIsTooLate | agents/node/zygo_agent.js:1020-1036 | A run in which that happens: the worker exits before the GO arrives. |
| NodeRuns.HandlerWaitsForGo | agents/node/zygo_agent.js:659-660 | In any such run a worker enters the handler only after a GO for its request received while it was in flight. |
| NodeRuns.OneRequestPerWorker | agents/node/zygo_agent.js:901-908 | In any such run a worker is given one request, for good, and enters the handler at most once. |
| NodeRuns.ClosingAnswers | agents/node/zygo_agent.js:863-979 | When the pipes of a worker with a request close, that request gets its one answer, or the agent crashes and it gets none: exactly when the answer cannot be sent. |
| NodeAgent.ClosePhases | agents/node/zygo_agent.js:910-979 | A close answers a request that was in flight, or loses it, and touches no other. |
| NodeAgent.ExecIs | agents/node/zygo_agent.js:998-1018 | What an EXEC does, field by field: given to the first idle worker with FORKED, else refused when 64 are waiting, else put last in the queue. |
| NodeAgent.ReadyIs | agents/node/zygo_agent.js:847-851 | What a `ready` does: the worker takes the oldest waiting request with FORKED, or becomes the last idle one. |
| NodeAgent.ExitIs | agents/node/zygo_agent.js:868-872 | What an exit does: the worker leaves the idle list and, unless stopping, a new one is loading. |
| NodeAgent.CloseIs | agents/node/zygo_agent.js:863-954 | What a close does: the request leaves the table, the answer is sent and the agent exits if it was the last while stopping, or nothing is sent and the agent crashes. |
| NodeAgent.GoIs | agents/node/zygo_agent.js:1020-1036 | What a GO does: the request is released once and its worker gets the event, or an error is due; any other changes nothing. |
| NodeAgent.CancelIs | agents/node/zygo_agent.js:993-996 | What a CANCEL does: the mark, on that request's worker. |
| NodeAgent.StopIs | agents/node/zygo_agent.js:1056-1067 | What SHUTDOWN does: an ERROR for each waiting request in order, no queue, no idle worker. |
| NodeAgent.WorkerIs | agents/node/zygo_agent.js:839-857 | What a worker's output, report, progress and entering the handler do. |
| NodeAgent.AnswerIsTerminal | agents/node/zygo_agent.js:910-979 | What is sent for a closed worker's request is its DONE or its ERROR; nothing is sent exactly when its directory cannot be removed, or its last report is a refusal too long for an ERROR, or a result that cannot be encoded, or is too long with readings too long for the replacement. |
| NodeAgent.StopFollows | agents/node/zygo_agent.js:1056-1067 | Refusing the queue in order answers each request in it once. |
| NodeAgent.Agent.WorkerReady | agents/node/zygo_agent.js:847-851 | A worker that says `ready`, whatever its state, takes the oldest waiting request or becomes idle; the invariants survive exactly when that was in turn. |
| NodeAgent.Agent.WorkerExits | agents/node/zygo_agent.js:868-872 | An exit takes the worker out of the idle list, wherever it is, and starts a replacement unless stopping. |
| NodeAgent.Agent.WorkerCloses | agents/node/zygo_agent.js:863-979 | A close answers the worker's request, if it has one, with ERROR when the worker refused and DONE otherwise, or crashes the agent. |
| NodeAgent.Agent.WorkerReports | agents/node/zygo_agent.js:852-853 | A result is remembered only by a worker with a request, the last one counting. |
| NodeAgent.Agent.WorkerOutput | agents/node/zygo_agent.js:839-857 | Output and progress go up as a CHUNK only for a streaming request, and one that cannot be sent crashes the agent. |
| NodeAgent.Agent.WorkerSaysNull | agents/node/zygo_agent.js:847-848 | A message that is `null` crashes the agent, whoever sends it. |
| NodeAgent.Agent.Fails | agents/node/zygo_agent.js:868-872 | So does an error event without a listener. |
| NodeAgent.Agent.Dispatch | agents/node/zygo_agent.js:901-908 | The request is the worker's and in flight, and FORKED says so. |
| NodeAgent.Agent.Finish | agents/node/zygo_agent.js:910-954 | The request leaves the table first; it is answered once, or the answer cannot be sent and the agent crashes; the process exits when an answer was the last one of a stopping agent. |
| NodeAgent.Agent.SendResult | agents/node/zygo_agent.js:922-979 | The refusal's ERROR, or the DONE, or the DONE in its place; it throws, having sent nothing, exactly when the refusal is too long, or the result cannot be encoded, or neither DONE fits. |
| NodeAgent.Agent.ReceiveExec | agents/node/zygo_agent.js:998-1018 | An EXEC takes the first idle worker, or is refused when the queue is full, or waits. |
| NodeAgent.Agent.ReceiveGo | agents/node/zygo_agent.js:1020-1036 | A GO releases a request in flight once, and gives its worker the event, or makes an error event when the worker's channel is closed; any other is ignored. |
| NodeAgent.Agent.ReceiveCancel | agents/node/zygo_agent.js:993-996 | A CANCEL marks the request in flight and changes nothing else. |
| NodeAgent.Agent.Stop | agents/node/zygo_agent.js:1056-1067 | Stopping refuses every waiting request in order, empties the idle list, and exits if nothing is in flight. |
| NodeAgent.Agent.Heartbeat | agents/node/zygo_agent.js:891-899 | A round names each request in flight that GO has released, once, and no other. |
| NodeQueue.IndexOf | agents/node/zygo_agent.js:869-870 | The search in the idle list finds the first place, or says there is none. |
| PythonAgent.ChildIsClean | agents/python/zygo_agent.py:1274-1305 | A forked child starts with a copy of every descriptor of the agent, and what it closes is exactly what is not its own. |
| PythonAgent.InheritedCovers | agents/python/zygo_agent.py:1244-1257 | Every descriptor the agent holds is the control socket or one `_open_fds` lists, and none is a write end of a result pipe. |
| PythonAgent.ExecKeepsValid | agents/python/zygo_agent.py:1259-1330 | An EXEC keeps every invariant of tables, descriptors, processes and protocol. |
| PythonAgent.GoKeepsValid | agents/python/zygo_agent.py:1070-1102 | So do GO and CANCEL, for ids in flight or not. |
| PythonAgent.EofKeepsValid | agents/python/zygo_agent.py:1150-1206 | So does finishing a request at end of file, whether an answer can be sent or that raises after the request has left the tables. |
| PythonAgent.AnswerIsTerminal | agents/python/zygo_agent.py:1158-1242 | What is sent for a finished request: nothing exactly when the last frame cannot be decoded or encoded again, or is too long as an answer with readings too long even for the DONE that replaces it; else ERROR exactly when a whole frame is there whose body is an object of that type and fits; else, no bytes and a cut frame included, DONE. |
| PythonAgent.ExecIs | agents/python/zygo_agent.py:1259-1386 | What an EXEC does, field by field: the tables, the agent's descriptors, and the child's, its stage and what it has yet to close. |
| PythonAgent.ExecFailsIs | agents/python/zygo_agent.py:1259-1386 | What a failed start does: the ERROR and nothing else. |
| PythonAgent.GoIs | agents/python/zygo_agent.py:1070-1084 | What a GO does: one byte into the go pipe and that descriptor closed; for any other id nothing. |
| PythonAgent.CancelIs | agents/python/zygo_agent.py:1086-1102 | What a CANCEL does: the mark, on that request. |
| PythonAgent.MessageIs | agents/python/zygo_agent.py:1012-1068 | What SHUTDOWN, PING, an unknown message and a heartbeat round do. |
| PythonAgent.DataIs | agents/python/zygo_agent.py:1104-1148 | What readable bytes do: the leading CHUNKs that fit go out and the rest is kept, or the agent ends. |
| PythonAgent.EofIs | agents/python/zygo_agent.py:1150-1206 | What end of file does: the request leaves both tables, its descriptors are closed and it gets that answer, or the agent ends. |
| PythonAgent.ChildIs | agents/python/zygo_agent.py:524-536 | What a child does at each step up to the barrier and at it. |
| PythonAgent.ProcessIs | agents/python/zygo_agent.py:1306-1318 | What a process does in its handler: fork, drop a descriptor, exit. |
| PythonAgent.DataKeepsValid | agents/python/zygo_agent.py:1104-1148 | So does forwarding whatever bytes a child wrote: CHUNKs under any id, one that can no longer be sent, a frame nested too deeply. |
| PythonAgent.MorePipes | agents/python/zygo_agent.py:1104-1148 | What is pending for a request is always the remainder of everything its child wrote, of which every CHUNK was sent on. |
| PythonAgent.EofProcs | agents/python/zygo_agent.py:1150-1156 | No process that has not passed the barrier belongs to a request that is being finished. |
| PythonAgent.ChildKeepsValid | agents/python/zygo_agent.py:1288-1318 | So does every step of a child: closing, reading the barrier, forking, dropping a descriptor, exiting. |
| PythonAgent.StepKeepsValid | agents/python/zygo_agent.py:944-1386 | Every step of the agent or of a process keeps all of it, an exception that ends the agent included. |
| PythonRuns.RunKeepsValid | agents/python/zygo_agent.py:944-1386 | It holds after every interleaving. |
| PythonRuns.HoldsOnlyItsOwn | agents/python/zygo_agent.py:1288-1303 | In every interleaving a child past its set-up holds no end of another request's pipes and not the control socket. |
| PythonRuns.ResultPipeEnds | agents/python/zygo_agent.py:1244-1250 | A result pipe is at end of file exactly when no process of its own request holds it: never before its child has passed the barrier, always once the child and its descendants are gone. |
| PythonRuns.BarrierResolves | agents/python/zygo_agent.py:524-536 | Once the agent has closed a go pipe and no child is setting up, the child waiting on it enters if GO was written and leaves without entering if not. |
| PythonRuns.NeverSentLater | agents/python/zygo_agent.py:1154-1156 | A request whose go pipe was closed without GO is not released by the next step. |
| PythonRuns.NeverEnters | agents/python/zygo_agent.py:524-536 | In every continuation, no process of a request whose go pipe was closed without GO ever enters its handler. |
| PythonAgent.ReleasedAtBarrier | agents/python/zygo_agent.py:524-536 | A child that finds its byte belongs to a request in flight that GO has released. |
| PythonRuns.EveryRun | agents/python/zygo_agent.py:944-1242 | After every run each EXEC whose request is not in flight has had exactly one answer, for every id, exactly when there was no child for whose last frame nothing can be sent; each EXEC had one FORKED unless refused without a process; and `_inflight` and `_by_result_fd` are inverse bijections. |
| PythonRuns.LostIff | agents/python/zygo_agent.py:1150-1242 | A run loses a request exactly when at one of its ends of file nothing can be sent for the last frame of all the bytes that child wrote. |
| PythonRuns.EndSays | agents/python/zygo_agent.py:1158-1242 | In every run the answer at a request's end of file is that of what follows the leading CHUNKs of all the bytes its child wrote. |
| PythonRuns.RaisingStep | agents/python/zygo_agent.py:1150-1242 | One step loses a request exactly when it is such an end of file, and the request lost is that pipe's. |
| PythonRuns.RaisingLosesTheAnswer | agents/python/zygo_agent.py:1150-1242 | The request is then out of both tables with one answer too few, and the agent has ended. |
| PythonRuns.AnAnswerIsLost | agents/python/zygo_agent.py:1474-1492 | A run that shows it: a child writes the JSON value [] as its answer and exits. |
| PythonRuns.ATooLongAnswerIsLost | agents/python/zygo_agent.py:1208-1242 | Another: the child's frame is within the limit, but as an answer it is too long, and so are its readings in the replacement. |
| PythonRuns.FatalFrameLoses | agents/python/zygo_agent.py:1150-1242 | And so for every frame for which nothing can be sent. |
| PythonRuns.DeadIsSilent | agents/python/zygo_agent.py:1640-1647 | After that no continuation answers anything. |
| PythonRuns.StrayIff | agents/python/zygo_agent.py:1139-1146 | A step keeps every CHUNK an open request's exactly when the child's CHUNKs carry ids that are open; the code sends on whatever id the child wrote. |
| PythonRuns.ChunksIff | agents/python/zygo_agent.py:1139-1146 | Over a run: every CHUNK named an open request exactly when no child wrote one that did not. |
| PythonRuns.HandlerWaitsForGo | agents/python/zygo_agent.py:524-536 | Forked or spawned, a handler is entered only after a GO for its request received while it was in flight. |
| PythonRuns.StaysRegistered | agents/python/zygo_agent.py:1000-1008 | No step but its own end of file takes a descriptor out of the index. |
| PythonRuns.StepKeepsStarts | agents/python/zygo_agent.py:1326-1330 | A step that starts a child sends one FORKED for it, and no other step sends any. |
| PythonRuns.StartsAreForks | agents/python/zygo_agent.py:1326-1330 | In every continuation, the FORKEDs sent are exactly the children started, in order. |
| PythonRuns.ReachedStarts | agents/python/zygo_agent.py:1326-1330 | So in every run FORKED is sent exactly once for each child that was started. |
| PythonRuns.DoneHasOneFork | agents/python/zygo_agent.py:1326-1330 | In every run each DONE answers an EXEC after which exactly one FORKED was sent for the request, and nothing else that starts or answers it. |
| PythonRuns.AnswerHasItsFork | agents/python/zygo_agent.py:1193-1206 | In every run the same of every answer, DONE or ERROR, unless it is the ERROR of an EXEC for which no FORKED was sent. |
| PythonServe.Filter | agents/python/zygo_agent.py:986-988 | What `select` returns is exactly what is readable among what was asked for, without repetition. |
| PythonServe.FilterKeepsLast | agents/python/zygo_agent.py:963-965 | The control socket stays last in the batch, so no EXEC can reuse a descriptor of it. |
| PythonServe.RunsCompose | agents/python/zygo_agent.py:958-1010 | The steps of one pass after those of the passes before make one run. |
| PythonServe.Agent.OpenFds | agents/python/zygo_agent.py:1244-1257 | Exactly the descriptors of the requests in flight. |
| PythonServe.Agent.Exec | agents/python/zygo_agent.py:1259-1386 | A started child leaves its request in both tables with FORKED sent; a failed start leaves nothing but the ERROR. |
| PythonServe.Agent.Release | agents/python/zygo_agent.py:1070-1084 | GO writes to and closes the go pipe of a request in flight, once; a pipe nobody reads any more is closed all the same. |
| PythonServe.Agent.CancelRequest | agents/python/zygo_agent.py:1086-1102 | CANCEL marks the request in flight and changes nothing else. |
| PythonServe.Agent.Collect | agents/python/zygo_agent.py:1104-1122 | What is there is forwarded, and end of file finishes the request: the step of the run in either case. |
| PythonServe.Agent.ForwardChunks | agents/python/zygo_agent.py:1124-1148 | The leading CHUNKs go out as the child wrote them and the rest is kept; one that can no longer be sent, or a frame nested too deeply, ends the agent. |
| PythonServe.Agent.Finish | agents/python/zygo_agent.py:1150-1206 | The request leaves both tables and its descriptors are closed before its answer is decoded and sent: the one its bytes call for; or that raises and the agent ends. |
| PythonServe.Agent.SendResult | agents/python/zygo_agent.py:1208-1242 | The answer is sent, or the DONE in its place; it raises, having sent nothing, exactly when the answer cannot be encoded or neither fits. |
| PythonServe.Agent.Heartbeat | agents/python/zygo_agent.py:1012-1029 | A round names each request in flight that GO has released, once, and no other. |
| PythonServe.Agent.HandleMessage | agents/python/zygo_agent.py:1031-1068 | Each message takes exactly its step of the run; SHUTDOWN, end of stream and a lost connection stop accepting; a length over the limit, a header cut short or a body nested too deeply ends the agent, and nothing else does. |
| PythonServe.Agent.Obey | agents/python/zygo_agent.py:1043-1068 | Acting on a command is exactly its step of the run, and only SHUTDOWN stops accepting. |
| PythonServe.Agent.Escapes | agents/python/zygo_agent.py:166-194 | An exception out of `recv` is the step that ends the agent with its tables as they were. |
| PythonServe.Agent.Watch | agents/python/zygo_agent.py:963-965 | The loop waits on every registered descriptor and, while accepting, on the control socket, last. |
| PythonServe.Agent.Children | agents/python/zygo_agent.py:1288-1318 | The children's steps that come in between are taken, all that can be and no other. |
| PythonServe.Agent.TakeTurn | agents/python/zygo_agent.py:1000-1008 | One descriptor's turn is the children's steps before it and then exactly the step its bytes, its end of file or its message calls for; every other descriptor stays registered. |
| PythonServe.Agent.Batch | agents/python/zygo_agent.py:1000-1008 | Every descriptor of a batch is still registered when its turn comes, and each has its turn, in order, unless the agent ends. |
| PythonServe.Agent.TakePass | agents/python/zygo_agent.py:962-1008 | The pass wakes when something is ready or the beat is due, at most, and at once if it is overdue; it sends a beat exactly when it is due by then, and then serves exactly what `select` returned. |
| PythonServe.Agent.Serve | agents/python/zygo_agent.py:944-1010 | The loop is a run of the model. It ends by its own condition exactly when it accepts no more and nothing is in flight, and then every EXEC has had exactly one answer; while it loops, no heartbeat round starts later than 2 seconds and one pass's work after the last one finished. An exception ends it otherwise. |
| CgroupKernel.TopDown | crates/zygo-core/src/cgroup.rs:259-262 | What a cgroup passes down, every cgroup above it passes down too. |
| CgroupKernel.RmdirKeeps | crates/zygo-core/src/cgroup.rs:407-414 | `rmdir` keeps the kernel's rules: no process loses its cgroup and no cgroup its parent. |
| CgroupKernel.EnableKeeps | crates/zygo-core/src/cgroup.rs:889-891 | So does each single write to `cgroup.subtree_control`, granted or refused: no cgroup that holds a process passes on a domain controller, or any above one that is populated. |
| CgroupKernel.MovedKeeps | crates/zygo-core/src/cgroup.rs:824-871 | So does moving processes to where the kernel lets them be. |
| CgroupKernel.GivenIsValid | crates/zygo-core/src/cgroup.rs:259-262 | A cgroup that is given memory or io is below no threaded domain. |
| CgroupKernel.NoneAbove | crates/zygo-core/src/cgroup.rs:259-262 | Nothing above a process is a threaded domain. |
| CgroupSlice.SanitisedIsSafe | crates/zygo-core/src/cgroup.rs:922-942 | Any name becomes one component that is not a way out of its directory; exactly the names that already are one are kept. |
| CgroupSlice.SanitiseIs | crates/zygo-core/src/cgroup.rs:922-942 | Character by character what becomes of a name. |
| CgroupSlice.NamesApart | crates/zygo-core/src/cgroup.rs:176-218 | Where each cgroup is; two functions, generations or requests share one exactly when their sanitised names, tokens or ids are the same, and no request's is a zygote's. |
| CgroupSlice.NeverBoth | crates/zygo-core/src/cgroup.rs:200-217 | In the slice as Zygo leaves it no cgroup both holds processes and delegates. |
| CgroupEnsure.EnsuredIff | crates/zygo-core/src/cgroup.rs:235-303 | `ensure` leaves a slice in which no cgroup both holds processes and delegates, exactly when it found one in which only the cgroups Zygo delegates from delegate, and every process is at a leaf, or in the slice itself while that delegates nothing, or is the caller elsewhere outside `system`. |
| CgroupEnsure.TakesIff | crates/zygo-core/src/cgroup.rs:824-841 | In an inhabited slice `system` takes processes unless the slice itself both holds some and passes a controller on: then the kernel refuses every move into it. |
| CgroupEnsure.EnsuredMoves | crates/zygo-core/src/cgroup.rs:235-281 | Whatever it finds, `ensure` moves exactly the processes in the slice itself, Zygo's own in the slice's parent, and the caller if it is in the way, all into `system`; or none, when `system` cannot take any. |
| CgroupFunctions.FoundWithAProcessInTenants | crates/zygo-core/src/cgroup.rs:235-303 | A slice it does not repair: a process found in `tenants` stays there, and `tenants` then passes on cpu. |
| CgroupFunctions.StrayKept | crates/zygo-core/src/cgroup.rs:235-303 | In general: such a process stays, and `tenants` then passes on what it did and, while nobody is below it, every threaded controller the slice passes on. |
| CgroupEnsure.VacatedIff | crates/zygo-core/src/cgroup.rs:824-841 | With processes forking and exiting between `vacate`'s read and its writes, a cgroup is empty afterwards exactly when each process it held was moved or exited, and none born in it meanwhile was left behind. |
| CgroupEnsure.QuietVacate | crates/zygo-core/src/cgroup.rs:824-841 | With nothing between, the writes move all the processes at once. |
| CgroupEnsure.AmidIff | crates/zygo-core/src/cgroup.rs:235-303 | So `ensure` then still repairs a slice exactly when no process born in the slice itself is left behind. |
| CgroupFunctions.AmidHoldsBoth | crates/zygo-core/src/cgroup.rs:235-303 | What was left behind stays; the slice then passes on what it did before and, only while nobody is below it, the threaded controllers of its parent's. |
| CgroupFunctions.ForkBehindVacate | crates/zygo-core/src/cgroup.rs:824-841 | The run that shows it: one fork after the read leaves a child in the slice, which can then pass nothing on, and no function gets a limit file, on a host with every controller. |
| CgroupFunctions.BlockedFunction | crates/zygo-core/src/cgroup.rs:333-370 | In general: a slice that holds a process, passes nothing on and is inhabited below leaves every function without a limit file. |
| CgroupEnsure.EnsuredIsWellFormed | crates/zygo-core/src/cgroup.rs:235-303 | And within the kernel's rules. |
| CgroupEnsure.EnsuredBuilds | crates/zygo-core/src/cgroup.rs:235-303 | It makes the slice, `system` and `tenants`, and in a slice it repairs that is below no threaded domain, slice and `tenants` pass on exactly what the slice's parent does. |
| CgroupEnsure.EnsureDelegates | crates/zygo-core/src/cgroup.rs:278-281 | Whatever it found, after `ensure` the slice's parent, which it makes if need be, passes down exactly the controllers it did, and those available there that the kernel allows: nobody stays in it, or the controller is a threaded one and nobody is below it. |
| CgroupSlice.InteriorPassesAll | crates/zygo-core/src/cgroup.rs:880-894 | Inside a slice that is below no threaded domain a cgroup above the leaves passes down all that it is given. |
| CgroupSlice.SliceValid | crates/zygo-core/src/cgroup.rs:200-217 | Inside the slice as Zygo leaves it, a cgroup is below a threaded domain only if the slice is. |
| CgroupFunctions.FunctionGetsAll | crates/zygo-core/src/cgroup.rs:333-356 | Every cgroup down to a function gets exactly what the slice is given, when that is below no threaded domain, and no process moves. |
| CgroupFunctions.FunctionMadeIff | crates/zygo-core/src/cgroup.rs:333-370 | `create_function` returns Ok exactly when the slice's parent passes memory, pids and cpu down, and then they are enabled at every level down to the function. |
| CgroupFunctions.FirstFunctionIff | crates/zygo-core/src/cgroup.rs:235-370 | Whatever was found: after `ensure` a function can be created exactly when the slice's parent has memory, pids and cpu, nobody stays in it unless it is the top, the slice itself is empty or can be emptied, and nobody but a caller that can step aside is in `tenants` or in the tenant. |
| CgroupFunctions.FunctionMadeAnywhereIff | crates/zygo-core/src/cgroup.rs:333-370 | In any state, `create_function` finds its limit files exactly when the slice is given the required controllers and no level above the function holds a process. |
| CgroupFunctions.GenerationKeeps | crates/zygo-core/src/cgroup.rs:373-381 | Creating a generation keeps the slice's invariant. |
| CgroupFunctions.GenerationIs | crates/zygo-core/src/cgroup.rs:373-381 | In a slice as Zygo leaves it, whatever that is given, a generation's cgroup and its zygote's are made, the generation passes on exactly what it is given when the slice is below no threaded domain, and in every case memory, pids and cpu exactly when it is given them; all of it is available to the zygote, and no other cgroup changes. |
| CgroupFunctions.RequestGets | crates/zygo-core/src/cgroup.rs:333-391 | Function, generation and request made one after another: the zygote and the request have all the generation passes on, and that is memory, pids and cpu exactly when the slice is given them. |
| CgroupFunctions.RequestKeeps | crates/zygo-core/src/cgroup.rs:386-391 | So does creating a request's cgroup. |
| CgroupFunctions.RequestIs | crates/zygo-core/src/cgroup.rs:386-391 | It has available exactly what its generation passes on, which it leaves as it was. |
| CgroupFunctions.AttachKeepsSlice | crates/zygo-core/src/cgroup.rs:471-473 | Attaching to a leaf keeps it, and succeeds exactly when the leaf is there and the slice is below no threaded domain. |
| Cgroups.PopulatedBelow | crates/zygo-core/src/cgroup.rs:457-468 | A cgroup is populated exactly when it has a process or a populated child. |
| Cgroups.EmptySubtreeIff | crates/zygo-core/src/cgroup.rs:457-468 | `is_empty_subtree` is true exactly when no process is in or below the cgroup. |
| Cgroups.RemovedAll | crates/zygo-core/src/cgroup.rs:399-415 | Removing the children and then the cgroup itself removes exactly the cgroups with no process in or below them. |
| Cgroups.SiblingsUnchanged | crates/zygo-core/src/cgroup.rs:399-415 | Removal touches nothing outside the subtree: siblings and their processes stay. |
| Cgroups.CleanedTenants | crates/zygo-core/src/cgroup.rs:432-453 | Cleaning keeps every process where it is and every tenant that has one in full, and leaves nothing of the others. |
| Cgroups.Hierarchy.EnableControllers | crates/zygo-core/src/cgroup.rs:880-894 | One write a controller enables all that is available and may be, within the kernel's rules. |
| Cgroups.Hierarchy.VacateInto | crates/zygo-core/src/cgroup.rs:824-871 | Every chosen process is moved, and no other, or none where the kernel refuses; into a leaf that keeps the slice. |
| Cgroups.Hierarchy.Ensure | crates/zygo-core/src/cgroup.rs:235-303 | From any state of the kernel: the whole state `ensure` leaves, and the slice is as Zygo leaves it exactly when it was found repairable. |
| Cgroups.Hierarchy.CreateFunction | crates/zygo-core/src/cgroup.rs:333-370 | Ok, exactly when the slice is given the required controllers, or the controllers that are missing, and the whole state left. |
| Cgroups.Hierarchy.CreateGeneration | crates/zygo-core/src/cgroup.rs:373-381 | The generation's and its zygote's cgroups exist; the generation passes on memory, pids and cpu exactly when they reach it, and everything that does when the slice is below no threaded domain; all of it is available to the zygote. |
| Cgroups.Hierarchy.CreateRequest | crates/zygo-core/src/cgroup.rs:386-391 | The request's cgroup exists, has available what its generation passes on, and nothing else changed. |
| Cgroups.Hierarchy.AttachToLeaf | crates/zygo-core/src/cgroup.rs:471-473 | The process is put in the leaf exactly when both exist and the slice is below no threaded domain. |
| Cgroups.Hierarchy.Remove | crates/zygo-core/src/cgroup.rs:399-415 | The recursive removal deletes exactly the process-free cgroups of the subtree. |
| Cgroups.Hierarchy.CleanStaleTenants | crates/zygo-core/src/cgroup.rs:432-453 | Exactly the tenants without processes are removed, and their names returned. |
| Cgroups.Hierarchy.Run | crates/zygo-core/src/cgroup.rs:235-453 | No sequence of these operations, with processes forking and exiting between one operation and the next, makes a cgroup of the slice both hold processes and delegate. |
| Freezer.FrozenStay | crates/zygo-core/src/cgroup.rs:502-505 | While frozen a group gains no process, and loses none that has no signal pending. |
| Freezer.FrozenSignals | crates/zygo-core/src/cgroup.rs:514-524 | While frozen the signals reach every process on the list. |
| Freezer.DoomedStay | crates/zygo-core/src/cgroup.rs:502-505 | Once every process has a signal pending, all any of them can ever do is die. |
| Freezer.Leaf.SignalEach | crates/zygo-core/src/cgroup.rs:514-524 | The loop signals each listed process once, with whatever happens between, and says exactly whether one of them was still there. |
| Freezer.Leaf.KillByFreezing | crates/zygo-core/src/cgroup.rs:507-529 | With a freezer, whatever the processes do between the system calls, none is left able to take another step; the result says exactly whether a signal reached a process. |
| Freezer.WithoutTheFreezeAChildSurvives | crates/zygo-core/src/cgroup.rs:502-505 | Without the freeze a child forked between the read and the signal survives. |
| Freezer.QuietSignals | crates/zygo-core/src/cgroup.rs:510-512 | Without it the list is still enough when nobody forks in between. |
| ContentStore.ParseIff | crates/zygo-core/src/scripts.rs:63-82 | `parse` accepts exactly `sha256:` and 64 lower-case hex digits, and gives the digits back. |
| ContentStore.ParsedIsAName | crates/zygo-core/src/scripts.rs:57-82 | So the path component made from any text that parses has no separator and no dot, and text that does not parse was no digest. |
| ContentStore.TemporaryIsNoDigest | crates/zygo-core/src/scripts.rs:172-176 | A temporary name is never a digest's. |
| ContentStore.TemporaryNamesDiffer | crates/zygo-core/src/blobs.rs:80-84 | Temporary names differ when digest or token do. |
| ContentStore.StepKeepsSound | crates/zygo-core/src/blobs.rs:60-89 | Every step of any writer or remover keeps published files complete and true to their names. |
| ContentStore.FailsIs | crates/zygo-core/src/blobs.rs:77-123 | A writer that fails leaves every name as it was; a removal takes out that digest and nothing else. |
| ContentStore.RunKeepsSound | crates/zygo-core/src/blobs.rs:60-89 | So does every interleaving of writers with distinct tokens. |
| ContentStore.StoreIsAMap | crates/zygo-core/src/blobs.rs:60-123 | To a reader the store is a map from digests to bytes: a put adds its whole content in one step, a removal takes one digest out, and nothing else shows. |
| ContentStore.RepeatedPutIsInvisible | crates/zygo-core/src/scripts.rs:143-148 | Putting bytes that are there changes nothing a reader can see, even when both writers got as far as renaming. |
| ContentStore.ReadsWhatItOpened | crates/zygo-core/src/blobs.rs:77-79 | A reader that has opened a published file reads all of it, whatever puts and removals follow. |
| ContentStore.PublishedIsSealed | crates/zygo-core/src/blobs.rs:77-79 | No writer can reach a published file. |
| ContentStore.ClashTruncates | crates/zygo-core/src/blobs.rs:80-87 | Two writers with one token can publish a truncated file. |
| ContentStore.CompleteIff | crates/zygo-core/src/blobs.rs:77-89 | Every published file is complete in every run exactly when no two writers share a token. |
| ContentStore.Store.Put | crates/zygo-core/src/blobs.rs:60-89 | `put` under interference: too big, already there and unchanged, or published under its digest with all its bytes. |
| ContentStore.Store.Get | crates/zygo-core/src/blobs.rs:98-114 | `get` never returns bytes of another digest, even from a damaged directory, and from a sound one returns exactly what is published. |
| ContentStore.Store.Remove | crates/zygo-core/src/blobs.rs:116-123 | `remove` takes out that digest, says whether it was there, and touches nothing else. |
| ContentStore.Store.List | crates/zygo-core/src/scripts.rs:225-243 | `list` returns exactly the digests in the store, in order, and no temporary file. |
| ContentStore.Insert | crates/zygo-core/src/scripts.rs:240-240 | Insertion keeps the digests in order. |

## Left out

- File names that are not Unicode, and names starting with `.wh.`, in the layer model.
- Hard links, ownership and extended attributes of file trees: a file is a mode, a time and its bytes.
- The unpacking code of the image store: the layer is applied by the OCI rules, so what that code does beyond or short of them (it leaves the modes of directories that exist alone) is not part of this model.
- The archive's byte layout, compression and digest: a layer is the list of its members.
- I/O errors, in every model: a full disk, a refused write, a permission denied, a control socket that breaks while the agent sends.
- `Cgroups.Hierarchy.Run`: has processes fork and exit between operations; what a fork inside `vacate` does is stated by `AmidIff` and `VacatedIff`, one inside `vacate_ours` by `VacatedIff` alone.
- The randomness of a generation's and a token's name; that they are fresh is assumed.
- Limit values (`memory.max`, `pids.max`, `cpu.max`, `memory.min`): only whether their controllers are enabled.
- Where the slice is placed (`placement_parent`, `delegation_root`, the delegation probes): host state.
- `cgroup.kill`, which is one write and the kernel's own promise.
- Cgroups that are made threaded ones, and cpusets.
- The PONG that answers a PING: it changes no state and is not in the trace.
- What a request carries besides its id and whether it streams, and what an answer says besides its kind: metrics, exit codes, captured output, and that a CANCEL shows in the DONE.
- Loading handlers and scripts, seccomp filters, workspaces, temporary directories and reseeding in the children.
- Reaping: a process that has exited is gone.
- `PythonServe.Agent.Finish`: does not model an interpreter that runs out of memory, nor a temporary directory too deep for its removal to follow.
- `PythonServe.Agent.HandleMessage`: does not model message ids that are not strings.
- What a child's own frames carry besides their type, a CHUNK's id, and how long they are as CHUNK, as answer and as replacement.
- `NodeAgent.Agent.WorkerOutput`: does not model `Ring`, which truncates what a DONE repeats.
- `NodeAgent.Agent.SendResult`: does not model an answer longer than the longest string V8 makes, which throws another error than the one that is caught.
- Node's worker records and Python's `InFlight` are values in a map rather than objects, so aliasing of one record by two tables is not modelled; the tables' agreement is proved instead.
- Negative and fractional ages: `kernel_age` before 1970 gives nothing, and a time beyond 2^63 seconds is not modelled.
- Package-name rules, cache keys, scopes, probes and their remedies, the shim's VM management, secrets, dependencies and the command line: plumbing, or easier members.
