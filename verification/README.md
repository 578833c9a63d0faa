# time-agent: a Dafny model

time-agent reads the log lines of `ptp4l`, `phc2sys` and `ppswatch`, samples `/proc` and
sysfs, asks `pmc` for the PTP topology, and sends what it learns through an adapter. This
project models the path from the incoming text to the send calls and proves what that path
guarantees. `dafny verify dfyconfig.toml` checks all of it.

- **Run and stop** (`AgentProtocol`, `AgentTheorems`, `AgentProgress`). The reader threads, the metrics
  thread, `Agent::run` and `Agent::stop` are a labelled step system over the `running_`
  flag, the adapter mutex and the collectors' stop requests. A schedule is a sequence of
  labels, and the theorems hold for all schedules: at most one thread inside a send, a send
  log that accounts for every event consumed and every sample taken, bounded work after
  `stop()`, a rank that falls on every step once stopping has begun, no deadlock, and a
  quiet system when `run()` has returned. A run whose inputs end stops without any
  `stop()`, and until then no thread quits: each reader comes back for its next event and the
  metrics thread takes one sample per sleep. What is logged is the send *call*; its boolean result is ignored by every caller
  in the source.
- **Log lines** (`Scanf`, `ScanfGrammar`, `ScanfSuffix`, `LogParsers`, `MetricsSuffix`,
  `ParserGrammar`, `SummaryNames`, `LogLines`, `Cascade`, `ServoLines`, `AgentHandlers`). The `sscanf` formats are small
  programs in an interpreter that follows section 7.21.6.2 of ISO C11. The interpreter accepts
  exactly what a grammar of pieces derives, which says for every message which parser takes it.
  The ptp4l handler's cascade of four
  parsers inverts printing for all six kinds of line; the same is shown for phc2sys and
  ppswatch; and `PrintedLinesReachTheAdapter` joins this with the step system.
- **pmc topology** (`Topology`, `TopologyPorts`, `TopologyRoundTrip`, `TopologyFields`). The four loops of
  `PtpTopologyParser::parse` are methods with loops, proved equal to a fold over key/value
  entries, about which the port-block law, the round trip and, for arbitrary texts, the origin of every
  field are proved. The data sets are
  those of section 8.2 of IEEE 1588-2008.
- **/proc and sysfs** (`ProcText`, `ProcLines`, `CpuCollector`, `CpuTheorems`, `MemoryCollector`,
  `NetworkCollector`). The scanner works on byte arrays with loops; the collectors are
  classes with the fields the source updates in place; `NetworkCollector` runs against a
  small model of the descriptor table. Number reading follows [charconv.from.chars] of
  ISO C++17.
- **Time stamps** (`Timestamps`): the conversion every outgoing message uses.

Three properties one might expect turn out false of the code as it stands, and the exact
conditions are proved:

- An offset line of ptp4l or phc2sys is read as what it is exactly if the discarded name before
  `offset` does not by itself spell a summary, that is, does not begin with `rms`, `max`, `freq`,
  `+/-` and `delay`, each followed directly by a number (white space in a format may match
  nothing). `Cascade.OffsetClassified` and `ServoLines.ServoClassified` give the outcome for every
  offset line, `SummaryNames.NameAccepted` shows that the condition on the name is exact,
  `Cascade.NameHidesOffset` builds the failing lines, and `Cascade.OrdinaryName` says that no name
  without the beginning `rms` is affected.
- The busy time of a run of CPU samples is accounted for exactly if no interval with busy time
  in it starts with a total that is 0 modulo 2^64 (`CpuTheorems.BusyTelescopes`, for one interval
  `CpuTheorems.ZeroTotalLosesInterval`): a saved total of 0 also means "no sample yet".
  `CpuTheorems.LostInterval` turns every such interval into a run that loses it.
- A converted time stamp has non-negative nanoseconds exactly from the epoch on or on whole
  seconds (`Timestamps.FromUsExact`), because C++ division truncates toward zero. Every caller in
  `src/adapter.cpp` passes an unsigned 64-bit stamp, so a negative argument arises only from stamps
  of 2^63 and above.

The comment on `findLinePrefix` says the needle is found "at the start of any line"; the code
returns the first such line, and that is what is modelled.

## Model

| member | source | states |
|---|---|---|
| AgentProtocol.NextInv | src/agent.cpp:131-192 | every step of every thread keeps the whole invariant: lock ownership, log accounting, join progress, stop progress |
| AgentProtocol.StepLock | src/agent.cpp:131-156 | a thread is between lock and unlock if and only if it is the recorded owner of the mutex, after every step |
| AgentProtocol.StepFaithful | src/agent.cpp:27-140 | no step of any thread breaks the equation between a reader's logged calls, its in-flight call and the calls of its consumed events |
| AgentProtocol.StepSamples | src/agent.cpp:142-156 | the metrics thread's logged calls plus the one in flight are the samples it took, in order, after every step |
| AgentProtocol.StepMain | src/agent.cpp:158-185 | which threads exist and which have ended follows from how far run() has come |
| AgentProtocol.ExecInv | src/agent.cpp:131-192 | the invariant holds after every schedule |
| AgentTheorems.SafeOnEverySchedule | src/agent.cpp:27-156 | on every schedule at most one thread is inside a send; each reader's log is the handler's filter-map of its consumed events in order but for at most one in flight; likewise the metrics samples; no call in the log has any other origin |
| AgentTheorems.SpendsWithinBudget | src/agent.cpp:131-156 | once the flag is down, log length plus the remaining send budget never grows |
| AgentTheorems.BoundedWorkAfterStop | src/agent.cpp:131-192 | after stop() clears the flag each reader works on at most one more event, the one in hand at that moment or one it takes later; each thread sends at most once more, and all together at most one call per reader thread plus one |
| AgentTheorems.StepDescends | src/agent.cpp:131-192 | with the flag down and each collector told or its reader ended, every enabled step strictly lowers the rank over all program counters |
| AgentTheorems.ScheduleLength | src/agent.cpp:131-192 | a schedule of a stopping agent is no longer than the drop in rank |
| AgentTheorems.SomeoneCanMove | src/agent.cpp:131-185 | until run() has returned some thread has an enabled step: no deadlock |
| AgentTheorems.StoppedRunEnds | src/collector.cpp:139-161 | a stopping agent's schedules are at most 10n + 10 steps long for n collectors, and one that cannot be prolonged has run() returned, the journal wait loop included |
| AgentTheorems.EndOfInputStops | src/agent.cpp:158-185 | without any stop(): once every reader has ended, run() is never held up before it clears the flag, gets there within 2n + 2 of its own steps on every interleaving, and the agent is then stopping in the sense of StoppedRunEnds |
| AgentProgress.NobodyQuits | src/agent.cpp:131-156 | on every schedule a reader that got no more events has ended; before stop() is called no reader has ended for any other reason and the flag is up until all have; the metrics thread has not ended while the flag is up |
| AgentProgress.KeepsReading | src/agent.cpp:131-140 | from any reachable state and on every interleaving, with the flag up a live reader asks for its next event within five steps of its own, having sent the calls of all events it consumed |
| AgentProgress.OnlyTheLockBlocks | src/agent.cpp:131-140 | a live reader waits for nothing but its source and the adapter lock |
| AgentProgress.OneSamplePerSleep | src/agent.cpp:142-156 | never more samples than sleeps, and exactly one per sleep while the metrics thread lives |
| AgentProgress.BackToSampling | src/agent.cpp:142-156 | on every interleaving, with the flag up the metrics thread is within six steps of its own at its next sample |
| AgentProgress.LogSatisfies | src/agent.cpp:27-156 | what holds of every call a handler or the sampler makes holds of every call in the log |
| AgentTheorems.ReturnedIsQuiet | src/agent.cpp:158-185 | when run() has returned all threads are done, the lock is free, nothing is in flight |
| AgentTheorems.LogIsFinal | src/agent.cpp:158-192 | no step after the return of run() extends the log |
| AgentTheorems.ReturnedForGood | src/agent.cpp:158-185 | both of the above on every schedule, whether it ended by end of input or by stop() |
| AgentHandlers.HandlePrinted | src/agent.cpp:27-129 | the call for each kind of printed line, written out: ptp4l metrics as ptp statistics with the line's numbers, stamp, unit and node; transitions as port events with the adapter name exactly if the port name has no slash; foreign masters as nothing; selections as SelectionSays; phc2sys and ppswatch lines as theirs |
| AgentHandlers.SelectionSaid | src/agent.cpp:68-91 | after a selection one snapshot is sent exactly if the feature is on and pmc answered; each field comes from its own reply, and replies that render a snapshot give that snapshot |
| AgentHandlers.Collected | src/ptp_topology.cpp:178-192 | there is a snapshot exactly if the default and parent replies exist and the former names the local clock; each field comes from its own reply |
| AgentHandlers.Ptp4lCallsExactly | src/agent.cpp:30-93 | for arbitrary messages, exactly when the ptp4l handler makes a call at all |
| AgentHandlers.ServoCallsExactly | src/agent.cpp:95-126 | the same for the handlers of phc2sys and ppswatch |
| AgentHandlers.WatchedPrinted | src/agent.cpp:47-56 | the interface the ptp4l handler would watch after a printed port transition is its port, exactly if the port name holds no slash |
| AgentHandlers.ExpectedForPrinted | src/agent.cpp:27-140 | the calls expected for a sequence of printed lines are what the lines say, one by one and in order |
| AgentHandlers.PrintedLinesReachTheAdapter | src/agent.cpp:27-185 | on every schedule of the whole agent that ends with run() returning, a reader fed with printed lines has made exactly the calls the lines say, in order |
| AgentHandlers.CallsHaveTheirSource | src/agent.cpp:27-156 | on every schedule each kind of call in the log is by the reader of its own program, system statistics are by the metrics thread, and all name this node |
| AgentHandlers.KnownCollectorsAreRead | src/agent.cpp:163-170 | once the threads are started, exactly the collectors named ptp4l, phc2sys or ppswatch have a reader |
| Scanf.RunIsRelative | src/collector.cpp:11-41 | for every format and input, old contents of the variables neither influence a scan nor survive where it assigns |
| Scanf.AcceptWritesAll | src/collector.cpp:11-41 | a scan that returns the full count has written every variable of its format and no other |
| Scanf.CountBound | src/collector.cpp:11-41 | the return value lies between 0 and the number of assigning conversions |
| ScanfGrammar.FittingIsMatched | src/collector.cpp:11-106 | a piece of a directive's own shape, not prolonged by what follows, is consumed exactly |
| ScanfGrammar.MatchedFits | src/collector.cpp:11-106 | whatever a directive consumes is such a piece |
| ScanfGrammar.AcceptsWhatIsSpelled | src/collector.cpp:11-106 | for every format and text, the scanner accepts exactly the texts the grammar derives and stores exactly what they spell |
| ParserGrammar.PpsExactly | src/collector.cpp:99-108 | the ppswatch parser accepts exactly the messages its format spells, with the offset they spell |
| ParserGrammar.PortExactly | src/collector.cpp:43-59 | the transition parser accepts exactly the messages with both substrings that its format spells, each field from its own piece |
| ParserGrammar.ForeignExactly | src/collector.cpp:61-76 | the same for the foreign-master parser |
| ParserGrammar.BestExactly | src/collector.cpp:78-95 | the same for the best-master parser: the first format if it is spelled, otherwise the second |
| ParserGrammar.Ptp4lStatsExactly | src/collector.cpp:11-24 | the same for the ptp4l metrics parser |
| ParserGrammar.Phc2SysStatsExactly | src/collector.cpp:26-41 | the same for the phc2sys metrics parser |
| ParserGrammar.ClassifiedExactly | src/agent.cpp:30-93 | every message is classified as the kind of the first parser in the cascade whose text it is, and as unhandled exactly if it is none's |
| Scanf.ScanStamp | src/collector.cpp:14-15 | `[%lf]` consumes exactly a bracketed fixed-point time stamp, whatever follows |
| Scanf.ScanKeyed | src/collector.cpp:14-21 | a key and number conversion reads back any printed integer with any padding and sign style, and stops behind it |
| ScanfSuffix.AcceptStable | src/collector.cpp:11-41 | any accepting format that ends in a number gives the same result on longer text that does not go on with a digit |
| ScanfSuffix.RejectStable | src/collector.cpp:11-41 | a format without a letter that the text contains stays rejecting under any appended text |
| ScanfSuffix.RejectBeforeLetter | src/collector.cpp:11-41 | an incomplete scan stays incomplete when blanks and a letter foreign to the format follow |
| MetricsSuffix.Ptp4lStatsAreFresh | src/collector.cpp:11-24 | the ptp4l result is as if each format had its own zeroed struct: nothing a failed first format wrote survives, and a summary line reports state 0 |
| MetricsSuffix.Phc2SysStatsAreFresh | src/collector.cpp:26-41 | the same for phc2sys |
| MetricsSuffix.Ptp4lMetricsStable | src/collector.cpp:11-24 | an accepted ptp4l line gives the same result after appending any text that does not start with a digit |
| MetricsSuffix.Phc2SysMetricsStable | src/collector.cpp:26-41 | the same for phc2sys |
| Cascade.RmsParses | src/collector.cpp:14-18 | a printed summary line gives max, freq and delay, state 0 |
| Cascade.OffsetParses | src/collector.cpp:19-22 | a printed offset line gives all four numbers although the summary format was tried first |
| Cascade.OffsetReadAsSummary | src/collector.cpp:14-22 | the summary format accepts an offset line if and only if it accepts the source name alone |
| SummaryNames.NameAccepted | src/collector.cpp:14-18 | a word satisfies the summary format if and only if it begins with rms, max, freq, +/- and delay, each followed directly by a number |
| SummaryNames.SpellingIsRead | src/collector.cpp:14-18 | what the summary format reads from such a word: the numbers behind max, freq and delay |
| Cascade.OffsetClassified | src/collector.cpp:11-24 | the outcome of the cascade for every offset line: its own numbers if its source name spells no summary, otherwise the numbers spelled in the name |
| Cascade.NameHidesOffset | src/collector.cpp:14-18 | for every word that spells a summary and has no blanks, the offset line with that source name is accepted as that summary, and misread whenever its servo state is not 0 |
| Cascade.OrdinaryName | src/collector.cpp:14-18 | a name that does not begin with rms never spells a summary |
| Cascade.PortParses | src/collector.cpp:43-59 | a printed port transition gives number, name, both states and the trigger |
| Cascade.ForeignParses | src/collector.cpp:61-76 | a printed foreign-master line gives port, name, identity and master port |
| Cascade.ForeignIsNotPort | src/collector.cpp:43-59 | the transition parser rejects every printed foreign-master line |
| Cascade.BestParses | src/collector.cpp:78-88 | a printed best-master line gives the identity |
| Cascade.LocalParses | src/collector.cpp:78-95 | a printed local-clock selection fails the first format and gives the identity through the second |
| Cascade.SelectedIsNotEarlier | src/agent.cpp:31-67 | all three earlier parsers reject every printed selection line |
| Cascade.NotMetrics | src/collector.cpp:11-24 | neither metrics format accepts a line whose first word does not start with r and whose second does not start with o |
| Cascade.CascadeInvertsPrinting | src/agent.cpp:30-93 | printing any well-formed line of the six kinds and running the cascade gives back its kind and every field |
| ServoLines.ServoClassified | src/collector.cpp:26-41 | what the parser makes of every printed phc2sys summary or offset line: its own numbers, or, if the name before `offset` spells a summary, the numbers in that name |
| ServoLines.PpsRoundTrip | src/collector.cpp:99-106 | printing any ppswatch line and parsing it gives back its offset |
| Topology.Parse | src/ptp_topology.cpp:89-172 | the loops compute Snap, the fold of the four texts that the next four rows speak of |
| TopologyFields.SnapshotExists | src/ptp_topology.cpp:99-104 | for arbitrary texts there is a snapshot if and only if the last clockIdentity entry of the default text exists and has a first token |
| TopologyFields.SnapshotFields | src/ptp_topology.cpp:99-172 | for arbitrary texts each field comes from the last entry that can be used for it; a parent identity without a readable number and an unreadable count leave the earlier value |
| TopologyFields.NoiseGivesNothing | src/ptp_topology.cpp:168-170 | a default text of skipped lines alone gives no snapshot |
| TopologyFields.OnlyTheFirstToken | src/ptp_topology.cpp:24-29 | of every value only the first token counts |
| Topology.ReadDefault | src/ptp_topology.cpp:99-104 | the first loop is the fold of the default data set's entries |
| Topology.ReadParent | src/ptp_topology.cpp:106-120 | the second loop is the fold of the parent data set's entries; an unreadable port number keeps the old one |
| Topology.ReadCurrent | src/ptp_topology.cpp:122-136 | the third loop is the fold of the current data set's entries |
| TopologyPorts.LoopKeepsPorts | src/ptp_topology.cpp:138-159 | after every line the block under construction is the last, and the flushed blocks are the others, of one port per portIdentity entry so far, each with the last portState of its own block |
| Topology.ReadPorts | src/ptp_topology.cpp:138-159 | the fourth loop and the final flush give the flushed fold |
| Topology.ChildPort | src/ptp_topology.cpp:161-166 | the number of the first SLAVE port, or 0 if there is none |
| TopologyPorts.SplitPortIdentity | src/ptp_topology.cpp:48-68 | for every blank-free identity, dashes included, splitting `identity-number` gives back the identity, and the number if it is below 2^31, otherwise none |
| TopologyPorts.NoPortNumber | src/ptp_topology.cpp:48-68 | without a dash, or with nothing behind the last one, there is no number |
| TopologyPorts.StoiExactly | src/ptp_topology.cpp:54-58 | a number is read if and only if the text is white space, a number that fits an int, and anything that does not prolong it |
| TopologyPorts.PortsOfBlocks | src/ptp_topology.cpp:138-159 | one port per portIdentity entry, in order, each with the last portState of its own block |
| TopologyPorts.SnapshotPorts | src/ptp_topology.cpp:138-172 | the same for the whole parser, and the child port is the first SLAVE of that list |
| TopologyPorts.LinesConcat | src/ptp_topology.cpp:140 | the lines of newline-ended text followed by more text are the lines of both |
| TopologyPorts.LinesExactly | src/ptp_topology.cpp:100 | the lines are the newline-free parts of a text, an unterminated last part included |
| TopologyPorts.PortTextsConcatenate | src/ptp_topology.cpp:138-159 | appending text whose first recognised key is portIdentity to newline-ended text concatenates the port lists |
| TopologyRoundTrip.KeyValueLine | src/ptp_topology.cpp:15-46 | an entry printed with any padding is parsed into its key and value |
| TopologyRoundTrip.ParsedParts | src/ptp_topology.cpp:31-46 | for any line, the key is its first token and the value the trimmed rest |
| TopologyRoundTrip.NoiseLines | src/ptp_topology.cpp:31-46 | a line is without effect on a data set if and only if its first token is not one of the set's keys or only margin follows it; blank lines, `sending:` lines and the header line of a reply are among these |
| TopologyRoundTrip.RowsFold | src/ptp_topology.cpp:89-159 | with any such lines woven in, only the entries of the data set count |
| TopologyRoundTrip.FoldPorts | src/ptp_topology.cpp:138-159 | rendering any list of ports and folding it gives back the list |
| TopologyRoundTrip.RoundTrip | src/ptp_topology.cpp:15-172 | rendering any snapshot into the four texts with any skipped lines and parsing them gives back every field; a missing current data set reads as no steps and no delay |
| ProcText.FindLinePrefix | src/system_metrics.cpp:31-46 | the byte loop computes the first line-start occurrence |
| ProcText.LinePrefixExact | src/system_metrics.cpp:31-46 | the result is p if and only if the key ends at p at a line start with no earlier such place; null if and only if there is none |
| ProcText.TruncatedPrefix | src/system_metrics.cpp:31-46 | on a truncated text the result is the same position or null |
| ProcText.PrefixBehind | src/system_metrics.cpp:31-46 | lines in front that do not start with the key only shift the position |
| ProcText.ParseNext | src/system_metrics.cpp:49-59 | skips spaces only, reads a maximal digit run below 2^64, and on failure leaves the target as it was |
| ProcText.ReadField | src/system_metrics.cpp:361-366 | the number behind the first line with the key, 0 if absent or unreadable |
| ProcLines.ShownField | src/system_metrics.cpp:361-366 | a number printed on the first line with the key, among any other lines, is what the field reads |
| ProcText.PrintedNumber | src/system_metrics.cpp:49-59 | a printed number is read back exactly below 2^64 and refused from there on |
| ProcText.ReadArePieces | src/system_metrics.cpp:49-59 | numbers read one after the other are maximal digit runs separated by spaces and nothing else |
| ProcText.ReadOnOneLine | src/system_metrics.cpp:295-299 | they all stand on one line, at least one space apart |
| ProcText.NumbersRoundTrip | src/system_metrics.cpp:49-59 | printing any numbers below 2^64 with spaces between them and reading gives them back |
| CpuCollector.ParseTimes | src/system_metrics.cpp:297-299 | the chain of eight reads gives all eight counters or nothing |
| CpuCollector.Collector.Collect | src/system_metrics.cpp:280-333 | the statistics of the visible text against the saved counters, and the new saved counters |
| CpuCollector.Collector.Account | src/system_metrics.cpp:300-311 | usage against the saved sample modulo 2^64, which the new sample replaces |
| CpuTheorems.DeltasAreTrue | src/system_metrics.cpp:300-305 | the deltas modulo 2^64 are the true deltas even when a sum wrapped |
| CpuTheorems.UsageIsPercentage | src/system_metrics.cpp:300-308 | with growing counters every usage lies in [0, 100] |
| CpuTheorems.UsageIsBusyShare | src/system_metrics.cpp:303-308 | it is the exact busy share of the interval |
| CpuTheorems.UsageExact | src/system_metrics.cpp:302-308 | usage is 0 on the first sample, after a total of 0 modulo 2^64 and without elapsed time; otherwise its product with the elapsed time is a hundred times the busy time |
| CpuTheorems.SavedIsLastGood | src/system_metrics.cpp:295-312 | after any run of good and malformed texts the saved counters are those of the last good one |
| CpuTheorems.UsageInRange | src/system_metrics.cpp:295-312 | every usage along any such run lies in [0, 100] |
| CpuTheorems.Watch | src/system_metrics.cpp:280-333 | a collector over any sequence of failed, empty, malformed and good reads reports for each the statistics against the last good sample, always a percentage |
| CpuTheorems.BusyTelescopes | src/system_metrics.cpp:297-311 | over any run with growing counters and any malformed texts in between, the busy deltas add up to at most last busy minus first busy, and to exactly that if and only if every interval starts with a total that is not 0 modulo 2^64 or has nothing busy in it |
| CpuTheorems.LostInterval | src/system_metrics.cpp:302-303 | every interval that fails that condition is lost by an actual run of two printed samples |
| CpuTheorems.ZeroTotalLosesInterval | src/system_metrics.cpp:302-303 | an interval is accounted for if and only if the earlier total is not 0 modulo 2^64 or nothing was busy |
| CpuTheorems.CpuFieldsOnOneLine | src/system_metrics.cpp:295-299 | when the parse succeeds all eight numbers stand on the key's own line as maximal digit runs at least one space apart |
| CpuTheorems.CpuLineRoundTrip | src/system_metrics.cpp:295-299 | printing any eight uint64 counters as a cpu line, behind any lines that do not start with the key, and parsing gives them back |
| CpuTheorems.CollectStat | src/system_metrics.cpp:280-333 | from a stat text with the cpu, ctxt, intr and softirq lines among any others, the collector reports the three totals in their own fields, the usage against the saved sample, and saves the new one |
| MemoryCollector.Collector.Collect | src/system_metrics.cpp:348-380 | the five fields of the visible text, or nothing if the file cannot be read |
| MemoryCollector.CollectMeminfo | src/system_metrics.cpp:348-380 | from a meminfo text with the five lines among any others, the collector reports the five values, each in the field of its own key |
| ProcLines.FieldOfLines | src/system_metrics.cpp:31-59 | a field is the number on the first line that starts with its key |
| ProcLines.FieldInPermuted | src/system_metrics.cpp:361-372 | with no two different lines for the key, the order of the lines does not matter |
| MemoryCollector.PermutedMeminfo | src/system_metrics.cpp:348-380 | permuting the lines of a text that fits the buffer leaves the statistics unchanged |
| NetworkCollector.Collector.CloseFds | src/system_metrics.cpp:212-219 | closes each held descriptor once and touches no other |
| NetworkCollector.Collector.SetInterface | src/system_metrics.cpp:221-234 | all entries point at the new interface's files in table order; the old descriptors are closed; an entry holds -1 if and only if its file cannot be opened, and an open descriptor on that file otherwise |
| NetworkCollector.Collector.Collect | src/system_metrics.cpp:236-265 | all seven counters, each in its own field, or nothing |
| NetworkCollector.WatchInterface | src/system_metrics.cpp:221-265 | setInterface then collect: if all seven files can be opened and show printed counters, those counters in their own fields; if one cannot be opened, nothing |
| NetworkCollector.Collector.Destroy | src/system_metrics.cpp:210 | no descriptor is left and nobody else's is touched |
| NetworkCollector.Use | src/system_metrics.cpp:208-265 | after any sequence of calls, with opens failing and files changing arbitrarily, the collector's open descriptors are exactly its entries' ones, pairwise distinct and at most seven, opens and closes balance with what it owns, and nobody else's descriptors changed |
| NetworkCollector.Session | src/system_metrics.cpp:208-265 | from construction to destruction there are as many closes as opens and the descriptor table ends as it began |
| NetworkCollector.FdsOpen | src/system_metrics.cpp:221-234 | held descriptors are open, never -1, and no more than entries |
| NetworkCollector.PrintedCounter | src/system_metrics.cpp:249-256 | every value below 2^64 with its newline fits the 31-byte read and is read back; every larger one is refused |
| Timestamps.FromUsExact | include/timestamp_utils.h:25-30 | seconds and nanoseconds together are the input exactly; nanoseconds are non-negative exactly from the epoch on or on whole seconds |
| Timestamps.FromUsKeepsOrder | include/timestamp_utils.h:25-30 | earlier microseconds give earlier time stamps and only those |

## Left out

- ZMQ sockets, protobuf serialization and the field-copying converters of `src/adapter.cpp`: foreign calls and easy members; the adapter is a log of calls.
- `NetworkAdapterResolver`: ioctl and libpci calls; its result is an arbitrary string that arrives with the event.
- YAML loading and `main`: field copying and process wiring.
- Process launching, `pmc` execution and the subprocess stream: their outputs, or failures, are inputs of the model. That an empty line ends the stream is covered by the `Ended` answer only.
- hwmon and temperature zones: directory iteration in unspecified order.
- Logging, and with it `Phc2SysParser::isWaiting`, whose answer only selects a log message.
- Floating-point rounding: CPU usage is an exact real number. `llround(stod(.))` is a function parameter of the topology parser, assumed exact only on whole numbers below 2^53 in magnitude.
- scanf: integers are unbounded in the interpreter, so the line theorems are about values in the range of the C variables (a number spelled in a source name is not restricted and stands for what the digits say); hexadecimal, infinite and not-a-number spellings of `%lf` are not accepted; a return value of -1 at the end of input is not told apart from 0, which no caller does either.
- Bytes are characters; there is no encoding.
- The agent's threads: a step system on values rather than objects on the heap. One `run()` of an agent and one `stop()` during it; a `stop()` before `run()` sets the flag is overwritten by it, so schedules start behind that store.
- AgentHandlers.WatchedPrinted: says which interface would be watched; the call of setInterface itself is not a step of the system, because the class is not tied into it.
- The race of `setInterface` (ptp4l handler) with `collect` (metrics thread), which share no lock in the source: `NetworkCollector` is used by one caller at a time here.
- `/proc` files: a read is a parameter, the text the file shows at that moment (a short read is a shorter text) or None for an error. A descriptor of the CPU and memory collectors is a flag that says whether the open succeeded.
- Whether an open of a statistics file succeeds is decided by a set of paths that can change between calls but not during one; the seven paths of one call differ, so every outcome of its seven opens is covered.
- What the metrics thread samples stands for itself as a number; the contents of the samples are the collectors' theorems.
- The clock: snapshot and sample times are not part of the values compared.
