# nix-capsule: verified model

nix-capsule runs commands of a host shell inside a container. A client (`ncap`) opens one Unix-socket connection per
command to a server (`ncap-server`) that is the container's init process; a control program (`ncap-ctl`) starts the
container, keeps an environment cache fresh, prints exports for the shell and follows the server's logs.

This project models the parts of it whose correctness is not visible from one function body, and proves what they
promise for all inputs, all runs and all interleavings:

| file | what it is about |
|---|---|
| `Protocol.dfy`, `Framing.dfy` | the frame codec: one frame, streams of frames, typed messages |
| `ServerConnection.dfy`, `ServerProtocol.dfy` | `handle_conn` and `bridge` as a reactive task; what every run of it keeps |
| `ServerRuns.dfy` | what the environment did to that task, and that its trace, its end and its report are exactly what that calls for |
| `ClientSession.dfy` | `session`, and how its outcome is decided |
| `Pumps.dfy` | the two pipe-reading loops over one reused buffer |
| `Link.dfy`, `ExecConnection.dfy` | one direction of a socket; the whole connection: child, pipes, pumps, channel, server, socket, client, stdin pump |
| `ExecSafety.dfy`, `ExecInput.dfy` | the invariants of the whole connection |
| `ExecTheorems.dfy`, `ExecOutcome.dfy` | the end-to-end theorems: what is relayed, and where an outcome comes from |
| `ExecTasks.dfy` | that either task, inside a connection, is a run of that task alone |
| `ExecRuns.dfy` | that every exchange can happen: runs put together from legs |
| `Shutdown.dfy` | accepting, registering, stopping and draining connections |
| `Calendar.dfy`, `Decimal.dfy` | the UTC timestamp of log lines |
| `RequestEnv.dfy` | the environment of a request, from client flags to the child |
| `Expansion.dfy` | `$NAME` and `${NAME}` in option values |
| `Quoting.dfy` | single-quoted shell text, read back by a shell lexer |
| `LogNames.dfy`, `LogFollow.dfy` | log file names and the scan; `log --follow` |
| `Digest.dfy`, `Cache.dfy` | the freshness digest; refreshing the cache, possibly cut short |
| `Sorting.dfy`, `Wrappers.dfy` | stable sorting; `Option` and `Result` |

## How concurrency is modelled

An async function is a task that reacts to inputs: an input is what a pending await or `select!` branch resolves to,
and a reaction is the code up to the next await, with at most one visible effect. `ServerConnection.React` and
`ClientSession.React` are these reactions; the classes `ConnectionTask` and `SessionTask` are the same tasks with the
source's own mutable locals, proved to do exactly that. `ExecConnection.Next` puts the tasks, the pumps, the child and
both directions of the socket side by side; every list of steps is a run, and a step that is not enabled changes nothing,
so a property of `Execute` for all lists of steps holds for every interleaving.

Assumed of the environment, and written into the steps or named as a hypothesis:

- a socket write that has failed fails for good; a pipe delivers bytes in order; the stop flag never goes back;
- the framed socket yields one error or end, and an error if the stream ends inside a frame (the default of `tokio-util`);
- `Protocol.Faithful`: the JSON layer reads back what it wrote, only yields the shape it was asked for, and a `Signal`
  object fits into a frame;
- a read fills at most the 8 KiB buffer (`Pumps.Fits`); a directory lists each name once (`LogFollow.Listing`); log files
  only grow while they exist, and a name is not given to other contents later (`LogFollow.Evolves`).

## Where the code and its documentation differ

The model follows the code.

- `spec/protocol.md:58-65` speaks of exactly one terminal frame. A finished connection that read a request has said exactly
  one if and only if no output frame failed to be sent (`ServerProtocol.ExactlyOneTerminal`); a failed notice, or the failed
  send of the terminal frame itself, makes no difference to that. Without a request there is none for a version probe, a
  shutdown or a client that left (`ServerProtocol.WithoutRequest`).
- `ServerStopping` can be sent twice on one connection: once by the bridge and once while waiting for the child, because a
  fresh clone of the stop flag resolves at once (`ServerProtocol.TwoNotices`). `ServerProtocol.Grammar` therefore says "at
  most two".
- The comment at `src/ctl/digest.rs:51` calls the cache `Missing` when no hash is stored; the code answers `Missing` when
  there is no env dump, and `Stale` when there is one without a readable hash.
- A changed watched file is said to flip the digest. Two changes at once can cancel out (`Digest.TwoFilesCanCancel`),
  because contents are not length-prefixed. The hashed stream tells every change, of any number of files, if no entry and
  none of the files before the change holds a NUL byte (`Digest.StreamTellsEveryChange`), and it always tells the change of
  one file (`Digest.OneFileChanges`).
- A cache refresh that is cut short is meant to be repeated. It need not be if a digest was left over without a dump
  (`Cache.TornDumpCountsAsFresh`), or if the watched files were different while it ran and are changed back
  (`Cache.ChangedBackCountsAsFresh`); `Cache.StoppedIsFreshIff` gives the exact condition.
- A forwarded variable name that contains `=` is split in the wrong place by the server; `RequestEnv.PairsSurvive` says
  that this is the only way a pair gets lost.

## Model

| member | source | states |
|---|---|---|
| Protocol.TagsInverse | src/protocol.rs:43-66 | reading a tag byte and writing a frame type are inverse to each other, unknown bytes being exactly those no type is written as |
| Protocol.BigEndianInverse | src/protocol.rs:335-347 | the four length bytes written for any length below 2^32 read back as that length; a length of one byte is written as three zeros and that byte |
| Protocol.BigEndianUnique | src/protocol.rs:302-312 | four length bytes are the ones that would be written for the length they are read as |
| Protocol.BigEndianOrder | src/protocol.rs:302-312 | the first of the four bytes in which two lengths differ decides which is greater |
| Protocol.FrameBuffer.Decode | src/protocol.rs:315-333 | on the buffer in place: nothing is consumed when a frame is incomplete or wrong, exactly one frame is when it is there, and then the buffer is strictly shorter |
| Protocol.FrameBuffer.Encode | src/protocol.rs:335-347 | appends exactly the frame's encoding, or refuses a payload above 16 MiB and appends nothing |
| Protocol.MessageRoundTrip | src/protocol.rs:169-232 | a message becomes a frame exactly if it is not an `Exit` with both fields set and the serializer has a text for it where it needs one; and then it comes back out of that frame |
| Protocol.FramesOf | src/protocol.rs:169-194 | refused are exactly the `Exit` with both fields set and the struct message without a text; every other message becomes the frame of its type, with its bytes, its text or nothing as payload |
| Protocol.WireTags | src/protocol.rs:17-41 | the tag byte of each of the eleven messages, followed by the length of the payload and the payload |
| Protocol.FrameErrors | src/protocol.rs:197-232 | for every frame type and payload, the message or the error it is decoded as |
| Protocol.FromFrameSound | src/protocol.rs:197-232 | a decoded message has the frame's type, never is an `Exit` with both fields, and comes from an empty payload where the protocol says so |
| Framing.GotIffEncoding | src/protocol.rs:302-332 | a frame is found exactly when the buffer starts with that frame's encoding |
| Framing.ScanStable | src/protocol.rs:302-332 | a frame or an error, once found, is not changed by bytes that arrive later |
| Framing.BadIffHeader | src/protocol.rs:299-312 | an error depends on the five header bytes only: a length above 16 MiB, which is reported first, or a tag of no frame type |
| Framing.ChunkAgnostic | src/protocol.rs:315-332 | for every stream and every way to cut it, decoding piece by piece yields the same frames and the same error or leftover as decoding it whole |
| Framing.FrameStream.Receive | src/protocol.rs:315-332 | the loop that appends a chunk and decodes until nothing comes does what feeding that chunk is specified to do |
| Framing.RoundTrip | src/protocol.rs:298-347 | any list of frames within the cap decodes back to itself with nothing left over |
| Framing.EncodedThen | src/protocol.rs:298-347 | encoded frames followed by any bytes decode to the frames followed by what the bytes decode to |
| Framing.PrefixDecodes | src/protocol.rs:298-347 | any byte prefix of an encoded list decodes without error to a prefix of the list, and the leftover is what has arrived of the next frame |
| Framing.DecodedIsEncoded | src/protocol.rs:315-347 | conversely every stream is the encodings of the frames it yields, followed by its leftover or by the bytes of the error |
| ServerConnection.ConnectionTask.OnFirst | src/server.rs:285-336 | the first frame: version probe, request, anything else, an undecodable one, an early close, or the shutdown |
| ServerConnection.ConnectionTask.CheckEnv | src/server.rs:357-374 | finds the first env entry without `=`, if there is one |
| ServerConnection.ConnectionTask.OnLaunch | src/server.rs:343-420 | directory check, env check and spawn, each failure with its own reply, in that order |
| ServerConnection.ConnectionTask.OnClientFrame | src/server.rs:509-545 | the client's frames in the bridge: stdin data, stdin end, signals, ignored ones, and the undecodable one that ends it |
| ServerConnection.ConnectionTask.OnBridge | src/server.rs:499-569 | one turn of the bridge's `select!` over output, client frames, end of client writes and shutdown |
| ServerConnection.ConnectionTask.OnSendDone | src/server.rs:421-566 | what follows a send that returned, well or badly, at each place that sends |
| ServerConnection.ConnectionTask.OnWaitDone | src/server.rs:426-476 | what follows the end of the wait for the child, in each of the three waits |
| ServerConnection.ConnectionTask.Drive | src/server.rs:285-569 | a whole run of the task over its mutable locals is the play of the reactions |
| ServerProtocol.ReactIsEdge | src/server.rs:285-569 | every reaction is an edge of the control graph: from which state, by which effect, to which state |
| ServerProtocol.FrameGrammar | src/server.rs:285-477 | at every point of every run the frames sent are one version reply, or output with at most two `ServerStopping` and after it at most one terminal frame, the last; without a request at most one frame |
| ServerProtocol.ExactlyOneTerminal | src/server.rs:333-476 | a finished run that read a request said exactly one terminal frame, as its last, if and only if no output frame failed to be sent, with no assumption on any other send |
| ServerProtocol.TwoNotices | src/server.rs:428-437 | the bound of two `ServerStopping` is met: a run in which a shutdown seen by the bridge is announced again during the wait |
| ServerProtocol.ChildIsReaped | src/server.rs:421-566 | in every run the child is awaited at most once and never signalled afterwards, each shutdown TERM directly follows the attempt to announce it, a failed bridge leads to TERM and then the wait, a dropped stdin pipe is never written again; a finished run awaited the child it started |
| ServerProtocol.AnnouncedThenTermed | src/server.rs:421-566 | in every run nothing but the TERM of the group ever follows a `ServerStopping` |
| ServerProtocol.WithoutRequest | src/server.rs:285-336 | a connection whose first event is not a request says one thing whatever comes later, and starts no child: the version, the shutdown, the error named in full, or nothing to a client that left |
| ServerProtocol.RefusedRequest | src/server.rs:343-420 | a request whose launch fails gets its one reply and no child, whatever comes later |
| ServerRuns.TraceIsHistory | src/server.rs:484-569 | for every list of events: the task says as many notices as a `select!` saw the shutdown, exactly the output that was queued, writes exactly the stdin chunks that came while the pipe was open, relays exactly the signals that came, all in order; and its three flags are what happened |
| ServerRuns.HowItEnds | src/server.rs:421-476 | every finished run with a child, by the first event that ended its bridge: all output relayed leads to the wait and then the report of its answer, for each kind of status and for a failed wait, with or without a late notice; an undecodable frame to its error, TERM and the wait; a lost output frame to TERM and the wait |
| ServerRuns.ErrorsOfARun | src/server.rs:421-476 | a run whose child was started says an error only if a frame could not be read or decoded, or the wait failed, and then that error |
| ServerRuns.ChildIffLaunched | src/server.rs:343-420 | for every continuation, a child is started exactly if the directory is one, every env entry has its `=` and the spawn worked; otherwise the one reply is that of the first of these that failed, naming the first bad entry by index |
| ServerRuns.NeverStuck | src/server.rs:285-569 | from every state of the task there are answers of the environment, none of them a failed send or write, that bring it to its end |
| ClientSession.SessionTask.OnFrame | src/client/mod.rs:179-207 | what each received frame does: output, the three verdicts, the ignored ones, an undecodable one, a failing terminal write |
| ClientSession.SessionTask.OnSelect | src/client/mod.rs:208-240 | the other branches of the client's `select!`: close, stdin data and end, the two signals |
| ClientSession.SessionTask.Drive | src/client/mod.rs:124-243 | a whole session over its mutable locals is the play of the reactions |
| ClientSession.FirstVerdictDecides | src/client/mod.rs:174-243 | for every list of inputs from the pump without a failed send, handler or terminal write of the client, where a failed send of the end of stdin does not count: outcome and output are those of the stream up to its first decisive arrival, however stdin and signals interleave |
| ClientSession.EndsLocallyIff | src/client/mod.rs:208-240 | a session ends by a failure of its own exactly if its request, a chunk or a signal could not be sent, a handler was missing, or the terminal did not take its output; a failed send that ended it was never that of the end of stdin |
| ClientSession.SendsWhatComes | src/client/mod.rs:208-240 | for every list of inputs the session sends its request and then exactly what came in while it looped, in order: host stdin up to its end, marked once, and each of the two signals until its stream ends |
| ClientSession.NeverStuck | src/client/mod.rs:124-243 | from every state a session can be brought to its end without a failure of its own |
| ClientSession.ExitOutcomes | src/client/mod.rs:358-372 | the code of an `Exit`, 128 plus its signal, or no outcome if it has neither; the notice of 127, the notice of 126, and none otherwise |
| ClientSession.OtherOutcomes | src/client/mod.rs:178-214 | 143 on a notice and at the end of the stream, 1 on every failure |
| ClientSession.NothingAfterVerdict | src/client/mod.rs:178-214 | what arrives after the first verdict changes nothing |
| ClientSession.NeutralFrames | src/client/mod.rs:198-205 | inserting a frame that is neither output nor decisive, anywhere, changes nothing |
| ClientSession.NeutralKinds | src/client/mod.rs:198-205 | those frames are exactly the version frames and the four only clients send |
| Pumps.PumpOutput | src/server.rs:590-607 | the loop over one reused buffer queues exactly the chunks read up to the end or a fault, until the receiver is gone |
| Pumps.PumpStdin | src/client/mod.rs:334-353 | the same for host stdin, where an interrupted read is retried and the end is marked |
| Pumps.Pipe.ReadInto | src/server.rs:596-600 | a read overwrites the front of the buffer and leaves older bytes behind it |
| Pumps.QueuedIsArrived | src/server.rs:590-607 | the queued chunks spell a prefix of what the pipe delivered, and all of it unless the receiver went away |
| Pumps.EndMarkerIsLast | src/client/mod.rs:334-353 | the end marker comes last and behind every byte that was read |
| Pumps.NoEmptyChunk | src/client/mod.rs:338-349 | no queued chunk is empty, so none is taken for the end of stdin |
| Link.Receive | src/protocol.rs:298-347 | across buffers and a socket that move any number of bytes, what the receiver decodes next is the next message sent, and its decoder never fails |
| Link.PushIntact | src/protocol.rs:335-347 | handing a message to the encoder keeps the link exactly the encoding of the messages under way |
| ExecTheorems.ReceivedIsSaid | src/server.rs:285-569 | in every reachable state of the whole connection the client has taken a prefix of what the server sent, following the grammar, and both decoders only ever find the next frame sent |
| ExecTheorems.NoSpoiledFrame | src/client/mod.rs:178-214 | a client that fails on receiving did so because the socket read failed, never because of a frame |
| ExecTheorems.OutputRelay | src/server.rs:484-607 | in every reachable state the terminal shows a prefix of the bytes read from the child's pipe; after an `Exit` frame all of them, and, unless reading failed, everything the child ever wrote there |
| ExecTheorems.InputRelay | src/server.rs:509-555 | in every reachable state the child was given a prefix of the host stdin bytes the client read, all of them if an empty `Stdin` frame closed the pipe; signals delivered are an in-order prefix of those relayed |
| ExecTheorems.ExitIsFaithful | src/server.rs:453-462 | a client that ends on the `Exit` of a started child reports that child's code, or 128 plus its signal, and the child was awaited |
| ExecTheorems.FailedLaunchCodes | src/client/mod.rs:358-372 | for every continuation of the server's run after a failed launch, a client that takes what it said ends with 127 or 126 exactly if directory and environment passed and the command was missing or not permitted, and with 1 otherwise |
| ExecOutcome.AcceptedIsSent | src/server.rs:285-336 | in every run of the whole connection the request the server accepts is the one the client sent |
| ExecOutcome.ExitWithoutChild | src/server.rs:384-419 | in every run, a client that ends on an `Exit` although no child was started ends with 127 or 126, its request had a good environment, and the system had answered the launch in the directory with that very failure |
| ExecOutcome.OtherVerdicts | src/client/mod.rs:178-214 | in every reachable state, an error reported is the one the server said; leaving with 143 on a notice means the shutdown was signalled; leaving with 143 on the end of the stream means no decisive frame was taken and the other side was over |
| ExecTasks.ServerIsARun | src/server.rs:285-569 | in every run of the whole connection the server task is a run of the task alone, its waits, launches, read failures and notices being steps that were made, so that the theorems about all runs of the task hold of connections |
| ExecTasks.LastWord | src/server.rs:421-476 | in every run, a finished task that relayed all output said last the report of the status its child ended with, or that the wait failed, and then a wait did fail |
| ExecTasks.ErrorAfterStart | src/server.rs:421-545 | in every run, a client that reports an error although the child was started was told that the connection could not be read, after a read that failed or ended inside a frame, or that the wait failed, after a wait that did |
| ExecTasks.ClientIsARun | src/client/mod.rs:124-243 | the same as the first of these for the client session |
| ExecTasks.FailedSendEnds | src/client/mod.rs:208-240 | in every run, a client that ends on a failed send had one, and it was not that of the end of stdin |
| ExecTasks.RequestIsOnTheWire | src/client/mod.rs:150-151 | a request that has a text within the cap is on the wire from the start, as one frame |
| ExecRuns.EveryExchangeHappens | src/server.rs:484-607 | for every sendable request, every list of output chunks, stdin chunks, signals and an end of stdin, and every status: there is a run in which all of it arrives, in order and complete at each end, and the client ends on the report of that status |
| ExecRuns.ShutdownReachesBoth | src/server.rs:546-566 | behind any such exchange a shutdown can reach both ends: the client has shown all output and leaves on the notice, and the child is sent TERM |
| ExecRuns.DisconnectIsCleanedUp | src/server.rs:421-554 | behind any such exchange, if the client is killed, the run can end with the child's pipe closed, TERM sent and the child awaited, although its next output got nowhere |
| ExecTheorems.InvariantNext | src/server.rs:484-607 | every step of every part of the connection keeps the invariant from which the theorems on reachable states follow |
| Shutdown.ServerRun.AcceptorStep | src/server.rs:267-283 | accepting, spawning and registering as the acceptor changes the shared state |
| Shutdown.ServerRun.RunnerStep | src/server.rs:66-94 | signal, broadcast, abort, join, taking the handles, awaiting them, timeout and removing the socket |
| Shutdown.ServerRun.Drive | src/server.rs:47-94 | a whole interleaving over the mutable state is the run of the steps |
| Shutdown.NoConnectionIsLost | src/server.rs:66-82 | for every interleaving the handles taken are those of every connection ever spawned, each once; none is spawned afterwards; the stop flag is up and stays up |
| Shutdown.SocketGoesLast | src/server.rs:83-94 | when the socket file is gone the stop was announced and the acceptor is over, and unless the drain timed out or had no time, every connection has run to its end |
| Shutdown.EndsInTime | src/server.rs:66-94 | from every point of every run at which the drain has not timed out it can still end in time with the socket removed and every connection finished; once the stop is announced, the acceptor over and no connection running, by the runner's own steps |
| Calendar.CivilCorrect | src/server.rs:711-734 | for every day count of a `u64` second the closed form, computed in machine integers without overflow, is a valid date whose day count is the input |
| Calendar.SteppingCounts | src/server.rs:711-734 | the days-from-date count of the n-th day after 1970-01-01, stepping a calendar day by day, is n |
| Calendar.ClosedFormIsStepping | src/server.rs:711-734 | the closed form is the date a calendar stepped day by day reaches, and the only valid date with that count |
| Calendar.SplitEraCorrect | src/server.rs:718-722 | the era formula yields the year of the era and a day that exists in that year, leap rule included |
| Calendar.InstantInverts | src/server.rs:711-745 | the instant computed is valid and its second count is the input |
| Calendar.InstantsAscend | src/server.rs:711-745 | a later second is a later instant, compared field by field |
| Calendar.DatesAreSane | src/server.rs:711-745 | month, day in month, hour, minute and second are in range, and the year is at least 1970 |
| Calendar.TextReadsBack | src/server.rs:736-745 | up to the year 9999 the text is a `date-time` of section 5.6 of RFC 3339 that reads back as the instant |
| Calendar.TwentyCharacters | src/server.rs:736-745 | the text has the 20-character form exactly for the seconds before the year 10000 |
| Decimal.PaddedMeaning | src/server.rs:736-745 | zero padding keeps the value, never cuts, and meets the width exactly when the value fits |
| RequestEnv.EntryList.Apply | src/client/mod.rs:325-332 | in place: the value of a key that is there is replaced where it is, another key is appended |
| RequestEnv.AddForwarded | src/client/mod.rs:286-291 | the loop over forwarded names puts those that are set, in order |
| RequestEnv.AddFlags | src/client/mod.rs:292-296 | the loop over flags puts their entries in order, or stops at the first error |
| RequestEnv.BuildEnv | src/client/mod.rs:275-301 | the whole merge yields every arrival put in turn, forwarded names before flags, or its error |
| RequestEnv.FailsOnFirstEmptyKey | src/client/mod.rs:307-323 | the merge fails exactly when the forward list is malformed or a flag has an empty key, and names the first such flag |
| RequestEnv.KeysInFirstOrder | src/client/mod.rs:325-332 | the merged list has each key once, in the order of first arrival |
| RequestEnv.EnvOrder | src/client/mod.rs:275-301 | the same for the merge as a whole, with the keys distinct |
| RequestEnv.PutIsOverride | src/client/mod.rs:325-332 | replacing in place is overriding, seen from the environment that results |
| RequestEnv.PairsSurvive | src/server.rs:355-374 | no merged entry is ever rejected by the server, and its split at the first `=` gives back every pair exactly if no forwarded name that is set contains a `=` |
| RequestEnv.EnvLayering | src/server.rs:355-374 | the child's environment is the inherited one overridden by the forwarded variables, overridden by the flags left to right |
| RequestEnv.ChildSees | src/server.rs:355-374 | each variable of the child is that of its last flag, else the forwarded value, else the inherited one, else absent |
| RequestEnv.FlagForms | src/client/mod.rs:303-323 | `KEY=VALUE` gives the value, `=` in it included; a bare `KEY` copies the variable if it is set |
| RequestEnv.LastFlagWins | src/client/mod.rs:292-332 | if flag k gives a key a value and no flag after it resolves to that key, the child sees that value, whatever was forwarded or inherited |
| RequestEnv.WithoutFlag | src/client/mod.rs:286-301 | a key no flag resolves to has the forwarded value if its name is forwarded and set, else the inherited one, else none |
| RequestEnv.KeysByPosition | src/client/mod.rs:275-332 | the merged list holds exactly the keys that forwarded names and flags bring, each once, in the order of the positions at which names and then flags first bring them |
| Expansion.Template.ExpandBraced | src/ctl/mod.rs:849-883 | the cursor leaves one `${...}` form exactly as the grammar reads it: unterminated, not a name, set or unset |
| Expansion.Template.ExpandUnbraced | src/ctl/mod.rs:888-909 | the same for `$NAME`, the name as long as it can be |
| Expansion.ExpandWith | src/ctl/mod.rs:826-844 | the walk yields the meanings of the template's tokens joined, or the first unset name |
| Expansion.ReadingExists | src/ctl/mod.rs:826-909 | every template has a reading in the token grammar that spells it |
| Expansion.ReadingIsUnique | src/ctl/mod.rs:826-909 | and it is the only one |
| Expansion.FailsOnLeftmostUnset | src/ctl/mod.rs:877-908 | expansion fails exactly if some name token is unset, and names the leftmost |
| Expansion.FixedIffNameless | src/ctl/mod.rs:846-883 | a template stays as it is in every environment exactly if it has no name token |
| Expansion.DistributesAtBoundaries | src/ctl/mod.rs:826-844 | cutting a template between tokens, expanding the parts and joining is expanding the whole, so inserted values are never read again |
| Expansion.NamesExpand | src/ctl/mod.rs:877-908 | a name in either form expands to its value unchanged, or fails naming it |
| Expansion.OrdinaryStays | src/ctl/mod.rs:826-844 | for every template: a character other than `$` in front stays, and the rest is expanded |
| Expansion.LoneDollarStays | src/ctl/mod.rs:832-841 | a `$` in front of anything but a letter, `_` or `{`, or at the end, stays |
| Expansion.LongestName | src/ctl/mod.rs:888-909 | `$` takes the longest run of letters, digits and `_` that starts with no digit, and the rest is expanded behind its value |
| Expansion.BracesReadAName | src/ctl/mod.rs:849-883 | `${` reaches to the first `}`; a name in between stands for its value, anything else stays, and without a `}` all of it stays |
| Quoting.QuotedIsOneWord | src/ctl/shell.rs:7-9 | an escaped value in single quotes reads back as exactly that one word, whatever is in it |
| Quoting.RenderExports | src/ctl/config.rs:183-186 | the loop appends one export line per pair, in order |
| Quoting.ScriptReadsBack | src/ctl/config.rs:176-188 | a script of any values, read by the shell, makes exactly the assignments it was rendered from, in order |
| Quoting.SetupEnv | src/ctl/config.rs:176-188 | the setup script parses to exactly its five variables with the given values, in the fixed order |
| Quoting.LaunchReadsBack | src/ctl/runtime.rs:160-169 | the launch string lexes to exactly its thirteen tokens, whatever the four paths are, the last being the word of the log level |
| LogNames.ParseInvertsName | src/ctl/paths.rs:85-104 | the epoch parsed from a log name is the one it was made from, and none if no `u64` holds it |
| LogNames.AcceptsExactly | src/ctl/paths.rs:94-102 | exactly the names `ncap-server-`, nonempty digits, `.log` whose value is below 2^64 are log names |
| LogNames.SortedServerLogs | src/ctl/paths.rs:116-131 | the scan loop yields the recognised files sorted, and nothing for an unreadable directory |
| LogNames.ScanHas | src/ctl/paths.rs:116-131 | the scan holds exactly the log files of the directory, with their epochs |
| LogNames.ScanAscends | src/ctl/paths.rs:112-131 | it is in numeric order, so its last entry has the greatest epoch |
| LogNames.ScanIsStable | src/ctl/paths.rs:130-130 | files of equal epoch stay in listing order |
| LogNames.AttachmentsAreNewer | src/ctl/mod.rs:372-377 | on an ordered scan, skipping the front is keeping the files of greater epoch |
| Sorting.SortStable | src/ctl/paths.rs:130-130 | sorting keeps the order of elements of one rank |
| Sorting.SortedUnique | src/ctl/digest.rs:31-32 | a sorted list is fixed by its elements |
| LogFollow.FollowTask.ReadLog | src/ctl/mod.rs:350-363 | one read of the drain loop: a chunk from the position, the end, or a failure |
| LogFollow.FollowTask.WriteChunk | src/ctl/mod.rs:361-362 | a written chunk advances the position by its length; a failed write ends the follow |
| LogFollow.FollowTask.OpenLog | src/ctl/mod.rs:333-345 | a vanished file drains nothing and is not an error |
| LogFollow.FollowTask.AnnounceAttach | src/ctl/mod.rs:406-409 | attaching announces the file and starts it at its first byte |
| LogFollow.FollowTask.ScanAgain | src/ctl/mod.rs:403-411 | a re-scan queues the newer files in order |
| LogFollow.FollowTask.Drive | src/ctl/mod.rs:391-413 | a whole follow over its mutable variables is the run of the steps |
| LogFollow.OutputIsTheLogs | src/ctl/mod.rs:331-413 | for every interleaving with writers, new files and removals, the output is each attachment's banner and a prefix of its file, in attach order, the position is what was printed of the attached file, and behind a failed write stands a prefix of the banner or bytes it was writing |
| LogFollow.AttachedOnceAndUpward | src/ctl/mod.rs:372-413 | no file attaches twice, and each is newer than every log of every earlier scan |
| LogFollow.DrainsToTheEnd | src/ctl/mod.rs:350-364 | a drain of an opened file ends only when all the file held at that moment is printed |
| LogFollow.DrainThenSwitch | src/ctl/mod.rs:397-411 | in every run, at every wait, re-scan and new banner behind an attachment: everything its file held when the latest poll, or the attachment, began is printed, unless the file was gone when it was opened; so all of it, if it has not grown since |
| LogFollow.NothingIsSkipped | src/ctl/mod.rs:403-411 | in every run, a log of a re-scan's listing that is newer than the attached one is from then on attached or on the way, and attached by the next wait |
| LogFollow.StartsAtTheNewest | src/ctl/mod.rs:391-396 | the first attachment is a log of the first listing with the greatest epoch |
| LogFollow.KeepsFollowing | src/ctl/mod.rs:331-413 | only Ctrl-C ends a follow well, and only a failed write, open or read ends it badly |
| LogFollow.CatchesUp | src/ctl/mod.rs:331-413 | from every point of every run that has not ended, with the files holding still, the follow can go on to a wait at which the attached file is printed to its end |
| Digest.Compute | src/ctl/digest.rs:30-49 | the loop over sorted entries hashes exactly the record stream, or fails exactly if a watched file is unreadable |
| Digest.OrderDoesNotMatter | src/ctl/digest.rs:24-49 | the stream and the digest are the same for every permutation of the entries |
| Digest.OneFileChanges | src/ctl/digest.rs:24-49 | two states that differ in one watched file, by contents or presence, give different streams, aliases and repeated entries included |
| Digest.OneEntryMore | src/ctl/digest.rs:24-49 | adding an entry changes the stream, by the length of its record |
| Digest.TwoFilesCanCancel | src/ctl/digest.rs:40-46 | two files changed at once can give the same stream: the input behind the guard of the next row |
| Digest.StreamTellsEveryChange | src/ctl/digest.rs:24-49 | for a change of any number of files: if no entry and no file before the change holds a NUL byte, the stream is the same if and only if every watched file is |
| Digest.DigestIsInjective | src/ctl/digest.rs:48-48 | the sixteen hex digits determine the hash |
| Digest.SumReadsBack | src/ctl/digest.rs:30-49 | there is a digest exactly if no watched file is unreadable, and it is sixteen hex digits whose value is the hash of the stream |
| Digest.StreamByRecords | src/ctl/digest.rs:31-47 | the stream of one entry is its text, a zero, `1` or `0`, a zero and the contents; that of entries in the order of their bytes is that of the first few followed by that of the others |
| Cache.CacheDir.WriteEnv | src/ctl/mod.rs:520-524 | writing the env file cut after any number of bytes leaves that many |
| Cache.CacheDir.Store | src/ctl/digest.rs:70-72 | the same for the hash file |
| Cache.CacheDir.CheckNow | src/ctl/digest.rs:52-68 | the freshness decision on the two files and the present digest |
| Cache.CacheDir.EnsureCache | src/ctl/mod.rs:502-536 | the whole refresh, cut after any amount of writing, leaves the specified files, evaluations and end |
| Cache.StoppedIsFreshIff | src/ctl/mod.rs:502-536 | for any watched files when the run looked, when it stored and now, a run cut short leaves the cache fresh if and only if the digest stored before matches the files now, there is an env file by now, and the hash file was not touched |
| Cache.UnchangedStopIsFreshIff | src/ctl/mod.rs:502-536 | with the files unchanged throughout: if and only if the digest matched already and the run was cut in or right behind the env file's write |
| Cache.StaleStaysUnfresh | src/ctl/mod.rs:502-536 | from `Stale`, with the files unchanged, a run that does not reach its end never leaves the cache fresh |
| Cache.TornDumpCountsAsFresh | src/ctl/mod.rs:502-536 | from `Missing` with a matching digest left over, a torn env dump counts as fresh |
| Cache.ChangedBackCountsAsFresh | src/ctl/mod.rs:502-536 | from `Stale`, a torn env dump counts as fresh if the files differed while the run looked and are changed back |
| Cache.DoneIsFresh | src/ctl/mod.rs:502-536 | a run that reaches its end leaves the output and a cache that is fresh for the files as it stored them, and the next run on those evaluates and writes nothing |
| Cache.FreshIffUnchanged | src/ctl/digest.rs:52-68 | after such a run the cache counts as fresh if and only if every watched file still is as it was, short of NUL bytes in them and a collision of the hash |
| Cache.RunsToTheEnd | src/ctl/mod.rs:502-536 | a refresh whose evaluation works reaches its end if and only if the files can be read when it stores and nothing cuts its writes |
| Cache.WhatARunLeaves | src/ctl/mod.rs:502-536 | by how it ended: a fresh cache and a failed evaluation leave both files as they were, unreadable watched files leave the new dump with the old digest, a cut run leaves a front part of the file it was writing and touches the digest only behind a whole dump; one evaluation, or none if the cache was fresh |
| Cache.TrimTolerates | src/ctl/digest.rs:57-62 | a stored text names a digest exactly if it is that digest between white space |

## Left out

- Liveness under every schedule: what is proved is that no task, shutdown or follow is ever stuck and that every exchange has a run; fairness, and deadlock of the two ends awaiting sends inline on full sockets, are not modelled.
- Tokio, Unix sockets, process spawning and `kill`: steps of the environment with the assumptions above; a failed `kill` has no effect on the run.
- Timing: the drain's duration, the poll cadence and the start-up waits.
- JSON text and the error texts of libraries: struct payloads go through an abstract serializer, and a decode or I/O error's own wording is not modelled.
- xxhash64: any function of the written bytes; nothing is said about collisions.
- Lossy decoding of text that is not UTF-8: the model starts from decoded strings.
- Concurrency of the connection as shared memory: the composed connection is a state machine over values; the mutable locals are in the classes of each task.
- `run` of client and server before the tasks start: argument checks, connecting, probing and binding the socket, and signal handlers that cannot be installed on the server.
- Resolving the five values of `setup_env`: defaults, XDG directories and the project name, which the script takes as given; `sanitize`.
- The container flows `init`, `start`, `stop`, `restart`, `status`, `enter` and `clean`, and the rest of the runtime adapter: sequencing over podman or docker output.
- Stamp guard, version probe of the ctl, command line, options, pager, log levels and sinks, nix files: one branch each, or plumbing.
- Pumps.PumpOutput: does not model a pipe that stays open for ever, because a run is finite; the open-ended case is in the composed connection, where a pump step may never come.
