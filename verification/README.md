# DB Relay: a verified model

DB Relay is a relay between HTTP requests and databases. A request is served by a worker process, which
either queries the database itself or hands the query over a byte stream to a long-lived connector
process, and turns the result sets into one JSON response. Workers share a table of connections in
shared memory. This project models four parts of it and proves what they are for.

**The line protocol.** `Framing` has the reader with its two 4096-byte buffers and proves it against the
pure function `CutOne` that cuts a byte stream into pieces. `Connectors` is the connector's two-mode
automaton, `Clients` and `Scripts` the worker's sequence of sends and receives, `Processes` and `Workers`
the imperative code of both on real sockets and buffers. `Sessions` puts the two processes and two bounded
channels together as a transition system under any scheduler (`SessionRuns`: its finite runs).
`Transparency` proves that a safe session executes exactly the SQL and returns exactly the result,
`Exactness` that no run of any other does, and `Discipline` exactly which sessions never lose a reply nor
have bytes under way in both directions. `Reuse` is about many sessions on one connector process, and
`Protocol` gives every line of the protocol as it stands on the wire.

**The JSON writer.** `StringBufs` is the linked rope, `JsonWriter` the streaming writer, `JsonGrammar` an
independent parser after RFC 8259 sections 2, 4, 5 and 7. `JsonRoundTrip` and `JsonDrive` prove that
writing a tree gives a text that parses to it; `JsonTransport` covers pretty printing and newline
deletion, and `JsonSamples` has its texts to the letter. `ResultSets`, `Emission` and `Responses` model the
emission of result sets and the object around them, up to one theorem from the database to the response;
`DataTree` says what the tree holds of the database. `Queries` is the whole response on every path of a
request, with the functions it calls (`js_callback`, `js_error`), and `Verdicts` what a client reads in it.
`Numbers` is how a name is read as a number. `Csv` is the CSV mode, with a reader after RFC 4180 section 2;
`CsvLiteral` and `CsvExactness` say exactly when its raw string literals, its CSV text and its JSON text
are read as meant.

**Parameter substitution.** `Params` has the scanner that is restarted in the middle of a string cut in
place, and says exactly when it equals a single-pass substitution. `ParamExactness` says what comes where
without the scanner.

**The connection pool.** `Pools` is the table and its operations for one worker, `PoolSystem` every
interleaving of any number of workers with deaths, and `Locks` the semaphore with undo on death under
which slot-by-slot scans count as atomic steps. `PoolScans` joins the two: the counts are right for
workers that scan slot by slot. `PoolRounds` takes the retry loop round by round and says what each
operation leaves in a slot. `PoolWitness` has the runs in which the counts go wrong.

Text is a sequence of characters that stand for bytes. Streams carry no NUL, because both sides measure
strings with `strlen`. Where C leaves the behaviour undefined the connector model sets `fault` and ends
the process. The database, the clock, process liveness, `recv` and `send` are inputs of the model.

Where the code does not do what one would expect, it is stated as it is, with the exact condition:
surplus parameters repeat the rest of the statement (`Params.ResolveIff`); a given column name can repeat
a generated one (`ResultSets.NamesDistinctIff`); SQL or answers with control lines at the wrong place are
not delivered (`Exactness.SessionRunsIff`, with `:SQL END` and `:OK` in `Exactness.EndMarkerNeverRuns` and
`Exactness.OkRowsGetLost`), and can leave a reply behind (`Discipline.DisciplinedIff`); a success sent to a
request with a function for errors alone ends a call it never began (`Queries.ResponseReadsIff`); a failed
send of the run command passes for a success (`Queries.FailedSendResponse`); quotes, backslashes and control
bytes in CSV mode break the text around them (`CsvExactness.CsvDataReadsIff`); and a hard timeout of a
slot in use, a failed connect on a shared one or an administrator's kill leave a request with a slot that
can be given out again, after which the reference count is wrong (the three `…LawIff` lemmas of
`PoolWitness`).

## Model

| member | source | states |
|---|---|---|
| Framing.RecvString | src/socket.c:191-263 | for every chunking: the call returns exactly the next piece of the pure cut of (unread buffer ++ bytes still to arrive) as a NUL-terminated string, leaves exactly the rest unread, receives no more than it needs, stays inside both buffers and ends; without a piece it reports how the stream ended |
| Framing.OneRound | src/socket.c:229-258 | the copying in one turn of the do/while moves bytes without loss or reordering, and either completes a piece or has emptied the input buffer |
| Protocol.PieceIff | src/socket.c:229-258 | a piece is a line of at most 4095 bytes with its newline, or 4095 bytes without one; anything shorter without a newline is none |
| Protocol.IncomingIs | src/socket.c:206-227 | what arrives before the stream ends, in order; interrupted calls bring nothing; an end and a failure are told apart |
| Processes.RecvAll | src/socket.c:191-263 | calling it again and again returns exactly the pieces of the pure cut of the received bytes, in order, and leaves exactly the leftover undelivered |
| Framing.SendString | src/socket.c:169-190 | success means the whole string was accepted in order; failure leaves a proper prefix sent |
| Framing.CutStable | src/socket.c:228-258 | bytes that arrive later never change a piece that is already complete |
| Framing.PiecesSplit | src/socket.c:191-263 | a property of all pieces of a stream holds of the pieces of any split of it |
| Framing.CutPiece | src/socket.c:236-258 | a piece followed by anything is cut off as that piece |
| Framing.WholeLines | src/socket.c:236-258 | a stream that ends in a newline is cut into pieces without remainder |
| StringBufs.StringBuf.Append | src/stringbuf.c:101-110 | linking one node behind the tail appends exactly its text |
| StringBufs.StringBuf.Length | src/stringbuf.c:57-69 | the loop over the nodes gives the length of the text |
| StringBufs.StringBuf.ToChars | src/stringbuf.c:38-55 | the copied buffer is exactly the text and one NUL |
| Connectors.CommandsPrefixFree | src/connector.c:289-334 | at most one command word matches any line, so the order of the tests is irrelevant |
| Connectors.CopyString | src/db.c:950-958 | the copy is a prefix shorter than the field, and the whole source when it fits |
| Connectors.CopyInto | src/db.c:950-958 | the destination holds that copy as a C string and keeps everything behind the field |
| Processes.ConnectorProcess.ProcessLine | src/connector.c:265-337 | globals and return code follow the two-mode automaton for every line |
| Processes.ConnectorProcess.Dispatch | src/connector.c:289-334 | the effect of each command on the request, the accumulator and the mode |
| Processes.ConnectorProcess.RunCommand | src/connector.c:190-241 | connect if needed, execute exactly the request, answer with rows or error between control lines |
| Processes.ConnectorProcess.React | src/connector.c:176-256 | one received line produces exactly the reply of the automaton |
| Processes.ConnectorProcess.ServeOne | src/connector.c:175-256 | one turn of the session loop consumes one piece of the stream and changes the state by it, also when the send of the reply fails; otherwise the reply is sent |
| Processes.ConnectorProcess.Serve | src/connector.c:156-262 | the whole body of the endless loop, session and what follows it, on a real socket and buffer refines the pure transducer, whatever the chunks: same final state even if sends fail, and same replies if none does |
| Processes.ConnectorProcess.LeaveSession | src/connector.c:257-261 | a process that is still there leaves SQL mode and forgets a database connection that is not alive |
| Protocol.Greeting | src/connector.c:183-185 | `:HELO` is answered with the process id and changes nothing |
| Protocol.Farewells | src/connector.c:186-190 | `:QUIT` ends the session and `:DIE` the process, both with `:BYE` |
| Protocol.ValueStored | src/connector.c:293-314 | each of the nine `:SET` lines, as it stands on the wire, stores its value in its own field, cut to 100, 30, 5 or 9 characters, is answered `:OK` and changes nothing else |
| Protocol.NoValueKeeps | src/connector.c:338-351 | without a value the field stays as it is |
| Protocol.TextBegins | src/connector.c:316-322 | `:SQL BEGIN` starts an empty text, forgets the last query and is not answered |
| Protocol.TextStored | src/connector.c:272-280 | every line that does not start with `:SQL END` is then stored as it is and not answered |
| Protocol.TextEnds | src/connector.c:323-333 | `:SQL END` makes the text the query and is answered `:OK` |
| Protocol.EndMarkerAndMore | src/connector.c:272-280 | a line that goes on behind the end marker is refused, stored nowhere, and leaves SQL mode on |
| Protocol.RunAnswers | src/connector.c:191-239 | `:RUN` on an open connection, or after a connect that succeeds, executes exactly the stored query, leaves the process connected and answers to the letter |
| Protocol.RunFails | src/connector.c:194-208 | a `:RUN` whose connect fails answers with the message, executes nothing and ends the process |
| Protocol.RefusedIff | src/connector.c:282-337 | outside of a text a line is answered `:ERR`, and nothing changes, if and only if it starts with none of the fourteen words behind a colon, or with `:SQL` and neither `BEGIN` nor `END` behind it |
| Reuse.ConnectedSession | src/connector.c:191-239 | a session that finds the connector connected, or connects, under every schedule: the worker gets the database's answer to exactly its query, that is all that was executed, and the connector stays connected as long as the database is alive |
| Reuse.FailedSession | src/connector.c:194-208 | a session whose connect fails: the worker gets the message as an error, nothing is executed and the process has ended |
| Reuse.LaterSessions | src/connector.c:156-262 | any number of sessions on one process, each with its own schedule and surroundings: once a connect has succeeded every later worker gets the database's answer to its own query, whatever a connect would say by then, and the queries were executed one after the other |
| Reuse.WaitsAgain | src/connector.c:257-261 | however a session broke off, also in the middle of a text, a process that is still there waits for the next |
| Reuse.GoneConnector | src/client.c:83-87 | a worker that meets a connector which has ended comes away with pid -1 and no text, in every run |
| Reuse.LostSend | src/client.c:131-145 | a fatal send that is lost gives pid -1 in the greeting, otherwise the text of an internal error, with error 2, but 0 for the run command |
| Reuse.EndSeen | src/socket.c:203-221 | the end of the stream drops what is left of a piece: no pid in the greeting, and elsewhere just the next call |
| Reuse.AnyChunk | src/socket.c:191-227 | any number of bytes that fits can travel at once |
| Processes.SetOptionCall | src/client.c:201-220 | sends exactly the option line, and reads with a buffer of its own exactly as many arrivals as the first piece needs |
| Processes.CollectInto | src/client.c:149-171 | one turn of the result loop on the accumulator |
| Processes.ReceiveResults | src/client.c:145-184 | the result loop on a socket returns exactly what collecting the pieces of the stream gives, including end of stream and a broken socket |
| Workers.Initialize | src/client.c:76-93 | sends the greeting and returns the pid in the first piece of the reply, or -1, reading exactly the arrivals that piece needs; or the greeting breaks off, and it returns -1 and reads nothing |
| Workers.SetOptions | src/client.c:110-129 | the option calls send the seven settings in order, the password only when there is one, and each takes the arrivals of one reply |
| Workers.SendSql | src/client.c:131-138 | the four sends carry begin line, text, newline and end line |
| Workers.RunAndCollect | src/client.c:139-184 | the first piece of the arrivals is dropped and the result loop runs on the rest, in the same buffer, to a stop line, the end of the stream or a broken socket; a failed send gives the error text with error 0 |
| Workers.SendRequest | src/client.c:94-184 | sends exactly the request and returns what the result loop makes of the arrivals left after the option replies; or a send failed and it returns the error text |
| Workers.Session | src/client.c:65-184 | when all sends succeed, initialise, request and close send exactly what the script says; pid, text and error are exactly what the arrivals decide, also when a send fails: no pid only from a bad first reply or a greeting that broke off, and then an empty text; otherwise the pid of the first reply, and either the error text or what the result loop makes of the arrivals behind the option replies |
| Workers.PidIs | src/client.c:86-92 | the pid is the number in a first line `:PID n`; any other first line gives -1 |
| Workers.NoPid | src/client.c:86-87 | without a complete first line there is no pid |
| Workers.ResultIs | src/client.c:141-184 | behind the reply to the text a safe answer is returned as it is, without newlines and with its error flag, whatever follows it |
| Workers.ResultUnfinished | src/client.c:145-184 | a result without a stop line: what was collected so far when the stream ends, an internal error when it breaks |
| Protocol.UnfinishedRest | src/client.c:148 | such a loop has read every complete line |
| Protocol.RequestWire | src/client.c:110-144 | the bytes of a request, line by line as they stand on the wire |
| Protocol.SessionWire | src/client.c:65-184 | a session is the greeting, the request and the goodbye |
| Protocol.OneRowIff | src/client.c:148-171 | a result of one line arrives as that line if and only if it is none of `:BYE`, `:OK`, `:ERR`, `:RESULTS END`, `:ERROR BEGIN` |
| Protocol.OneErrorIff | src/client.c:148-171 | an error of one line arrives if and only if it is none of `:BYE`, `:OK`, `:ERR`, `:ERROR END`, `:RESULTS BEGIN` |
| Transducers.FeedAppend | src/connector.c:175-256 | feeding a stream in two parts is feeding it in one |
| Scripts.PredictExchange | src/client.c:201-220 | one option call leaves no reply byte behind |
| Scripts.PredictOptions | src/client.c:110-129 | the SET phase stores every setting in order and leaves both channels empty |
| Scripts.SettingsConfigure | src/client.c:110-129 | after it the connector has the worker's server, database, user, name and, when sent, password, and the printed timeout and flags as cut to nine characters |
| Scripts.NumberTransfersIff | src/connector.c:307-314 | a number survives print, copy and atol if and only if its text has at most nine characters |
| Sessions.StepOnCourse | src/client.c:94-184 | every step of either process or of the channels keeps the session heading for the same outcome |
| SessionRuns.RunOnCourse | src/client.c:94-184 | so does every run |
| Transparency.EveryReachableState | src/client.c:79-91 | when the text is safe and the result loop reads the answer to its end: in every reachable state, for every capacity from 1 on, one direction is empty; when the worker starts with a fresh buffer, no reply byte is unread, in flight or still to come; and until the worker is finished some step is enabled |
| Discipline.DisciplinedIff | src/client.c:79-148 | all of that holds in every reachable state if and only if the text is safe and the result loop reads the answer to its end |
| Discipline.LostReplyRun | src/client.c:148-154 | when the result loop stops before the end of the answer there is a run to a state where one of them fails |
| Discipline.UnsafeRun | src/connector.c:272-280 | a text with the end marker in it: there is a run to a state where one of them fails |
| Sessions.StuckIsDone | src/client.c:94-184 | a state without steps is the predicted end |
| Sessions.StepShrinks | src/client.c:94-184 | every step decreases a well-founded measure |
| Sessions.EveryScheduleEnds | src/client.c:94-184 | every scheduler and every chunking ends, with the predicted outcome |
| Transparency.RowsCollectedIff | src/client.c:148-171 | a result is collected exactly if and only if no framed piece of it is a control line |
| Transparency.ErrorBound | src/client.c:148-171 | an error text with a line that is dropped or stops the loop is never collected in full length |
| Transparency.ErrorCollectedIff | src/client.c:148-171 | an error text is collected exactly if and only if none of its lines stops the loop or finds both flags off, and the results flag ends off |
| Transparency.PlainErrorShown | src/client.c:148-171 | it is enough that no framed piece of the error text is a stop line, the error end line or the results begin line |
| Transparency.AnswerCollectedIff | src/client.c:145-184 | the loop always stops at the final line, and the worker holds the answer, newlines deleted, if and only if the answer is safe; then nothing is left unread |
| Exactness.RunConsumes | src/connector.c:175-256 | in every run the connector has handled a prefix of the text of the script |
| Transparency.SessionPredicted | src/client.c:94-184 | the schedule-free run of a whole session is the transparent one |
| Exactness.UnsafeNeverRuns | src/connector.c:272-280 | in every run of a session whose SQL has a framed piece that starts with the end marker, nothing the connector ever executes is that SQL |
| Exactness.EndMarkerUnsafe | src/connector.c:272-274 | the end marker as a line of its own is an unsafe text |
| Exactness.EndMarkerNeverRuns | src/connector.c:272-280 | so the text `:SQL END` is never what the connector executes, in any run |
| Exactness.WorkerHolds | src/client.c:145-184 | in every run with a safe SQL text, a finished worker holds what the result loop makes of the answer |
| Exactness.OkRowsUnsafe | src/client.c:151-153 | a result that is the line `:OK` is unsafe, and the result loop makes an empty text of it |
| Exactness.OkRowsGetLost | src/client.c:148-171 | so in every run whose database answers with it, a finished worker holds the empty text |
| Exactness.SessionRunsIff | src/client.c:94-184 | under every scheduler and chunking: the run ends with the worker holding exactly the answer, newlines deleted, and the connector having done exactly that one query, if and only if SQL and answer are safe |
| Transparency.SessionTransparent | src/connector.c:156-337 | for every schedule and chunking: the connector executes exactly sql plus one newline with the worker's settings, and the worker ends with exactly the result, newlines deleted |
| JsonWriter.Writer.OpenContainer | src/json.c:78-127 | the field updates and text of opening an object or array |
| JsonWriter.Writer.CloseContainer | src/json.c:95-142 | the field updates and text of closing one |
| JsonWriter.Writer.WriteKey | src/json.c:152-170 | separator, indentation, key and the pending flag |
| JsonWriter.Writer.WriteNumber | src/json.c:171-176 | a key, the copied text, and the flag cleared |
| JsonWriter.Writer.WriteString | src/json.c:207-230 | a key, the escaped value, and the flag cleared |
| JsonWriter.Writer.EscapeInPlace | src/json.c:207-230 | the segment loop that cuts its copy by NULs appends exactly the per-byte escaping |
| JsonWriter.Writer.ToText | src/json.c:63-66 | the text written so far |
| JsonSamples.ByteWritten | src/json.c:177-230 | what is written for each of the 256 bytes |
| JsonSamples.BytesWritten | src/json.c:207-230 | a text is written byte by byte |
| JsonSamples.SampleText | src/json.c:67-176 | one text with every kind of call, to the letter, compact and pretty |
| JsonRoundTrip.EscapeRoundTrip | src/json.c:177-230 | reading an escaped string literal gives back every NUL-free byte string |
| JsonRoundTrip.EscapeIsClean | src/json.c:177-200 | in escaped text every quote belongs to an escape, and no control byte, newline or byte above 0x7F occurs |
| JsonRoundTrip.RawKeyIff | src/json.c:152-170 | a raw key is read back as itself if and only if it needs no escaping |
| JsonRoundTrip.RenderDenotes | src/json.c:78-230 | the rendering of every tree in every white-space style is read back as that tree |
| JsonDrive.RunValue | src/json.c:78-243 | driving the writer through a tree appends its rendering behind the proper separator and restores stack, item count and flag |
| JsonDrive.RunField | src/json.c:152-230 | the same for a field |
| JsonDrive.WriterRoundTrip | src/json.c:78-243 | for every tree, the text written in tree order parses to that tree, compact and pretty |
| JsonDrive.TabIsDepthIff | src/json.c:67-142 | the tab level equals the stack depth after any calls if and only if they never close more than was open |
| JsonTransport.StripRender | src/json.c:67-170 | deleting newlines from a rendering is rendering in the style without newlines |
| JsonTransport.PrettyKeepsMeaning | src/json.c:67-170 | compact, pretty, and pretty without newlines parse to the same tree; compact text has no newline |
| JsonTransport.CleanRender | src/json.c:78-230 | no newline of the writer follows an upper-case letter |
| JsonTransport.CleanEndsSafe | src/socket.c:236-258 | no framed piece of such a text, split at 4095 bytes anywhere, is a control line |
| ResultSets.CounterDominates | src/db.c:857-869 | the counter is at least the number read from every name to its left |
| ResultSets.GeneratedNamesAreFresh | src/db.c:98-108 | a generated name differs from every name to its left |
| ResultSets.CounterIsMax | src/db.c:857-869 | the counter in closed form: the number of unnamed columns so far, or a number that a given name starts with plus the unnamed columns behind it, whichever is larger |
| Numbers.AtolIs | src/db.c:861-864 | the number read from a name: leading space skipped, one sign taken, the place value of the digits that follow, the rest ignored |
| ResultSets.NamesDistinctIff | src/db.c:852-869 | all names differ if and only if no given name equals a given name to its left, nor the decimal number behind the counter at an unnamed column to its left |
| ResultSets.GeneratedNameRepeated | src/db.c:852-869 | a given name can repeat a generated one to its left |
| ResultSets.DataWritable | src/db.c:693-744 | every list of good result sets is a tree the writer can express |
| DataTree.DataHolds | src/db.c:693-744 | the tree has one object for each result set: fields with name, type and the sizes that are not zero; one row for each row of the database with one member for each column under the name in the fields, null if and only if the database has none, otherwise its exact text, quoted as its column is; and the count, null if and only if it is -1 |
| Emission.WriteColumnInfo | src/db.c:852-887 | the calls and the counter for one column of the field list |
| Emission.WriteColumn | src/db.c:888-941 | the calls and the counter for one cell, in both modes, under the same name as in the field list |
| Emission.WriteRow | src/db.c:724-732 | one row, in both modes, with the counter restarted |
| Emission.WriteRowsField | src/db.c:713-735 | the rows field, in both modes |
| Emission.FillData | src/db.c:693-744 | the loops over result sets, columns and rows drive the writer exactly as the data tree prescribes |
| Emission.FillDataFollowsTree | src/db.c:693-744 | in standard mode this is the tree-order run of the data member |
| Responses.ExecQuery | src/db.c:667-692 | the text of the result sets in the chosen mode when the query succeeds and nothing when it fails; the database is asked to change to its database, and, when a transaction is wanted, to begin one, execute, and commit or roll back by the outcome |
| Responses.AppendRequestJson | src/db.c:397-423 | the echoed request, without the password |
| Queries.RunQuery | src/db.c:505-665 | on every path the response is the text of its verdict: request, spliced fragment if any, and log, started over when it failed and there is a function for errors, between the opening and closing of a call |
| Queries.ResponseReadsIff | src/db.c:493-504 | for every verdict and every pair of functions, the response calls the function the client expects with one well-formed object that reads back as request, result sets and log, or is that object, if and only if it is not a success with a function for errors alone, which closes a call it never opened |
| Verdicts.RequestHolds | src/db.c:400-422 | the echoed request has these members, in this order, and no password |
| Verdicts.LogHolds | src/db.c:424-444 | the log has the SQL if wanted, the error if there is one, and the parameters numbered from 0 |
| Verdicts.IncompleteRefused | src/db.c:836-841 | a request without SQL, server or user is refused with that text, whatever the world would answer |
| Verdicts.NoSlotRefused | src/db.c:550-563 | a complete request that gets no connection is refused with its own text |
| Verdicts.NoConnectorRefused | src/db.c:569-580 | one whose connector cannot be initialised with another |
| Verdicts.LoginFails | src/db.c:612-623 | a failed login logs the hint about the missing password with the message behind it, a stock text, or the message, cut to 499 characters |
| Verdicts.QueryFails | src/db.c:628-633 | a failed query logs the message of the database |
| Verdicts.ConnectorFails | src/db.c:596-599 | a failure over a connector logs its text, cut to 499 characters |
| Verdicts.DirectRowsIff | src/db.c:634-638 | the client reads exactly the result sets of a direct query, request and log around them, if and only if there is no function for errors alone |
| Verdicts.ConnectorRowsIff | src/db.c:603-606 | so it does those that came over a connector |
| Verdicts.NothingReturnedIff | src/db.c:600-602 | a connector that returns nothing leaves a response without data and without an error |
| Verdicts.ErrorServed | src/db.c:596-599 | for every schedule a safe error text of the database reaches the log of the response, without newlines and cut to 499 characters, whatever the functions |
| Queries.NoMemberUnread | src/db.c:603-606 | a fragment that does not start like a member leaves a response nobody can read |
| Queries.FailedSendResponse | src/client.c:139-145 | what the worker returns after a failed send of the run command, the error text with error 0, passes for a success: it is spliced in where the result sets belong and the response cannot be read |
| Responses.ResponseRoundTrip | src/db.c:603-606 | the fragment spliced between request and log keeps the response one well-formed object that reads back as request, exactly the result sets, and log |
| Responses.PayloadSafe | src/client.c:148-171 | standard-mode output, compact or pretty, is always a safe answer |
| Responses.DataArrives | src/client.c:148-171 | what arrives of it: the compact text byte for byte, or the pretty text without newlines |
| Responses.EndToEnd | src/db.c:582-606 | database to response: for every schedule, the response built from what the worker received reads back as exactly the database's result sets |
| Verdicts.RowsServedIff | src/db.c:582-649 | database to client with the functions: for every schedule the client reads exactly the result sets of the database if and only if there is no function for errors alone |
| CsvExactness.CsvRoundTripIff | src/db.c:909-924 | the CSV text of a table is read back as its rows, nulls as empty fields, if and only if every row has a cell and no value holds a quote, or a line feed without a comma |
| CsvLiteral.LiteralIff | src/db.c:709-738 | a literal of raw characters and escaped quotes and line feeds is read as its text, up to its own closing quote, if and only if no raw character is a quote, a backslash or a control byte |
| Csv.RowsLiteralIff | src/db.c:713-735 | the raw rows literal denotes the CSV text of the table if and only if no value holds such a character |
| Csv.QuoteBreaksLiteral | src/db.c:713-735 | a table of one quote whose literal does not |
| CsvExactness.CsvTableReadsIff | src/db.c:709-738 | a result set written in CSV mode is one well-formed object that reads back as fields, CSV text and count if and only if no value holds a quote, a backslash or a control byte |
| CsvExactness.CsvDataReadsIff | src/db.c:693-744 | so is the whole data member of any number of result sets |
| CsvExactness.DecodedIs | src/db.c:909-924 | the rows that are read back are those of the table, cell by cell, an empty text for a null |
| CsvExactness.CsvTableHolds | src/db.c:709-744 | around the rows a result set has the same fields and count as in standard mode |
| Params.FindFrom | src/db.c:817-832 | the found position is a question mark not before the start |
| Params.FindFromIsFirst | src/db.c:817-832 | it is found if and only if it is the first question mark outside quotes |
| Params.FindPlaceholder | src/db.c:817-832 | the do/while scanner on the cut buffer finds exactly that position, also in an empty text |
| Params.RestartKeepsQuotes | src/db.c:794-802 | restarting unquoted behind an unquoted mark keeps the quote state of a single scan |
| Params.ChunksJoin | src/db.c:817-832 | cutting at the marks loses nothing else |
| Params.SubstituteWeaves | src/db.c:783-816 | single-pass substitution puts the k-th value at the k-th unquoted mark and keeps all other text |
| Params.NextParam | src/db.c:793-810 | one round of the loop, including the round whose placeholder is missing |
| Params.ResolveParams | src/db.c:782-816 | the loop that cuts the string in place gives the prefix and the loop's text for the values quoted by type |
| Params.ResolveRuns | src/db.c:793-811 | that text is the single-pass substitution plus what surplus values add |
| Params.ResolveIff | src/db.c:793-811 | it equals the single-pass substitution if and only if the values do not outnumber the marks, or there are none, or all that would be repeated is empty |
| Params.ResolveRepeatsTail | src/db.c:795-799 | one value too many repeats the text behind the last mark |
| ParamExactness.ParamValue | src/db.c:766-781 | a parameter `t:v` stands for v between quotes if and only if t is `char`, `varchar`, `datetime` or `smalldatetime` in any case, and for v otherwise |
| ParamExactness.QuotedIsOdd | src/db.c:817-832 | a position is quoted if and only if an odd number of apostrophes stands in front of it |
| ParamExactness.ResolvedExactly | src/db.c:782-816 | with no more parameters than marks, the text is the SQL with what the k-th parameter stands for in the place of the k-th question mark behind an even number of apostrophes, and nothing else changed |
| ParamExactness.MarksListed | src/db.c:817-832 | every text has such a list of marks |
| ParamExactness.StandsForOne | src/db.c:766-781 | every parameter with a colon stands for something |
| Pools.Pool.AllocConnection | src/db.c:164-197 | first free slot taken, or handle closed and -1 |
| Pools.Pool.FindConnection | src/db.c:198-241 | first live match counted once more and stamped |
| Pools.Pool.CloseConnections | src/db.c:265-297 | the sweep loop gives the swept table and closes the right handles in order |
| Pools.Pool.FreeConnection | src/db.c:298-306 | one use dropped, and the slot closed when it has no name |
| Pools.Pool.GetConnection | src/db.c:307-327 | acquire, then sweep |
| Pools.Pool.WaitForConnection | src/db.c:445-485 | slots whose helper does not answer are marked free until one does or the pool is full; for every sequence of answers so far, also while still waiting |
| PoolRounds.WaitIs | src/db.c:451-483 | the loop goes through failed rounds only, behind each of which the slot just used is free and the table otherwise as it was, and ends with the result of the first round that does not fail |
| PoolRounds.WaitRounds | src/db.c:451-483 | every sequence of answers has such rounds |
| PoolRounds.WaitEndsIff | src/db.c:451-483 | it ends if and only if some round is answered, finds the pool full, or the request has no name; with -1 if and only if the pool was full |
| PoolRounds.NextRoundAllocates | src/db.c:469-481 | behind a failed round on the only match the next round takes a free slot for a new helper |
| PoolRounds.FailedRoundIsStep | src/db.c:469-481 | between two rounds the table is that of a failed connect in `PoolSystem` |
| Pools.FirstFree | src/db.c:177-183 | -1 if and only if every slot is live, otherwise the first free one |
| Pools.FirstMatch | src/db.c:226-238 | -1 if and only if no live slot matches, otherwise the first that does |
| Pools.RefusedIff | src/db.c:307-327 | no slot if and only if nothing matches and every slot was live before the sweep |
| Pools.AcquiredSlot | src/db.c:164-241 | the acquired slot is live, has the request's key, and is either an old one with one more use and a new stamp or a free one filled for this worker with counter 1 and the default timeout of 60; no other slot changes |
| Pools.AcquiredSurvivesIff | src/db.c:265-327 | its counter is 0 only by wrap-around, and it survives the following sweep if and only if neither hard-expired nor of a dead worker |
| Pools.SweepExact | src/db.c:265-297 | exactly the dead, hard-expired and idle-expired slots are freed, the others untouched, the handles of the expired ones closed |
| PoolRounds.GetSweeps | src/db.c:265-327 | whether a request gets a slot or is refused, every other slot that is dead, past eight hours or idle is wiped, and the rest is untouched |
| PoolRounds.SweepClosesOnce | src/db.c:242-297 | a sweep closes a handle once for each expired slot that holds it, unless its worker is dead |
| PoolRounds.FinishedSlot | src/db.c:655-662 | the end of a query stamps the slot and takes one use off, and wipes and closes it when it has no name; no other slot changes |
| PoolRounds.NoSocketName | src/db.c:137-142 | without a name for a socket the request is told a slot that stays free |
| PoolRounds.KilledSlot | src/admin.c:160-165 | a kill wipes one slot and closes its handle |
| PoolRounds.GetIsRun | src/db.c:307-327 | undisturbed, the critical sections of one acquisition leave the table that the whole acquisition leaves |
| Pools.ClosesOnly | src/db.c:242-297 | every handle the sweep closes belongs to a slot it frees |
| Pools.GetKeepsNamesUnique | src/db.c:205-327 | one worker running uninterleaved never gives two live named slots the same key |
| PoolSystem.StepKeeps | src/db.c:164-306 | every step of every worker, deaths included, keeps the invariant |
| PoolSystem.EveryRunKeepsCount | src/db.c:650-664 | over all interleavings: each live counter is its number of holders, no held slot is free or idle, unnamed slots have one holder and counter 1, and a finished request's handle is closed exactly once |
| PoolRounds.RequestProceeds | src/db.c:164-306 | whatever the state of the pool, a living request can make its next step, short of a full counter |
| PoolRounds.SweepProceeds | src/db.c:265-297 | a sweep is possible as long as nothing is past eight hours |
| PoolRounds.DeadRest | src/db.c:276-279 | after a death no request of that process acts again |
| PoolSystem.SweepKeepsIff | src/db.c:283-287 | a sweep keeps the invariant, that is leaves the slot of every request live, if and only if no held slot is past the hard timeout |
| PoolWitness.SweepLawIff | src/db.c:283-287 | after a sweep the reference counts are right for good, in every run from there, if and only if no held slot was past the hard timeout |
| PoolSystem.FindKeepsIff | src/db.c:229-235 | taking one more use keeps it if and only if the 32-bit counter does not wrap |
| PoolSystem.ConnectFailureKeepsIff | src/db.c:469-481 | giving up on a helper leaves the slot of every request live if and only if nobody else holds it |
| PoolWitness.ConnectFailureLawIff | src/db.c:469-481 | after it the reference counts are right for good if and only if nobody else held the slot |
| PoolSystem.KillKeepsIff | src/admin.c:160-165 | an administrator's kill leaves the slot of every request live if and only if nobody holds it |
| PoolWitness.KillLawIff | src/admin.c:160-165 | after it the reference counts are right for good if and only if nobody held the slot |
| PoolWitness.StaleHolderBreaks | src/db.c:177-188 | from every state in which a request holds a freed slot there is a run, of nothing but new requests, to a wrong count |
| PoolWitness.HardTimeoutRun | src/db.c:283-287 | a concrete run: hard timeout of a held slot, re-use, and a live slot that counts one and has two holders |
| PoolWitness.KillRun | src/admin.c:160-165 | a concrete run to the same through an administrator's kill |
| PoolWitness.ConnectFailureRun | src/db.c:469-481 | a concrete run to a wrong count through a failed connect on a shared slot |
| PoolWitness.CounterWraps | src/db.c:298-306 | from there the counter of a held slot drops to 0 and then to 0xFFFFFFFF |
| Locks.Semaphore.LockShmem | src/shmem.c:86-104 | once it returns the caller is alone inside, and value plus processes inside is still 1 |
| Locks.Semaphore.UnlockShmem | src/shmem.c:105-118 | nobody is inside, the value is 1 again and the undo entry is balanced |
| Locks.Semaphore.Attach | src/shmem.c:86-104 | a process comes in with an undo entry of zero; value and processes inside stay |
| Locks.Semaphore.Exit | src/shmem.c:105-140 | a process that ends, inside or not, gives back exactly what it took, and is no longer inside |
| Locks.StepBalances | src/shmem.c:86-140 | semaphore plus the processes inside is always 1, across acquire, release and death |
| Locks.OneInside | src/shmem.c:86-140 | mutual exclusion |
| Locks.EnterIff | src/shmem.c:86-104 | a process can go in if and only if nobody is inside |
| Locks.InsideMoves | src/shmem.c:105-118 | whoever is inside can go on with its scan, or leave when it is over |
| Locks.ComeAndGo | src/shmem.c:86-140 | processes come and die at any time, also inside |
| Locks.HelperStored | src/db.c:581-585 | the pid of the connector is stored in one slot and nothing else changes |
| Locks.ScanIsAtomic | src/db.c:175-195 | a finished slot-by-slot scan has done the whole pool operation |
| Locks.CutScan | src/db.c:265-297 | a scan cut by death is a shorter sweep, or happened wholly or not at all |
| Locks.StepRefines | src/shmem.c:86-140 | each step is seen from outside as nothing or as one atomic pool step |
| Locks.RunRefines | src/shmem.c:119-140 | any interleaving of scans and deaths leaves the table as the critical sections one after the other |
| PoolScans.MoveSimulates | src/db.c:164-306 | each move of a worker that scans slot by slot, deaths in mid-scan included, stands for steps of a legal run of the pool |
| PoolScans.ScansOpen | src/db.c:164-306 | when nobody is inside, a process can start the scan its request is up to, and a sweep at any time |
| PoolScans.ScanGoesOn | src/db.c:164-306 | inside, the scan goes on slot by slot to its end |
| PoolScans.OthersOpen | src/db.c:164-306 | outside of the table requests arrive, open their handle and give up, and processes come and die |
| PoolScans.ScansKeepCount | src/shmem.c:119-140 | for every interleaving of slot-by-slot scans under the semaphore, table and requests are those of a legal run of the pool, so each live slot counts its holders |

## Left out

- Database drivers: they appear as functions from a request to result sets or an error text.
- The web server module, origin check, query strings and the interactive shell: plumbing.
- Logging, timers, signals, `fork`/`exec`, `select` timeouts and `errno`: `recv` gives bytes, end or error; an interrupted `semop` is not modelled.
- Freeing of memory and failed allocation.
- Surrogate pairs: the reader refuses `\u` escapes of surrogates, which the writer never produces.
- Overflow of `atoi`, of the column counter and of printed numbers: integers are unbounded except where a field width or the 32-bit use counter matters.
- Fixed sizes of the `colname` and `tmp` buffers in src/db.c.
- Queries.RunQuery: what the pool, the connector and the database answer are its inputs; an error text of a direct connection that does not fit its 500 bytes overflows in C and is kept whole here.
- Queries.ResponseReadsIff: result sets in standard mode; for CSV mode CsvExactness.CsvDataReadsIff covers the data member in an object of its own.
- Framing.SendString: sending is a sequence of accepted byte counts; a send that accepts nothing for ever is not modelled.
- Transparency.SessionTransparent: is about the text given to the session; for named connections the code passes the SQL before parameter substitution, so `Params` does not compose with it.
- Workers.SendRequest: after a failed send it does not say how much was sent.
- Workers.Initialize: a reply that cannot be read leaves the C buffer undefined; the model returns -1.
- Transparency.SessionTransparent: the connector's port is never sent by the worker and is not covered.
- Processes.ReceiveResults: an end of stream in the middle of a result is taken as a complete result, as in the code.
- Sessions.EveryScheduleEnds: the two processes of the transition system hold their buffers as values; that arrays and pointers implement them is Framing.RecvString, Processes.ConnectorProcess.Serve and Processes.ReceiveResults.
- Responses.ResponseRoundTrip: standard mode only; for CSV mode CsvExactness.CsvDataReadsIff covers the data member in an object of its own.
- JsonDrive.WriterRoundTrip: keys must need no escaping (JsonRoundTrip.RawKeyIff shows why) and numbers must be numerals, since both are copied raw.
- `json_add_value`: it has no caller.
- PoolSystem.EveryRunKeepsCount: its runs leave out hard timeouts of held slots, wrap-around of the counter, failed connects to a helper and administrator kills, each of which has its exact condition in a lemma of its own; so do those of PoolScans.ScansKeepCount; the early return after a failed initialisation is in, and its slot stays held.
- PoolSystem.EveryRunKeepsCount: says nothing on uniqueness of named keys, because search and allocation are separate critical sections.
- PoolSystem.StepKeeps: a failed `tmpnam` is only in `Pools`; handles are unique names, so reuse of an address after `free` is not modelled.
- Pools.Pool.WaitForConnection: sees the answers of the world to its rounds as a finite sequence, and reports that it is still waiting when that is used up.
- Locks.StepRefines: one slot is visited in one step; a death inside a single slot's update is not modelled.
- Creation and removal of the shared segment after start-up, and the path without a segment.
- `tm_create`, the slot number field and the status page.
