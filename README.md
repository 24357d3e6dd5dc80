# frida-ipa-dump: the download-message dispatcher

`dump.py` attaches to an iOS application process, loads an agent into it and
receives the agent's messages. The decrypted archive comes back as one or more
downloads. Each download is a `start` message, then `data` messages whose
binary part is a chunk of the file, then `end` (or `error`). `IPADump` keeps
the open downloads in `tasks`, a dictionary from the agent's session id to a
`Task`, which is an output file opened for writing. A `finish` message is meant
to detach the session and exit; as written it raises instead (see
"## Findings"). This project models:

- `Task` as a record holding the bytes written through its handle and an open
  flag (`transfer.dfy`, module `Transfer`);
- the classification half of `on_message`: which handler a message reaches,
  with which arguments, or what the dispatch raises (`dispatch.dfy`, module
  `Dispatch`);
- the dumper's state and what each handler does to it, as a pure `Step` and
  as the class `IPADump`, whose `tasks` map field is updated in place by one
  method per handler (`dumper.dfy`, module `Dumper`);
- runs over a sequence of delivered messages and the reassembly property
  (`trace.dfy`, module `Trace`);
- the output-name rule of `run` (`output_name.dfy`, module `OutputName`).

A raised Python exception is modelled as a `Failure`/`Fail` value carrying the
error. Each handler raises before it changes anything, so a failing message
leaves the state as it was. Over a run of messages, a raised exception is
reported by the delivery layer, which keeps delivering (frida's callback
wrapper is not part of this model). `sys.exit(0)` is an exit-status field. In
`Trace.Run`, once it is set the process has ended and no later message is
handled; `IPADump.OnMessage`, like `on_message`, does not look at it.
`os.path.isdir(output)` is a parameter. `os.path.join` is the POSIX rule for two
components. `State.released` (a ghost field of the class) lists the tasks closed
so far, in order. The source has no such list; it stands for what has been
handed to the file system, so that the content of a finished download can be
stated.

The model follows what the code does, including these behaviours that a more defensive design would avoid:

- a second `start` for the same session replaces the old task;
- `data`, `end` or `error` for an unknown session raises a `KeyError`;
- an unknown event raises a `KeyError`;
- `finish` does not close the open tasks.

## Model

| member | source | states |
|---|---|---|
| Transfer.Open | dump.py:55-59 | a new task has an empty (truncated) content, is open, and records its session, path and size |
| Transfer.Close | dump.py:67-68 | a closed task is no longer open and keeps its content, session, path and size |
| Transfer.Finish | dump.py:64-65 | finishing a task is closing it |
| Transfer.Write | dump.py:61-62 | a write succeeds exactly when the chunk is bytes and the handle is open; it appends the chunk verbatim and changes nothing else; otherwise it raises the type error or the closed-file error |
| Transfer.WriteAllAppends | dump.py:61-62 | writing chunks one after another to an open task leaves its old content followed by the chunks in the order written |
| Transfer.OpenWriteCloseContent | dump.py:55-68 | a task opened (truncated), written with c1..cn and closed holds exactly c1 + ... + cn and keeps its session, path and size |
| Transfer.ClosedRejectsWrites | dump.py:61-68 | after close, every further write raises the closed-file error |
| Dispatch.Missing | dump.py:118 | the handler call raises for missing arguments exactly when the session, or for `start` the size, is absent; "session" is reported exactly when the session is absent |
| Dispatch.Route | dump.py:102-125 | a message is ignored exactly when its type is not 'send'; a sent message whose payload is not a dictionary raises; it is classified as `finish` exactly when it is sent with subject 'finish'; it is unrecognized exactly when it is sent with a subject other than 'download' and 'finish' (a missing payload counts as empty) |
| Dispatch.RouteDownload | dump.py:108-118 | a sent download message with a session reaches the handler its event names, with that session, its size for `start` and the message's binary part for `data`; `start` without a size raises for the missing size |
| Dispatch.RouteUnknownEvent | dump.py:110-117 | a download event other than start, data, end and error (or none) raises from the handler table |
| Dispatch.RouteMissingSession | dump.py:117-118 | a known download event in a payload without a session raises before any handler runs, naming the session argument |
| Dumper.Initial | dump.py:73-84 | a new dumper has an empty table, no session and no exit status |
| Dumper.CloseStep | dump.py:98-100 | raises the KeyError for the session exactly when it is not in the table; otherwise removes it, keeps the other entries and records its task, closed, as released; nothing else changes |
| Dumper.Step | dump.py:86-122 | no handler changes the archive name or drops a released task; only `finish` changes the session or the exit status; only `end` and `error` release tasks |
| Dumper.Handle | dump.py:102-125 | a message whose type is not 'send' leaves the whole state unchanged and does not end the run; so does a sent message with any subject other than 'download' and 'finish'; a sent message whose payload is not a dictionary raises |
| Dumper.StartReplaces | dump.py:86-87 | `start(s)` puts a fresh open, empty task for `s` writing to the archive name in the table, in place of any earlier one; the other keys and the rest of the state are unchanged |
| Dumper.DataAppends | dump.py:89-90 | `data(s, chunk)` for a session in the table appends the chunk to that task and changes nothing else |
| Dumper.CloseRemoves | dump.py:92-100 | `end(s)` and `error(s)` for a session in the table close its task, record it as released and remove `s`; the other entries are unchanged |
| Dumper.StepRaisesIff | dump.py:89-100 | handling raises exactly for: a rejected dispatch, `finish` with no session, `data`/`end`/`error` for a session not in the table (a KeyError for that session), and `data` without bytes; a write never meets a closed handle |
| Dumper.FinishTerminates | dump.py:119-122 | `finish` with an attached session detaches it and sets exit status 0, leaving the table, open tasks included, unchanged |
| Dumper.StepIsolated | dump.py:86-100 | a message about another session, or about none, leaves the entry of a session as it was |
| Dumper.StepKeepsTableValid | dump.py:86-100 | every handler keeps the invariant that the tasks in the table are open and stored under their own session id |
| Dumper.AttachSession | dump.py:136 | the corrected attach stores the session attached to the pid, not detached, and changes nothing else |
| Dumper.IPADump.constructor | dump.py:73-84 | the new object's state is the initial state, with its pid and output |
| Dumper.IPADump.ChooseName | dump.py:160-169 | sets the archive name to the output-name rule's result and changes nothing else |
| Dumper.IPADump.Attach | dump.py:136 | the corrected attach of the finding below: keeps the attached session in the object, so that `finish` can detach it (as written, line 136 binds a local variable and leaves the object unchanged) |
| Dumper.IPADump.OnDownloadStart | dump.py:86-87 | the table gains, or has replaced, the entry for the session with a fresh task; nothing else changes |
| Dumper.IPADump.OnDownloadData | dump.py:89-90 | raises the KeyError for an unknown session and the type error for a missing payload, changing nothing; otherwise appends the payload to that session's task only |
| Dumper.IPADump.CloseSession | dump.py:98-100 | raises the KeyError for an unknown session, changing nothing; otherwise closes the task, records it as released and deletes its entry |
| Dumper.IPADump.OnDownloadFinish | dump.py:92-93 | the effect of closing the session |
| Dumper.IPADump.OnDownloadError | dump.py:95-96 | the effect of closing the session, the same as for `end` |
| Dumper.IPADump.OnMessage | dump.py:102-125 | the new state is the one `Handle` gives for the message, or the old state when handling raises, with the error returned; like the source it does not check the exit status |
| Trace.Run | dump.py:102-125 | over delivered messages the archive name is unchanged and released tasks are only added; after the exit status is set nothing changes, and the only exit status ever set is 0 |
| Trace.RunAfterExit | dump.py:122 | once the exit status is set, no later message changes anything |
| Trace.RunKeepsTableValid | dump.py:86-100 | over any run of messages the table invariant holds |
| Trace.InterleavedDataAppends | dump.py:89-90 | while the download of `s` is open, a run of messages without `finish` or `start`/`end`/`error` for `s` grows its task by exactly the chunks sent for `s`, in order |
| Trace.TransferReassembles | dump.py:86-100 | `start(s)`, then `data` for `s` interleaved with messages for other sessions, then `end(s)` or `error(s)`: the task closed last holds the concatenated chunks for `s`, path is the archive name, and `s` is gone from the table; it is the task a single open, write-each-chunk, close lifecycle gives |
| Trace.SessionStaysUnset | dump.py:76 | with no session stored, no message ever stores one or sets an exit status |
| Trace.FinishNeverExitsAsWritten | dump.py:119-122 | as written, after any messages `finish` raises for the missing session and the exit status is never set |
| Trace.FinishExitsOnceAttached | dump.py:119-122 | with the session stored, `finish` after any messages without `finish` detaches it, sets exit status 0 and leaves the table as those messages made it |
| OutputName.Digits | dump.py:162 | the decimal digits of a natural number, non-empty, starting with '0' only for zero |
| OutputName.Decimal | dump.py:162 | `str(n)`: digits, a leading '-' exactly for a negative number, and no leading zero except for zero itself |
| OutputName.Join | dump.py:164-165 | POSIX `os.path.join(a, b)`: an absolute `b` replaces `a`; otherwise the result is `a`, then one '/' exactly when `a` is non-empty and does not already end with one, then `b` |
| OutputName.IpaName | dump.py:160-167 | no output gives `<pid>.ipa`; a directory gives that name joined to the directory; any other output is the name unchanged |
| OutputName.DecimalRoundTrip | dump.py:162 | the decimal text of the pid reads back as the pid |
| OutputName.NoOutputNamesPid | dump.py:160-162 | with no output the name is `<pid>.ipa`, and the pid can be read back from it |
| OutputName.DirectoryOutputHoldsPidFile | dump.py:163-165 | with a directory as output the name is the directory, at most one added separator, and `<pid>.ipa`, which is its last component |

## Findings

| source | as written | input that shows it | evidently intended | confidence | as-written member | corrected member |
|---|---|---|---|---|---|---|
| dump.py:121 | `self.session.detach()`, but `self.session` is only ever set to None (dump.py:76); `dump` keeps the attached session in a local variable (dump.py:136) | any run in which the agent sends `{type: 'send', payload: {subject: 'finish'}}`: the handler raises AttributeError and `sys.exit(0)` is not reached | `dump` stores the attached session in `self.session`, so `finish` detaches it and exits with status 0 (Trace.FinishExitsOnceAttached) | not executed; high | Trace.FinishNeverExitsAsWritten | Dumper.AttachSession |

## Left out

- Device and application discovery (`find_app`) and `main`'s argument parsing: foreign calls into frida and CLI plumbing.
- The agent pipeline of `dump` (script creation and loading, `plugins`, `root`, `data`, `decrypt`, `archive`) and its final detach (dump.py:150-151): foreign calls into the agent. Only the attach that `finish` depends on is modelled, in its corrected form, as `IPADump.Attach`.
- `load_agent`: file I/O.
- Logging (`print`, `on_console` level filtering): output only.
- File-system failures of `open`, `write` and `close`, including opening the empty name when `run` has not chosen one: real file handles are abstracted as bytes plus an open flag.
- The disk itself: all tasks open the same archive name, and what ends up on disk when two open handles write the same path is not modelled. The model records the bytes written through each handle.
- The handle of a task replaced by a second `start` is dropped without being closed. CPython may close it when the object is collected; the model does not follow garbage collection.
- Payload field values other than present or absent strings and integers, e.g. a non-hashable session id (a payload that is not a dictionary at all is modelled: it raises); and a payload that itself has a `data` key, which makes the handler call raise a TypeError for a repeated argument.
- What `sys.exit(0)` does inside the delivery thread: the exit is modelled as a terminal status field.
- Concurrency: messages are handled one at a time, as the single callback delivers them; there is no locking in the source.
- `os.path.join` on Windows: the join is the POSIX rule.
- The `size` of a task is recorded and never used, as in the source; `keepWatch` and `verbose` only pass through.
