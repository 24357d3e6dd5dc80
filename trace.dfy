/**
 * Runs of the dumper over a sequence of delivered messages, already
 * classified into commands. An exception raised while a message is handled
 * is reported by the delivery layer, which goes on delivering; once the
 * exit status is set the process has ended and nothing further is handled.
 */
module Trace {
  import opened Wrappers
  import opened Transfer
  import opened Dispatch
  import opened Dumper

  /** The state after one delivered command; a raised exception leaves the state as it was. */
  function Next(st: State, c: Command): State
  {
    match Step(st, c)
    case Success(st') => st'
    case Failure(_) => st
  }

  function Run(st: State, cmds: seq<Command>): (r: State)
    ensures r.ipaName == st.ipaName && st.released <= r.released
    ensures st.exitCode.Some? ==> r == st
    ensures st.exitCode.None? && r.exitCode.Some? ==> r.exitCode == Some(0)
    decreases |cmds|
  {
    if cmds == [] || st.exitCode.Some? then st else Run(Next(st, cmds[0]), cmds[1..])
  }

  /** Delivering one trace and then another is delivering their concatenation. */
  lemma {:induction false} RunAppend(st: State, a: seq<Command>, b: seq<Command>)
    ensures Run(st, a + b) == Run(Run(st, a), b)
    decreases |a|
  {
    if a == [] {
      assert a + b == b;
    } else if st.exitCode.None? {
      assert (a + b)[0] == a[0] && (a + b)[1..] == a[1..] + b;
      RunAppend(Next(st, a[0]), a[1..], b);
    }
  }

  /** After the exit status is set, no later message changes anything. */
  lemma RunAfterExit(st: State, cmds: seq<Command>)
    requires st.exitCode.Some?
    ensures Run(st, cmds) == st
  {
  }

  /** Every run keeps the table invariant: tasks in the table are open and keyed by their session. */
  lemma {:induction false} RunKeepsTableValid(st: State, cmds: seq<Command>)
    requires TableValid(st.tasks)
    ensures TableValid(Run(st, cmds).tasks)
    decreases |cmds|
  {
    if cmds != [] && st.exitCode.None? {
      if Step(st, cmds[0]).Success? {
        StepKeepsTableValid(st, cmds[0]);
      }
      RunKeepsTableValid(Next(st, cmds[0]), cmds[1..]);
    }
  }

  /**
   * A command that may arrive while the download of `s` is open: anything
   * but `finish` and a `start`, `end` or `error` for `s` itself.
   */
  predicate Interleavable(c: Command, s: SessionId) {
    !c.Finish? && (IsAbout(c, s) ==> c.DownloadData?)
  }

  /** The payload a command delivers for `s`: one chunk for `data` with bytes for `s`, none otherwise. */
  function DataOf(c: Command, s: SessionId): seq<seq<byte>>
  {
    if c.DownloadData? && c.session == s && c.data.Some? then [c.data.value] else []
  }

  /** The chunks the `data` commands for `s` deliver, in delivery order. */
  function DataFor(cmds: seq<Command>, s: SessionId): seq<seq<byte>>
  {
    if cmds == [] then [] else DataOf(cmds[0], s) + DataFor(cmds[1..], s)
  }

  /** Those chunks concatenated: what the task of `s` should receive. */
  function ChunksFor(cmds: seq<Command>, s: SessionId): seq<byte>
  {
    Concat(DataFor(cmds, s))
  }

  lemma NextInterleavable(st: State, s: SessionId, c: Command)
    requires TableValid(st.tasks) && s in st.tasks && st.exitCode.None?
    requires Interleavable(c, s)
    ensures var n := Next(st, c);
      && TableValid(n.tasks) && n.exitCode.None? && n.ipaName == st.ipaName
      && s in n.tasks
      && n.tasks[s] == st.tasks[s].(content := st.tasks[s].content + Concat(DataOf(c, s)))
  {
    if DataOf(c, s) != [] {
      assert DataOf(c, s)[..0] == [];
      assert Concat(DataOf(c, s)) == c.data.value;
    }
    if Step(st, c).Success? {
      StepKeepsTableValid(st, c);
      if IsAbout(c, s) {
        DataAppends(st, s, c.data.value);
      } else {
        StepIsolated(st, c, s);
      }
    }
  }

  /**
   * While the download of `s` is open, messages for other sessions do not
   * touch its task: its content grows by exactly the chunks sent for `s`.
   */
  lemma {:induction false} InterleavedDataAppends(st: State, s: SessionId, cmds: seq<Command>)
    requires TableValid(st.tasks) && s in st.tasks && st.exitCode.None?
    requires forall i :: 0 <= i < |cmds| ==> Interleavable(cmds[i], s)
    ensures var st' := Run(st, cmds);
      && TableValid(st'.tasks) && st'.exitCode.None? && st'.ipaName == st.ipaName
      && s in st'.tasks
      && st'.tasks[s] == st.tasks[s].(content := st.tasks[s].content + ChunksFor(cmds, s))
    decreases |cmds|
  {
    if cmds == [] {
      assert st.tasks[s].content + ChunksFor(cmds, s) == st.tasks[s].content;
    } else {
      var n := Next(st, cmds[0]);
      NextInterleavable(st, s, cmds[0]);
      InterleavedDataAppends(n, s, cmds[1..]);
      ConcatAppend(DataOf(cmds[0], s), DataFor(cmds[1..], s));
      assert st.tasks[s].content + Concat(DataOf(cmds[0], s)) + ChunksFor(cmds[1..], s)
          == st.tasks[s].content + ChunksFor(cmds, s);
    }
  }

  /**
   * `start(s)`, then any interleaving of `data` for `s` with messages for
   * other sessions, then `end(s)` or `error(s)`: the task closed last holds
   * the chunks for `s` in delivery order, and `s` is no longer in the table.
   */
  lemma TransferReassembles(st: State, s: SessionId, size: int, cmds: seq<Command>, closer: Command)
    requires TableValid(st.tasks) && st.exitCode.None?
    requires forall i :: 0 <= i < |cmds| ==> Interleavable(cmds[i], s)
    requires closer == DownloadEnd(s) || closer == DownloadError(s)
    ensures var st' := Run(st, [StartDownload(s, size)] + cmds + [closer]);
      && s !in st'.tasks
      && |st'.released| > 0
      && st'.released[|st'.released| - 1] == Task(s, st.ipaName, size, ChunksFor(cmds, s), false)
      && WriteAll(Open(s, st.ipaName, size), DataFor(cmds, s)).Success?
      && st'.released[|st'.released| - 1]
         == Close(WriteAll(Open(s, st.ipaName, size), DataFor(cmds, s)).value)
  {
    OpenWriteCloseContent(s, st.ipaName, size, DataFor(cmds, s));
    var start := [StartDownload(s, size)];
    var st1 := Run(st, start);
    assert start[0] == StartDownload(s, size) && start[1..] == [];
    assert Run(Next(st, start[0]), []) == Next(st, start[0]);
    assert st1 == Next(st, StartDownload(s, size));
    StartReplaces(st, s, size);
    StepKeepsTableValid(st, StartDownload(s, size));
    InterleavedDataAppends(st1, s, cmds);
    var st2 := Run(st1, cmds);
    assert st2.tasks[s] == Task(s, st.ipaName, size, ChunksFor(cmds, s), true);
    RunAppend(st, start, cmds);
    RunAppend(st, start + cmds, [closer]);
    CloseRemoves(st2, closer);
    assert [closer][1..] == [];
    assert Run(st2, [closer]) == Next(st2, closer);
  }

  /** Without `finish` among them, messages never change the session or the exit status. */
  lemma {:induction false} SessionKeptWithoutFinish(st: State, cmds: seq<Command>)
    requires forall i :: 0 <= i < |cmds| ==> !cmds[i].Finish?
    ensures Run(st, cmds).session == st.session && Run(st, cmds).exitCode == st.exitCode
    decreases |cmds|
  {
    if cmds != [] && st.exitCode.None? {
      SessionKeptWithoutFinish(Next(st, cmds[0]), cmds[1..]);
    }
  }

  /** With no session to detach, no message ever sets a session or an exit status. */
  lemma {:induction false} SessionStaysUnset(st: State, cmds: seq<Command>)
    requires st.session.None?
    ensures Run(st, cmds).session.None? && Run(st, cmds).exitCode == st.exitCode
    decreases |cmds|
  {
    if cmds != [] && st.exitCode.None? {
      SessionStaysUnset(Next(st, cmds[0]), cmds[1..]);
    }
  }

  /**
   * As written, `dump` keeps the attached session in a local variable, so
   * `self.session` stays None: after any messages, `finish` raises and the
   * exit status 0 is never reached.
   */
  lemma FinishNeverExitsAsWritten(name: string, cmds: seq<Command>)
    ensures Step(Run(Initial().(ipaName := name), cmds), Finish) == Failure(NoAgentSession)
    ensures Run(Initial().(ipaName := name), cmds + [Finish]).exitCode.None?
  {
    SessionStaysUnset(Initial().(ipaName := name), cmds);
    SessionStaysUnset(Initial().(ipaName := name), cmds + [Finish]);
  }

  /**
   * With the session kept in `self.session`, `finish` after any messages
   * without `finish` detaches that session and sets exit status 0, and the
   * table, open tasks included, is left as those messages made it.
   */
  lemma FinishExitsOnceAttached(name: string, pid: int, cmds: seq<Command>)
    requires forall i :: 0 <= i < |cmds| ==> !cmds[i].Finish?
    ensures var before := Run(AttachSession(Initial().(ipaName := name), pid), cmds);
      var after := Run(AttachSession(Initial().(ipaName := name), pid), cmds + [Finish]);
      && after.exitCode == Some(0)
      && after.session == Some(AgentSession(pid, true))
      && after.tasks == before.tasks
  {
    var st := AttachSession(Initial().(ipaName := name), pid);
    SessionKeptWithoutFinish(st, cmds);
    var before := Run(st, cmds);
    RunAppend(st, cmds, [Finish]);
    FinishTerminates(before);
    assert [Finish][1..] == [];
    assert Run(before, [Finish]) == Next(before, Finish);
  }
}
