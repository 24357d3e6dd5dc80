/**
 * `IPADump`: the table of open transfers keyed by session id and the
 * handlers that `on_message` dispatches to. `Step` is what one dispatched
 * command does to the dumper's state; the class below performs the same
 * changes in place, one method per handler.
 */
module Dumper {
  import opened Wrappers
  import opened Transfer
  import opened Dispatch
  import OutputName

  /** The attached agent session: the target process and whether it has been detached. */
  datatype AgentSession = AgentSession(pid: int, detached: bool)

  /**
   * The dumper's state: the task table, the archive name every task writes
   * to, the attached session (None when there is none), the exit status once
   * the process has been told to exit, and the tasks closed so far in the
   * order they were closed (what was handed to the file system).
   */
  datatype State = State(tasks: map<SessionId, Task>, ipaName: string,
                         session: Option<AgentSession>, exitCode: Option<int>,
                         released: seq<Task>)

  /** Every task in the table is open and is stored under its own session id. */
  predicate TableValid(tasks: map<SessionId, Task>) {
    forall k :: k in tasks ==> tasks[k].open && tasks[k].session == k
  }

  /** The state `IPADump.__init__` leaves: no tasks, an empty name, no session. */
  function Initial(): (st: State)
    ensures TableValid(st.tasks) && st.session.None? && st.exitCode.None?
    ensures st.tasks == map[] && st.ipaName == "" && st.released == []
  {
    State(map[], "", None, None, [])
  }

  /** `close_session`: finish the task of `s` and delete it from the table. */
  function CloseStep(st: State, s: SessionId): (r: Result<State, Error>)
    ensures r.Failure? <==> s !in st.tasks
    ensures r.Failure? ==> r.error == UnknownSession(s)
    ensures r.Success? ==>
      && r.value.tasks.Keys == st.tasks.Keys - {s}
      && (forall k :: k in r.value.tasks ==> r.value.tasks[k] == st.tasks[k])
      && r.value.released == st.released + [Close(st.tasks[s])]
      && r.value == st.(tasks := r.value.tasks, released := r.value.released)
  {
    if s !in st.tasks then Failure(UnknownSession(s))
    else Success(st.(tasks := st.tasks - {s}, released := st.released + [Transfer.Finish(st.tasks[s])]))
  }

  /**
   * What one dispatched command does. A raised exception is a Failure; every
   * handler raises before it changes anything, so a Failure carries no state.
   */
  function Step(st: State, c: Command): (r: Result<State, Error>)
    ensures r.Success? ==> r.value.ipaName == st.ipaName && st.released <= r.value.released
    ensures r.Success? && !c.Finish? ==> r.value.session == st.session && r.value.exitCode == st.exitCode
    ensures r.Success? && !(c.DownloadEnd? || c.DownloadError?) ==> r.value.released == st.released
  {
    match c
    case Ignore => Success(st)
    case Unrecognized => Success(st)
    case Reject(e) => Failure(e)
    case Finish =>
      if st.session.None? then Failure(NoAgentSession)
      else Success(st.(session := Some(st.session.value.(detached := true)), exitCode := Some(0)))
    case StartDownload(s, size) => Success(st.(tasks := st.tasks[s := Open(s, st.ipaName, size)]))
    case DownloadData(s, data) =>
      if s !in st.tasks then Failure(UnknownSession(s))
      else
        (match Write(st.tasks[s], data)
         case Failure(e) => Failure(File(e))
         case Success(t) => Success(st.(tasks := st.tasks[s := t])))
    case DownloadEnd(s) => CloseStep(st, s)
    case DownloadError(s) => CloseStep(st, s)
  }

  /** `on_message` as a whole: classify the message, then run its handler. */
  function Handle(st: State, msg: Message, data: Option<seq<byte>>): (r: Result<State, Error>)
    ensures msg.msgType != Some("send") ==> r == Success(st)
    ensures msg.msgType == Some("send") && msg.payload.NotDict? ==> r == Failure(PayloadNotDict)
    ensures (msg.msgType == Some("send") && !msg.payload.NotDict?
             && FieldsOf(msg.payload).subject !in {Some("download"), Some("finish")})
            ==> r == Success(st)
  {
    Step(st, Route(msg, data))
  }

  /**
   * `start` for `s` puts a fresh open task for `s`, writing to the archive
   * name, in the table, in place of any earlier task for `s`, and leaves
   * every other entry and the rest of the state as they were.
   */
  lemma StartReplaces(st: State, s: SessionId, size: int)
    ensures Step(st, StartDownload(s, size)).Success?
    ensures var st' := Step(st, StartDownload(s, size)).value;
      && st'.tasks.Keys == st.tasks.Keys + {s}
      && st'.tasks[s] == Task(s, st.ipaName, size, [], true)
      && (forall k :: k in st.tasks && k != s ==> st'.tasks[k] == st.tasks[k])
      && st' == st.(tasks := st'.tasks)
  {
  }

  /** `data` for a session in the table appends the chunk to its task and changes nothing else. */
  lemma DataAppends(st: State, s: SessionId, chunk: seq<byte>)
    requires TableValid(st.tasks) && s in st.tasks
    ensures Step(st, DownloadData(s, Some(chunk))).Success?
    ensures var st' := Step(st, DownloadData(s, Some(chunk))).value;
      && st'.tasks.Keys == st.tasks.Keys
      && st'.tasks[s] == st.tasks[s].(content := st.tasks[s].content + chunk)
      && (forall k :: k in st.tasks && k != s ==> st'.tasks[k] == st.tasks[k])
      && st' == st.(tasks := st'.tasks)
  {
  }

  /**
   * `end` and `error` for a session in the table close its task, remove the
   * session from the table and leave the other entries as they were.
   */
  lemma CloseRemoves(st: State, c: Command)
    requires c.DownloadEnd? || c.DownloadError?
    requires c.session in st.tasks
    ensures Step(st, c).Success?
    ensures var st' := Step(st, c).value;
      && st'.tasks.Keys == st.tasks.Keys - {c.session}
      && (forall k :: k in st'.tasks ==> st'.tasks[k] == st.tasks[k])
      && st'.released == st.released + [st.tasks[c.session].(open := false)]
      && st' == st.(tasks := st'.tasks, released := st'.released)
  {
  }

  /**
   * Exactly the following raise: a rejected dispatch, `finish` without a
   * session, `data`, `end` or `error` for a session not in the table, and
   * `data` without a payload. A session that is not in the table raises a
   * KeyError for that session, and under the table invariant no handler
   * writes to a closed handle.
   */
  lemma StepRaisesIff(st: State, c: Command)
    requires TableValid(st.tasks)
    ensures Step(st, c).Failure? <==>
      || c.Reject?
      || (c.Finish? && st.session.None?)
      || ((c.DownloadData? || c.DownloadEnd? || c.DownloadError?) && c.session !in st.tasks)
      || (c.DownloadData? && c.data.None?)
    ensures (c.DownloadData? || c.DownloadEnd? || c.DownloadError?) && c.session !in st.tasks
      ==> Step(st, c) == Failure(UnknownSession(c.session))
    ensures !c.Reject? ==> Step(st, c) != Failure(File(ClosedFile))
  {
    if c.DownloadData? && c.session in st.tasks {
      assert st.tasks[c.session].open;
    }
  }

  /**
   * `finish`, once a session is attached, detaches it and sets exit status 0,
   * leaving the table as it was: open tasks are not closed.
   */
  lemma FinishTerminates(st: State)
    requires st.session.Some?
    ensures Step(st, Finish).Success?
    ensures var st' := Step(st, Finish).value;
      && st'.exitCode == Some(0)
      && st'.session == Some(AgentSession(st.session.value.pid, true))
      && st'.tasks == st.tasks && st'.released == st.released && st'.ipaName == st.ipaName
  {
  }

  /** A command about another session, or about none, leaves the entry for `k` as it was. */
  lemma StepIsolated(st: State, c: Command, k: SessionId)
    requires !IsAbout(c, k)
    requires Step(st, c).Success?
    ensures var st' := Step(st, c).value;
      && (k in st'.tasks <==> k in st.tasks)
      && (k in st.tasks ==> st'.tasks[k] == st.tasks[k])
  {
  }

  /** Every handler keeps the table invariant. */
  lemma StepKeepsTableValid(st: State, c: Command)
    requires TableValid(st.tasks)
    requires Step(st, c).Success?
    ensures TableValid(Step(st, c).value.tasks)
  {
  }

  /** `self.session` as the corrected `dump` sets it: the session attached to `pid`. */
  function AttachSession(st: State, pid: int): (st': State)
    ensures st'.session == Some(AgentSession(pid, false))
    ensures st' == st.(session := st'.session)
  {
    st.(session := Some(AgentSession(pid, false)))
  }

  class IPADump {
    const pid: int
    const output: Option<string>
    var tasks: map<SessionId, Task>
    var ipaName: string
    var session: Option<AgentSession>
    var exitCode: Option<int>
    ghost var released: seq<Task>

    ghost predicate Valid()
      reads this
    {
      TableValid(tasks)
    }

    ghost function Model(): State
      reads this
    {
      State(tasks, ipaName, session, exitCode, released)
    }

    constructor (pid: int, output: Option<string>)
      ensures Valid() && Model() == Initial()
      ensures this.pid == pid && this.output == output
    {
      this.pid := pid;
      this.output := output;
      tasks := map[];
      ipaName := "";
      session := None;
      exitCode := None;
      released := [];
    }

    /** The naming branch of `run`; `outputIsDir` is `os.path.isdir(output)`. */
    method ChooseName(outputIsDir: bool)
      requires Valid()
      modifies this
      ensures Valid()
      ensures Model() == old(Model()).(ipaName := OutputName.IpaName(pid, output, outputIsDir))
    {
      ipaName := OutputName.IpaName(pid, output, outputIsDir);
    }

    /**
     * The corrected attach of `dump`: the attached session is kept in
     * `self.session`, so that `finish` can detach it. As written, `dump`
     * keeps it in a local variable and leaves the object unchanged.
     */
    method Attach()
      requires Valid()
      modifies this
      ensures Valid()
      ensures Model() == AttachSession(old(Model()), pid)
    {
      session := Some(AgentSession(pid, false));
    }

    method OnDownloadStart(s: SessionId, size: int)
      requires Valid()
      modifies this
      ensures Valid()
      ensures tasks == old(tasks)[s := Open(s, ipaName, size)]
      ensures Model() == old(Model()).(tasks := tasks)
    {
      tasks := tasks[s := Open(s, ipaName, size)];
    }

    method OnDownloadData(s: SessionId, data: Option<seq<byte>>) returns (outcome: Outcome<Error>)
      requires Valid()
      modifies this
      ensures Valid()
      ensures outcome.Fail? <==> s !in old(tasks) || data.None?
      ensures s !in old(tasks) ==> outcome == Fail(UnknownSession(s))
      ensures s in old(tasks) && data.None? ==> outcome == Fail(File(NotBytes))
      ensures outcome.Fail? ==> Model() == old(Model())
      ensures outcome.Pass? ==>
        Model() == old(Model()).(tasks := old(tasks)[s := old(tasks)[s].(content := old(tasks)[s].content + data.value)])
    {
      if s !in tasks {
        return Fail(UnknownSession(s));
      }
      match Write(tasks[s], data)
      case Failure(e) =>
        outcome := Fail(File(e));
      case Success(t) =>
        tasks := tasks[s := t];
        outcome := Pass;
    }

    method CloseSession(s: SessionId) returns (outcome: Outcome<Error>)
      requires Valid()
      modifies this
      ensures Valid()
      ensures outcome.Fail? <==> s !in old(tasks)
      ensures outcome.Fail? ==> outcome == Fail(UnknownSession(s)) && Model() == old(Model())
      ensures outcome.Pass? ==>
        Model() == old(Model()).(tasks := old(tasks) - {s}, released := old(released) + [Transfer.Finish(old(tasks)[s])])
    {
      if s !in tasks {
        return Fail(UnknownSession(s));
      }
      released := released + [Transfer.Finish(tasks[s])];
      tasks := tasks - {s};
      outcome := Pass;
    }

    method OnDownloadFinish(s: SessionId) returns (outcome: Outcome<Error>)
      requires Valid()
      modifies this
      ensures Valid()
      ensures outcome.Fail? <==> s !in old(tasks)
      ensures outcome.Fail? ==> outcome == Fail(UnknownSession(s)) && Model() == old(Model())
      ensures outcome.Pass? ==> Model() == CloseStep(old(Model()), s).value
    {
      outcome := CloseSession(s);
    }

    method OnDownloadError(s: SessionId) returns (outcome: Outcome<Error>)
      requires Valid()
      modifies this
      ensures Valid()
      ensures outcome.Fail? <==> s !in old(tasks)
      ensures outcome.Fail? ==> outcome == Fail(UnknownSession(s)) && Model() == old(Model())
      ensures outcome.Pass? ==> Model() == CloseStep(old(Model()), s).value
    {
      outcome := CloseSession(s);
    }

    /**
     * `on_message`: the new state is the one `Handle` gives, or the old one
     * when it raises. Like the source, it does not look at the exit status;
     * that no message follows the exit is modelled by `Trace.Run`.
     */
    method OnMessage(msg: Message, data: Option<seq<byte>>) returns (outcome: Outcome<Error>)
      requires Valid()
      modifies this
      ensures Valid()
      ensures match Handle(old(Model()), msg, data)
        case Success(st) => outcome == Pass && Model() == st
        case Failure(e) => outcome == Fail(e) && Model() == old(Model())
    {
      match Route(msg, data)
      case Ignore =>
        outcome := Pass;
      case Unrecognized =>
        outcome := Pass;
      case Reject(e) =>
        outcome := Fail(e);
      case Finish =>
        if session.None? {
          outcome := Fail(NoAgentSession);
        } else {
          session := Some(session.value.(detached := true));
          exitCode := Some(0);
          outcome := Pass;
        }
      case StartDownload(s, size) =>
        OnDownloadStart(s, size);
        outcome := Pass;
      case DownloadData(s, d) =>
        outcome := OnDownloadData(s, d);
      case DownloadEnd(s) =>
        outcome := OnDownloadFinish(s);
      case DownloadError(s) =>
        outcome := OnDownloadError(s);
    }
  }
}
