/**
 * One open transfer, the `Task` of dump.py: an output file opened for
 * writing (which truncates it), to which the chunks of one download are
 * appended until it is closed. The file handle is abstracted as the bytes
 * written through it and whether it is still open.
 */
module Transfer {
  import opened Wrappers

  newtype byte = b: int | 0 <= b < 0x100

  /** The correlation key the agent attaches to every message of one download. */
  type SessionId = string

  /** What `file.write` raises on the handle of a task. */
  datatype FileError =
    | NotBytes        // the payload is not a bytes-like object (the message carried no data)
    | ClosedFile      // the handle was already closed

  datatype Task = Task(session: SessionId, path: string, size: int, content: seq<byte>, open: bool)

  /** `Task(session, path, size)`: opening with 'wb' leaves an empty, open file. */
  function Open(session: SessionId, path: string, size: int): (t: Task)
    ensures t.open && t.content == []
    ensures t.session == session && t.path == path && t.size == size
  {
    Task(session, path, size, [], true)
  }

  /**
   * `Task.write`: appends the chunk verbatim. The argument type is checked
   * before the handle's state, as the file object does.
   */
  function Write(t: Task, data: Option<seq<byte>>): (r: Result<Task, FileError>)
    ensures r.Success? <==> data.Some? && t.open
    ensures data.None? ==> r == Failure(NotBytes)
    ensures data.Some? && !t.open ==> r == Failure(ClosedFile)
    ensures r.Success? ==> r.value.content == t.content + data.value
    ensures r.Success? ==> r.value == t.(content := r.value.content)
  {
    match data
    case None => Failure(NotBytes)
    case Some(chunk) =>
      if t.open then Success(t.(content := t.content + chunk)) else Failure(ClosedFile)
  }

  /** `Task.close`: closing releases the handle and keeps what was written. */
  function Close(t: Task): (r: Task)
    ensures !r.open
    ensures r.content == t.content && r.session == t.session && r.path == t.path && r.size == t.size
  {
    t.(open := false)
  }

  /** `Task.finish` only closes the task. */
  function Finish(t: Task): (r: Task)
    ensures r == Close(t)
  {
    Close(t)
  }

  /** The concatenation of a sequence of chunks, in order. */
  function Concat(chunks: seq<seq<byte>>): seq<byte>
  {
    if chunks == [] then [] else Concat(chunks[..|chunks| - 1]) + chunks[|chunks| - 1]
  }

  /** Concatenating two runs of chunks is concatenating their concatenations. */
  lemma {:induction false} ConcatAppend(a: seq<seq<byte>>, b: seq<seq<byte>>)
    ensures Concat(a + b) == Concat(a) + Concat(b)
  {
    if b == [] {
      assert a + b == a;
    } else {
      var init := b[..|b| - 1];
      assert (a + b)[..|a + b| - 1] == a + init;
      assert (a + b)[|a + b| - 1] == b[|b| - 1];
      ConcatAppend(a, init);
    }
  }

  /** Writes the chunks one after another, stopping at the first write that raises. */
  function WriteAll(t: Task, chunks: seq<seq<byte>>): Result<Task, FileError>
  {
    if chunks == [] then Success(t)
    else
      match WriteAll(t, chunks[..|chunks| - 1])
      case Failure(e) => Failure(e)
      case Success(t') => Write(t', Some(chunks[|chunks| - 1]))
  }

  /**
   * Writing chunks one by one to an open task succeeds and leaves the task
   * holding what it held followed by the chunks in the order written.
   */
  lemma {:induction false} WriteAllAppends(t: Task, chunks: seq<seq<byte>>)
    requires t.open
    ensures WriteAll(t, chunks) == Success(t.(content := t.content + Concat(chunks)))
  {
    if chunks != [] {
      var init := chunks[..|chunks| - 1];
      WriteAllAppends(t, init);
      var before := t.(content := t.content + Concat(init));
      assert Concat(chunks) == Concat(init) + chunks[|chunks| - 1];
      assert before.content + chunks[|chunks| - 1] == t.content + Concat(chunks);
      assert WriteAll(t, chunks) == Write(before, Some(chunks[|chunks| - 1]));
    } else {
      assert t.content + Concat(chunks) == t.content;
    }
  }

  /** A freshly opened task written with chunks c1..cn and closed holds exactly c1 + ... + cn. */
  lemma OpenWriteCloseContent(session: SessionId, path: string, size: int, chunks: seq<seq<byte>>)
    ensures WriteAll(Open(session, path, size), chunks).Success?
    ensures Close(WriteAll(Open(session, path, size), chunks).value)
         == Task(session, path, size, Concat(chunks), false)
  {
    WriteAllAppends(Open(session, path, size), chunks);
  }

  /** A closed task refuses every write and keeps its content. */
  lemma {:induction false} ClosedRejectsWrites(t: Task, chunks: seq<seq<byte>>)
    requires !t.open && chunks != []
    ensures WriteAll(t, chunks) == Failure(ClosedFile)
  {
    var init := chunks[..|chunks| - 1];
    if init != [] {
      ClosedRejectsWrites(t, init);
    }
  }
}
