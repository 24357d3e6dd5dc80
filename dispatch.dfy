/**
 * The classification half of `IPADump.on_message`: which handler an inbound
 * agent message reaches, with which arguments, or which exception the
 * dispatch itself raises. Running the chosen handler is `Dumper.Step`.
 */
module Dispatch {
  import opened Wrappers
  import opened Transfer

  /** The fields of a message's payload that the dispatcher reads; None is an absent key. */
  datatype Payload = Payload(subject: Option<string>, event: Option<string>,
                             session: Option<SessionId>, size: Option<int>)

  /** A message's `payload` entry: absent, a dictionary, or some other JSON value (null, a string, a list). */
  datatype PayloadField = Absent | Dict(fields: Payload) | NotDict

  /** An agent message: its `type`, possibly absent, and its `payload` entry. */
  datatype Message = Message(msgType: Option<string>, payload: PayloadField)

  /** `msg.get('payload', {})` for a message without a payload. */
  const EMPTY_PAYLOAD := Payload(None, None, None, None)

  /** The dictionary the dispatcher reads its fields from, `{}` when the payload is absent. */
  function FieldsOf(f: PayloadField): Payload
    requires !f.NotDict?
  {
    if f.Dict? then f.fields else EMPTY_PAYLOAD
  }

  /** The exceptions that processing one message can raise. */
  datatype Error =
    | UnknownEvent(event: Option<string>)      // KeyError from the event-to-handler table
    | MissingArguments(names: seq<string>)     // TypeError: a required handler argument is absent
    | UnknownSession(session: SessionId)       // KeyError from the lookup in the task table
    | File(cause: FileError)                   // what the file object raises on write
    | PayloadNotDict                           // AttributeError: the payload has no `get`
    | NoAgentSession                           // AttributeError: there is no session to detach

  /** What one message asks the dumper to do. */
  datatype Command =
    | Ignore                                        // not a 'send' message
    | Unrecognized                                  // a 'send' message with another subject
    | Finish                                        // the agent's work is complete
    | StartDownload(session: SessionId, size: int)
    | DownloadData(session: SessionId, data: Option<seq<byte>>)
    | DownloadEnd(session: SessionId)
    | DownloadError(session: SessionId)
    | Reject(error: Error)                          // the dispatch raised before any handler ran

  /** The session a download command is about, for the four download handlers. */
  predicate IsAbout(c: Command, s: SessionId) {
    match c
    case StartDownload(k, _) => k == s
    case DownloadData(k, _) => k == s
    case DownloadEnd(k) => k == s
    case DownloadError(k) => k == s
    case _ => false
  }

  /** The required keyword arguments of a handler that the payload does not supply, in order. */
  function Missing(p: Payload, needsSize: bool): (names: seq<string>)
    ensures names == [] <==> p.session.Some? && (needsSize ==> p.size.Some?)
    ensures "session" in names <==> p.session.None?
  {
    (if p.session.None? then ["session"] else [])
      + (if needsSize && p.size.None? then ["size"] else [])
  }

  /** `on_message` up to the handler call: `data` is the binary part delivered beside the message. */
  function Route(msg: Message, data: Option<seq<byte>>): (c: Command)
    ensures c == Ignore <==> msg.msgType != Some("send")
    ensures c == Reject(PayloadNotDict) <==> msg.msgType == Some("send") && msg.payload.NotDict?
    ensures c == Finish <==>
      msg.msgType == Some("send") && !msg.payload.NotDict?
      && FieldsOf(msg.payload).subject == Some("finish")
    ensures c == Unrecognized <==>
      msg.msgType == Some("send") && !msg.payload.NotDict?
      && FieldsOf(msg.payload).subject !in {Some("download"), Some("finish")}
  {
    if msg.msgType != Some("send") then Ignore
    else if msg.payload.NotDict? then Reject(PayloadNotDict)
    else
      var p := FieldsOf(msg.payload);
      if p.subject == Some("download") then
        if p.event !in {Some("start"), Some("data"), Some("end"), Some("error")} then
          Reject(UnknownEvent(p.event))
        else
          var names := Missing(p, p.event == Some("start"));
          if names != [] then Reject(MissingArguments(names))
          else if p.event == Some("start") then StartDownload(p.session.value, p.size.value)
          else if p.event == Some("data") then DownloadData(p.session.value, data)
          else if p.event == Some("end") then DownloadEnd(p.session.value)
          else DownloadError(p.session.value)
      else if p.subject == Some("finish") then Finish
      else Unrecognized
  }

  /** A well-formed download message reaches the handler named by its event, with its arguments. */
  lemma RouteDownload(msg: Message, data: Option<seq<byte>>, s: SessionId)
    requires msg.msgType == Some("send") && msg.payload.Dict?
    requires msg.payload.fields.subject == Some("download") && msg.payload.fields.session == Some(s)
    ensures var p := msg.payload.fields;
      && (p.event == Some("start") && p.size.Some? ==> Route(msg, data) == StartDownload(s, p.size.value))
      && (p.event == Some("start") && p.size.None? ==> Route(msg, data) == Reject(MissingArguments(["size"])))
      && (p.event == Some("data") ==> Route(msg, data) == DownloadData(s, data))
      && (p.event == Some("end") ==> Route(msg, data) == DownloadEnd(s))
      && (p.event == Some("error") ==> Route(msg, data) == DownloadError(s))
  {
    var p := msg.payload.fields;
    if p.event == Some("start") && p.size.None? {
      assert Missing(p, true) == [] + ["size"] == ["size"];
    }
  }

  /**
   * A download message whose event is none of start, data, end and error
   * raises from the handler table, whatever else the payload holds.
   */
  lemma RouteUnknownEvent(msg: Message, data: Option<seq<byte>>)
    requires msg.msgType == Some("send") && msg.payload.Dict?
    requires msg.payload.fields.subject == Some("download")
    requires msg.payload.fields.event !in {Some("start"), Some("data"), Some("end"), Some("error")}
    ensures Route(msg, data) == Reject(UnknownEvent(msg.payload.fields.event))
  {
  }

  /** A download message without a session id raises before a handler runs. */
  lemma RouteMissingSession(msg: Message, data: Option<seq<byte>>)
    requires msg.msgType == Some("send") && msg.payload.Dict?
    requires msg.payload.fields.subject == Some("download")
    requires msg.payload.fields.event in {Some("start"), Some("data"), Some("end"), Some("error")}
    requires msg.payload.fields.session.None?
    ensures Route(msg, data).Reject? && Route(msg, data).error.MissingArguments?
    ensures "session" in Route(msg, data).error.names
  {
  }
}
