/** `WebSocketHandler`: the callbacks of one live voice-chat connection. `on_message`
    demultiplexes the server's events and accumulates the conversation; `on_close`
    hands it to the persistence pipeline. */
module Session {
  import opened Wrappers
  import opened Text
  import opened Dicts
  import opened Emotions
  import opened Messages
  import opened Persist

  /** The payload of a `user_message` or `assistant_message` event. */
  datatype Turn = Turn(role: string, content: string, fromText: bool, prosody: Dict)

  /** The `type` tags `on_message` dispatches on. */
  const HandledTags: set<string> := {"chat_metadata", "user_message", "assistant_message", "audio_output", "error"}

  /** The events the server sends, by their `type` tag. `Unrecognized` stands for every
      tag other than the five the handler tests for; `WellTagged` says so, since an event
      with one of those tags is one of the other constructors. */
  datatype Event =
    | ChatMetadata(chatId: string)
    | UserMessage(turn: Turn)
    | AssistantMessage(turn: Turn)
    | AudioOutput(data: string)
    | ServerError(code: string, message: string)
    | Unrecognized(kind: string)
  {
    predicate IsTurn() { UserMessage? || AssistantMessage? }

    predicate WellTagged() { Unrecognized? ==> kind !in HandledTags }
  }

  /** What `on_message` does besides updating the state: print a line (and the top three
      emotions when the turn had scores), forward audio without printing, or raise `ApiError`. */
  datatype Reaction = Printed(text: string, topEmotions: Dict) | Forwarded | Raised(error: string)

  /** The handler's fields `chat_id` and `messages`. */
  datatype State = State(chatId: Option<string>, messages: seq<Message>)

  datatype Transition = Transition(next: State, reaction: Reaction)

  /** The scores `on_message` keeps for a turn: none for text input. */
  function TurnScores(t: Turn): Dict
  {
    if t.fromText then [] else t.prosody
  }

  /** The record `on_message` appends for a turn received at time `now`. */
  function Record(t: Turn, now: Timestamp): Message
  {
    Message(Upper(t.role), t.content, now, TurnScores(t))
  }

  /** One call of `on_message` on the state `s`. */
  function Step(s: State, ev: Event, now: Timestamp): (r: Transition)
    ensures s.messages <= r.next.messages
    ensures |r.next.messages| == |s.messages| + (if ev.IsTurn() then 1 else 0)
    ensures r.next.chatId == if ev.ChatMetadata? then Some(ev.chatId) else s.chatId
    ensures ev.IsTurn() ==>
              var m := r.next.messages[|s.messages|];
              m.role == Upper(ev.turn.role) && m.text == ev.turn.content && m.timestamp == now &&
              m.emotions == (if ev.turn.fromText then [] else ev.turn.prosody)
    ensures r.reaction.Forwarded? <==> ev.AudioOutput?
    ensures r.reaction.Raised? <==> ev.ServerError?
    ensures r.reaction.Printed? ==>
              |r.reaction.topEmotions| <= 3 &&
              (r.reaction.topEmotions != [] <==> ev.IsTurn() && !ev.turn.fromText && ev.turn.prosody != [])
  {
    match ev
    case ChatMetadata(id) =>
      Transition(State(Some(id), s.messages), Printed("<CHAT_METADATA> Chat ID: " + id, []))
    case UserMessage(t) =>
      Transition(State(s.chatId, s.messages + [Record(t, now)]), Printed(Upper(t.role) + ": " + t.content, TopN(TurnScores(t), 3)))
    case AssistantMessage(t) =>
      Transition(State(s.chatId, s.messages + [Record(t, now)]), Printed(Upper(t.role) + ": " + t.content, TopN(TurnScores(t), 3)))
    case AudioOutput(_) =>
      Transition(s, Forwarded)
    case ServerError(code, message) =>
      Transition(s, Raised("Error (" + code + "): " + message))
    case Unrecognized(kind) =>
      Transition(s, Printed("<" + Upper(kind) + ">", []))
  }

  // ------------------------------------------------------------ whole sessions

  /** An event as delivered, with the clock reading `on_message` takes. */
  datatype Stamped = Stamped(event: Event, time: Timestamp)

  /** The state after `on_message` has handled every event of `trace`, in order. */
  function Replay(s: State, trace: seq<Stamped>): State
  {
    if trace == [] then s
    else
      var last := trace[|trace| - 1];
      Step(Replay(s, trace[..|trace| - 1]), last.event, last.time).next
  }

  /** The records of the turn events of `trace`, in arrival order. */
  function Turns(trace: seq<Stamped>): seq<Message>
  {
    if trace == [] then []
    else
      var last := trace[|trace| - 1];
      Turns(trace[..|trace| - 1]) + (if last.event.IsTurn() then [Record(last.event.turn, last.time)] else [])
  }

  /** The identifier of the last `chat_metadata` event of `trace`, or `initial` if there is none. */
  function LatestChatId(initial: Option<string>, trace: seq<Stamped>): Option<string>
  {
    if trace == [] then initial
    else if trace[|trace| - 1].event.ChatMetadata? then Some(trace[|trace| - 1].event.chatId)
    else LatestChatId(initial, trace[..|trace| - 1])
  }

  /** The new state of one step, in the terms the whole-session lemma needs. */
  lemma StepState(s: State, ev: Event, now: Timestamp)
    ensures Step(s, ev, now).next ==
              State(if ev.ChatMetadata? then Some(ev.chatId) else s.chatId,
                    s.messages + (if ev.IsTurn() then [Record(ev.turn, now)] else []))
  {
  }

  /** Over a whole session, `messages` only grows: it ends as the earlier messages followed
      by one record per turn event, in arrival order, and `chat_id` is the last metadata id. */
  lemma {:induction false} ReplaySession(s: State, trace: seq<Stamped>)
    ensures Replay(s, trace) == State(LatestChatId(s.chatId, trace), s.messages + Turns(trace))
  {
    if trace != [] {
      var init, last := trace[..|trace| - 1], trace[|trace| - 1];
      ReplaySession(s, init);
      ReplayStep(s, init, last, Replay(s, init));
      assert init + [last] == trace;
    }
  }

  lemma ReplayStep(s: State, init: seq<Stamped>, last: Stamped, prev: State)
    requires prev == State(LatestChatId(s.chatId, init), s.messages + Turns(init))
    ensures Step(prev, last.event, last.time).next ==
              State(LatestChatId(s.chatId, init + [last]), s.messages + Turns(init + [last]))
  {
    var trace := init + [last];
    assert trace[..|trace| - 1] == init && trace[|trace| - 1] == last;
    StepState(prev, last.event, last.time);
  }

  // ------------------------------------------------------------ the handler

  class WebSocketHandler {
    var chatId: Option<string>
    var messages: seq<Message>

    /** `__init__`: no chat id yet, no messages. */
    constructor ()
      ensures chatId == None && messages == []
    {
      chatId := None;
      messages := [];
    }

    function Current(): State
      reads this
    {
      State(chatId, messages)
    }

    /** `on_message(message)`: stamp `now` is the clock reading for a stored turn. */
    method OnMessage(ev: Event, now: Timestamp) returns (reaction: Reaction)
      modifies this
      ensures Transition(Current(), reaction) == Step(old(Current()), ev, now)
    {
      var scores: Dict := [];
      var text: string;
      if ev.ChatMetadata? {
        chatId := Some(ev.chatId);
        text := "<CHAT_METADATA> Chat ID: " + ev.chatId;
      } else if ev.UserMessage? || ev.AssistantMessage? {
        var role := Upper(ev.turn.role);
        var messageText := ev.turn.content;
        text := role + ": " + messageText;
        if !ev.turn.fromText {
          scores := ev.turn.prosody;
        }
        messages := messages + [Message(role, messageText, now, scores)];
      } else if ev.AudioOutput? {
        return Forwarded;
      } else if ev.ServerError? {
        return Raised("Error (" + ev.code + "): " + ev.message);
      } else {
        text := "<" + Upper(ev.kind) + ">";
      }
      var top: Dict := [];
      if scores != [] {
        top := TopN(scores, 3);
      }
      reaction := Printed(text, top);
    }

    /** `on_close()`: the conversation is saved only when there is a chat id and at least
        one message; whatever the save raises propagates. */
    method OnClose(complete: Completion, db: Firestore, fault: Option<string>)
      returns (saved: Option<Result<Outcome, Error>>)
      modifies db
      ensures saved.Some? <==> HasChatId(chatId) && messages != []
      ensures saved.Some? ==> saved.value == Persisted(chatId, messages, complete, fault)
      ensures db.documents == if saved.Some? then AfterWrite(old(db.documents), saved.value) else old(db.documents)
    {
      if chatId.Some? && chatId.value != "" && messages != [] {
        var r := SaveChat(chatId, messages, complete, db, fault);
        return Some(r);
      }
      return None;
    }
  }
}
