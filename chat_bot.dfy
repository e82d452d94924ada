/** The diet chatbot panel: loading the saved conversation, sending a
    prompt and showing the answer (saving it as the user's diet plan), and
    clearing the conversation. Every request the panel sends is recorded in
    `requests`; the server's reply to each is a parameter. */
module ChatBot {
  import opened Text
  import opened Records

  datatype Sender = FromUser | FromBot

  /** One `{from, text}` message. */
  datatype Message = Message(from: Sender, text: string)

  /** One stored chat: `{prompt, answer}`. */
  datatype Chat = Chat(prompt: string, answer: string)

  /** `rawChats.flatMap(chat => [user prompt, bot answer])`. */
  function FormatHistory(chats: seq<Chat>): (r: seq<Message>)
    ensures |r| == 2 * |chats|
    ensures forall i :: 0 <= i < |chats| ==>
              r[2 * i] == Message(FromUser, chats[i].prompt) && r[2 * i + 1] == Message(FromBot, chats[i].answer)
  {
    if chats == [] then []
    else
      var rest := FormatHistory(chats[1..]);
      var r := [Message(FromUser, chats[0].prompt), Message(FromBot, chats[0].answer)] + rest;
      assert forall i :: 0 <= i < |chats| ==>
               r[2 * i] == Message(FromUser, chats[i].prompt) && r[2 * i + 1] == Message(FromBot, chats[i].answer) by {
        forall i | 0 <= i < |chats|
          ensures r[2 * i] == Message(FromUser, chats[i].prompt) && r[2 * i + 1] == Message(FromBot, chats[i].answer)
        {
          if i > 0 {
            assert chats[i] == chats[1..][i - 1];
            assert r[2 * i] == rest[2 * (i - 1)] && r[2 * i + 1] == rest[2 * (i - 1) + 1];
          }
        }
      }
      r
  }

  /** Reading a formatted history back pair by pair: the inverse of `FormatHistory`. */
  function Unformat(messages: seq<Message>): seq<Chat>
    decreases |messages|
  {
    if |messages| < 2 then [] else [Chat(messages[0].text, messages[1].text)] + Unformat(messages[2..])
  }

  /** Formatting loses nothing: the chats can be read back from the messages. */
  lemma {:induction false} UnformatFormat(chats: seq<Chat>)
    ensures Unformat(FormatHistory(chats)) == chats
  {
    if chats != [] {
      var m := FormatHistory(chats);
      assert m[2..] == FormatHistory(chats[1..]);
      UnformatFormat(chats[1..]);
    }
  }

  /** Formatting two runs of chats is formatting each and concatenating. */
  lemma {:induction false} FormatHistoryAppend(a: seq<Chat>, b: seq<Chat>)
    ensures FormatHistory(a + b) == FormatHistory(a) + FormatHistory(b)
  {
    if a == [] {
      assert a + b == b;
    } else {
      assert (a + b)[1..] == a[1..] + b;
      FormatHistoryAppend(a[1..], b);
    }
  }

  /** The requests the panel sends. */
  datatype Request =
    | LoadChats(userId: string)
    | AskChat(prompt: string, userId: string)
    | SavePlan(userId: string, planText: string)
    | ClearChats(userId: string)

  /** How loading the history ends: the request or its body failed, or the
      body's `data` field (absent or falsy as `None`). */
  datatype LoadOutcome = LoadFailed | Loaded(data: Option<seq<Chat>>)

  /** How the chat request ends: the request, its body or `user.id` threw,
      or the response's `ok` flag and `answer` (a missing or empty answer as `""`). */
  datatype ChatOutcome = ChatThrew | ChatResponse(ok: bool, answer: string)

  /** How saving the plan ends. */
  datatype SaveOutcome = SaveThrew | Saved

  /** How the delete request ends: any response at all, or a failure. */
  datatype ClearOutcome = ClearThrew | Cleared

  const UnableToAnswer: string := "\U{274C} Unable to get answer"
  const ServerError: string := "\U{274C} Server error."

  /** The bot messages one send appends after the prompt. A good answer is
      shown; if saving it then throws, the error handler adds a second
      message. */
  function Replies(user: Option<User>, chat: ChatOutcome, save: SaveOutcome): (r: seq<Message>)
    ensures 1 <= |r| <= 2
    ensures forall i :: 0 <= i < |r| ==> r[i].from == FromBot
    ensures user.Some? && chat.ChatResponse? && chat.ok && chat.answer != "" ==>
              r[0].text == chat.answer && (|r| == 2 <==> save == SaveThrew) && (|r| == 2 ==> r[1].text == ServerError)
    ensures user.Some? && chat.ChatResponse? && !(chat.ok && chat.answer != "") ==> r == [Message(FromBot, UnableToAnswer)]
    ensures user.None? || chat.ChatThrew? ==> r == [Message(FromBot, ServerError)]
  {
    if user.None? then [Message(FromBot, ServerError)]
    else match chat
      case ChatThrew => [Message(FromBot, ServerError)]
      case ChatResponse(ok, answer) =>
        if ok && answer != "" then
          [Message(FromBot, answer)] + (if save == SaveThrew then [Message(FromBot, ServerError)] else [])
        else [Message(FromBot, UnableToAnswer)]
  }

  /** The requests one send issues: none without a user (reading `user.id`
      throws first), the chat request, and the save request only after a
      good answer, carrying that answer as the plan. */
  function SendRequests(user: Option<User>, prompt: string, chat: ChatOutcome): (r: seq<Request>)
    ensures user.None? ==> r == []
    ensures user.Some? ==> |r| >= 1 && r[0] == AskChat(prompt, user.value.id)
    ensures (exists i :: 0 <= i < |r| && r[i].SavePlan?) <==>
              user.Some? && chat.ChatResponse? && chat.ok && chat.answer != ""
    ensures forall i :: 0 <= i < |r| && r[i].SavePlan? ==> r[i] == SavePlan(user.value.id, chat.answer)
  {
    if user.None? then []
    else if chat.ChatResponse? && chat.ok && chat.answer != "" then
      var r := [AskChat(prompt, user.value.id), SavePlan(user.value.id, chat.answer)];
      assert r[1].SavePlan?;
      r
    else [AskChat(prompt, user.value.id)]
  }

  class ChatPanel {
    var messages: seq<Message>
    var input: string
    var loading: bool
    var requests: seq<Request>

    constructor ()
      ensures messages == [] && input == "" && !loading && requests == []
    {
      messages := [];
      input := "";
      loading := false;
      requests := [];
    }

    /** The effect that loads the saved chats when the panel mounts or the user changes. */
    method LoadHistory(user: Option<User>, outcome: LoadOutcome)
      modifies this
      ensures input == old(input) && loading == old(loading)
      ensures !HasId(user) ==> messages == old(messages) && requests == old(requests)
      ensures HasId(user) ==> requests == old(requests) + [LoadChats(user.value.id)]
      ensures HasId(user) && outcome.LoadFailed? ==> messages == old(messages)
      ensures HasId(user) && outcome.Loaded? ==>
                messages == FormatHistory(if outcome.data.Some? then outcome.data.value else [])
    {
      if !HasId(user) {
        return;
      }
      requests := requests + [LoadChats(user.value.id)];
      if outcome.Loaded? {
        var rawChats := if outcome.data.Some? then outcome.data.value else [];
        messages := FormatHistory(rawChats);
      }
    }

    /** `sendMessage`. */
    method SendMessage(user: Option<User>, chat: ChatOutcome, save: SaveOutcome)
      modifies this
      ensures Trim(old(input)) == "" ==>
                messages == old(messages) && input == old(input) && loading == old(loading) &&
                requests == old(requests)
      ensures Trim(old(input)) != "" ==>
                && messages == old(messages) + [Message(FromUser, old(input))] + Replies(user, chat, save)
                && input == ""
                && !loading
                && requests == old(requests) + SendRequests(user, old(input), chat)
    {
      if Trim(input) == "" {
        return;
      }
      var prompt := input;
      messages := messages + [Message(FromUser, prompt)];
      input := "";
      loading := true;

      if user.None? {
        // Reading `user.id` for the request body throws.
        messages := messages + [Message(FromBot, ServerError)];
      } else {
        requests := requests + [AskChat(prompt, user.value.id)];
        match chat {
          case ChatThrew =>
            messages := messages + [Message(FromBot, ServerError)];
          case ChatResponse(ok, answer) =>
            if ok && answer != "" {
              messages := messages + [Message(FromBot, answer)];
              requests := requests + [SavePlan(user.value.id, answer)];
              if save == SaveThrew {
                messages := messages + [Message(FromBot, ServerError)];
              }
            } else {
              messages := messages + [Message(FromBot, UnableToAnswer)];
            }
        }
      }
      loading := false;
    }

    /** `clearChat`. */
    method ClearChat(user: Option<User>, outcome: ClearOutcome)
      modifies this
      ensures input == old(input) && loading == old(loading)
      ensures !HasId(user) ==> messages == old(messages) && requests == old(requests)
      ensures HasId(user) ==> requests == old(requests) + [ClearChats(user.value.id)]
      ensures HasId(user) ==> (messages == [] <==> outcome == Cleared || old(messages) == [])
      ensures HasId(user) && outcome == ClearThrew ==> messages == old(messages)
    {
      if !HasId(user) {
        return;
      }
      requests := requests + [ClearChats(user.value.id)];
      if outcome == Cleared {
        messages := [];
      }
    }
  }

  /** A send adds exactly one user message, carrying the prompt as typed
      (not trimmed), directly after the old messages. */
  lemma SendAddsOnePrompt(old_messages: seq<Message>, prompt: string, user: Option<User>,
                          chat: ChatOutcome, save: SaveOutcome)
    ensures var m := old_messages + [Message(FromUser, prompt)] + Replies(user, chat, save);
            && m[..|old_messages|] == old_messages
            && m[|old_messages|] == Message(FromUser, prompt)
            && forall i :: |old_messages| < i < |m| ==> m[i].from == FromBot
  {
    var m := old_messages + [Message(FromUser, prompt)] + Replies(user, chat, save);
    var r := Replies(user, chat, save);
    assert forall i :: |old_messages| < i < |m| ==> m[i] == r[i - |old_messages| - 1];
  }
}
