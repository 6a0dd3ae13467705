/** The chat assistant: a message log that starts with a greeting and only ever grows, an
    input box, a loading flag and the chat session the replies come from. */
module Chatbot {
  import opened Js

  datatype Sender = User | Bot
  datatype Message = Message(sender: Sender, text: string)

  const Greeting: string := "Hello! I'm Sathish's AI assistant. Ask me anything about his skills, projects, or experience."
  const NotConfiguredReply: string := "Sorry, the AI assistant is not configured correctly."
  const ConnectionTroubleReply: string := "Sorry, I'm having trouble connecting right now."
  const SendFailedReply: string := "Sorry, something went wrong. Please try again."

  /** What `chat.sendMessage` ends with: the reply's text, or a thrown error. */
  datatype Reply = Replied(text: string) | Failed

  /** The bot message appended once a send completes. */
  function BotAnswer(reply: Reply): (m: Message)
    ensures m.sender == Bot
    ensures reply.Replied? ==> m.text == reply.text
    ensures reply.Failed? ==> m.text == SendFailedReply
  {
    match reply
    case Replied(text) => Message(Bot, text)
    case Failed => Message(Bot, SendFailedReply)
  }

  /** The send guard: the trimmed input is non-empty, no reply is pending and a chat session
      exists. */
  predicate CanSend(input: string, isLoading: bool, hasChat: bool)
  {
    Trim(input) != "" && !isLoading && hasChat
  }

  /** A whitespace-only input is never sent, and every other one is, while the session is
      idle. */
  lemma BlankInputNeverSent(input: string, hasChat: bool)
    ensures CanSend(input, false, hasChat) <==> hasChat && !IsBlank(input)
  {
    TrimEmptyIffBlank(input);
  }

  class ChatWindow {
    var messages: seq<Message>
    var input: string
    var isLoading: bool
    /** Whether `chat` holds a session. */
    var hasChat: bool

    /** The greeting stays the first message. */
    ghost predicate Valid()
      reads this
    {
      |messages| >= 1 && messages[0] == Message(Bot, Greeting)
    }

    constructor ()
      ensures Valid() && messages == [Message(Bot, Greeting)]
      ensures input == "" && !isLoading && !hasChat
    {
      messages := [Message(Bot, Greeting)];
      input, isLoading, hasChat := "", false, false;
    }

    /** The mount effect `initChat`: without an API key (`""`) one configuration message is
        appended and no session is created; otherwise the session is created, or one
        connection message is appended when creating it throws. */
    method InitChat(apiKey: string, created: bool)
      requires Valid()
      modifies this`messages, this`hasChat
      ensures Valid()
      ensures apiKey == "" ==>
        messages == old(messages) + [Message(Bot, NotConfiguredReply)] && hasChat == old(hasChat)
      ensures apiKey != "" && created ==> messages == old(messages) && hasChat
      ensures apiKey != "" && !created ==>
        messages == old(messages) + [Message(Bot, ConnectionTroubleReply)] && hasChat == old(hasChat)
    {
      if apiKey == "" {
        messages := messages + [Message(Bot, NotConfiguredReply)];
        return;
      }
      if created {
        hasChat := true;
      } else {
        messages := messages + [Message(Bot, ConnectionTroubleReply)];
      }
    }

    /** Typing in the input box. */
    method SetInput(text: string)
      requires Valid()
      modifies this`input
      ensures Valid() && input == text
    {
      input := text;
    }

    /** The synchronous part of `handleSend`, up to the request: when the guard holds, the
        input is appended untrimmed as one user message, the box is cleared and loading
        starts; otherwise nothing changes. */
    method Send() returns (sent: bool, request: string)
      requires Valid()
      modifies this`messages, this`input, this`isLoading
      ensures Valid()
      ensures sent == old(CanSend(input, isLoading, hasChat))
      ensures sent ==>
        messages == old(messages) + [Message(User, old(input))] && input == "" && isLoading &&
        request == old(input)
      ensures !sent ==> messages == old(messages) && input == old(input) && isLoading == old(isLoading)
    {
      sent := CanSend(input, isLoading, hasChat);
      request := input;
      if !sent {
        return;
      }
      messages := messages + [Message(User, input)];
      input := "";
      isLoading := true;
    }

    /** The rest of `handleSend`, once the request settles: exactly one bot message, the reply
        or the apology, and loading ends either way. */
    method Deliver(reply: Reply)
      requires Valid()
      modifies this`messages, this`isLoading
      ensures Valid()
      ensures messages == old(messages) + [BotAnswer(reply)] && !isLoading
    {
      match reply {
        case Replied(text) =>
          messages := messages + [Message(Bot, text)];
        case Failed =>
          messages := messages + [Message(Bot, SendFailedReply)];
      }
      isLoading := false;
    }

    /** `handleSend` from start to finish, when nothing else happens while the request is
        pending: the log gains exactly the user message and then the bot's answer, or nothing. */
    method HandleSend(reply: Reply) returns (sent: bool)
      requires Valid()
      modifies this`messages, this`input, this`isLoading
      ensures Valid()
      ensures old(messages) <= messages
      ensures sent == old(CanSend(input, isLoading, hasChat))
      ensures sent ==>
        messages == old(messages) + [Message(User, old(input)), BotAnswer(reply)] &&
        input == "" && !isLoading
      ensures !sent ==> messages == old(messages) && input == old(input) && isLoading == old(isLoading)
    {
      var request;
      sent, request := Send();
      if sent {
        Deliver(reply);
      }
    }
  }

  /** A site built without an API key shows the greeting and the configuration message, and
      no later send, whatever is typed and whatever the model would answer, adds to them. */
  method UnconfiguredChatStaysSilent(typed: seq<string>, replies: seq<Reply>) returns (log: seq<Message>)
    requires |typed| == |replies|
    ensures log == [Message(Bot, Greeting), Message(Bot, NotConfiguredReply)]
  {
    var chat := new ChatWindow();
    chat.InitChat("", false);
    for i := 0 to |typed|
      invariant chat.Valid() && !chat.hasChat
      invariant chat.messages == [Message(Bot, Greeting), Message(Bot, NotConfiguredReply)]
    {
      chat.SetInput(typed[i]);
      var sent := chat.HandleSend(replies[i]);
    }
    log := chat.messages;
  }
}
