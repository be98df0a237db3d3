/** The messages page: a conversation list, one message thread and its input box. */
module Chat {
  import opened Text

  datatype Message = Message(id: string, sender: string, content: string, timestamp: string, isOwn: bool, avatar: string)

  datatype Conversation = Conversation(
    id: string, name: string, lastMessage: string, timestamp: string, unread: int, avatar: string, online: bool)

  /** The avatar of the viewer's own messages. */
  const ViewerAvatar := "https://images.unsplash.com/photo-1472099645785-5658abf4ff4e?w=150"

  const SarahAvatar := "https://images.unsplash.com/photo-1494790108755-2616b612b287?w=150"

  /** The four mock messages the thread starts with, oldest first. */
  const SeedMessages: seq<Message> := [
    Message("1", "Sarah Johnson", "Hey! How are you doing today?", "10:30 AM", false, SarahAvatar),
    Message("2", "You", "I'm doing great! Just finished my morning workout \U{1F4AA}", "10:32 AM", true, ViewerAvatar),
    Message("3", "Sarah Johnson", "That's awesome! I should really get back into exercising. Any tips?", "10:35 AM", false, SarahAvatar),
    Message("4", "You", "Start small! Even 15 minutes a day makes a difference. I can share my routine if you'd like \U{1F60A}", "10:37 AM", true, ViewerAvatar)
  ]

  /** The fixed conversation list. */
  const Conversations: seq<Conversation> := [
    Conversation("1", "Sarah Johnson", "Start small! Even 15 minutes a day...", "10:37 AM", 0, SarahAvatar, true),
    Conversation("2", "Alex Chen", "Thanks for the coffee recommendation!", "Yesterday", 2,
                 "https://images.unsplash.com/photo-1507003211169-0a1dd7228f2d?w=150", true),
    Conversation("3", "Emma Davis", "See you at the meeting tomorrow", "Yesterday", 0,
                 "https://images.unsplash.com/photo-1438761681033-6461ffad8d80?w=150", false),
    Conversation("4", "Team Design", "Mike: Great work on the mockups!", "2 days ago", 5,
                 "https://images.unsplash.com/photo-1522071820081-009f0129c71c?w=150", false)
  ]

  /** The cells `messages` and `newMessage`. */
  datatype Thread = Thread(messages: seq<Message>, newMessage: string)

  /** The message `handleSendMessage` builds; `time` is the formatted local clock reading. */
  function ViewerMessage(id: string, text: string, time: string): Message {
    Message(id, "You", text, time, true, ViewerAvatar)
  }

  /** `handleSendMessage`: unless the text trims to nothing, append it as the viewer's message and clear the box. */
  function Send(t: Thread, id: string, time: string): Thread {
    if Trim(t.newMessage) != "" then Thread(t.messages + [ViewerMessage(id, t.newMessage, time)], "") else t
  }

  /** The key rule of `handleKeyPress`: Enter sends unless Shift is held. */
  predicate SendsOnKey(key: string, shiftKey: bool) {
    key == "Enter" && !shiftKey
  }

  /** `handleKeyPress`. */
  function KeyPress(t: Thread, key: string, shiftKey: bool, id: string, time: string): Thread {
    if SendsOnKey(key, shiftKey) then Send(t, id, time) else t
  }

  /** Blank or whitespace-only text changes neither the thread nor the box. */
  lemma SendBlank(t: Thread, id: string, time: string)
    requires IsBlank(t.newMessage)
    ensures Send(t, id, time) == t
  {
    TrimEmptyIffBlank(t.newMessage);
  }

  /** Other text is appended, untrimmed, as the viewer's own message; the earlier messages are an unchanged prefix. */
  lemma SendNonBlank(t: Thread, id: string, time: string)
    requires !IsBlank(t.newMessage)
    ensures var r := Send(t, id, time);
      |r.messages| == |t.messages| + 1 && r.messages[..|t.messages|] == t.messages
      && r.messages[|t.messages|] == ViewerMessage(id, t.newMessage, time)
      && r.messages[|t.messages|].isOwn && r.messages[|t.messages|].sender == "You"
      && r.messages[|t.messages|].content == t.newMessage
      && r.newMessage == ""
  {
    TrimEmptyIffBlank(t.newMessage);
  }

  /** Enter without Shift sends; Shift+Enter and every other key leave the thread alone. */
  lemma KeyPressRule(t: Thread, key: string, shiftKey: bool, id: string, time: string)
    ensures key == "Enter" && !shiftKey ==> KeyPress(t, key, shiftKey, id, time) == Send(t, id, time)
    ensures shiftKey || key != "Enter" ==> KeyPress(t, key, shiftKey, id, time) == t
  {
  }

  /** The messages page's state. */
  class ChatPage {
    var messages: seq<Message>
    var newMessage: string
    var activeChat: string

    function State(): Thread
      reads this
    {
      Thread(messages, newMessage)
    }

    constructor ()
      ensures State() == Thread(SeedMessages, "") && activeChat == "Sarah Johnson"
    {
      messages := SeedMessages;
      newMessage := "";
      activeChat := "Sarah Johnson";
    }

    /** Typing in the message box. */
    method SetNewMessage(text: string)
      modifies this
      ensures State() == Thread(old(messages), text) && activeChat == old(activeChat)
    {
      newMessage := text;
    }

    /** `handleSendMessage`, with the clock reading `id` and the formatted time given. */
    method HandleSendMessage(id: string, time: string)
      modifies this
      ensures State() == Send(old(State()), id, time) && activeChat == old(activeChat)
    {
      if Trim(newMessage) != "" {
        messages := messages + [ViewerMessage(id, newMessage, time)];
        newMessage := "";
      }
    }

    /** `handleKeyPress` in the message box. */
    method HandleKeyPress(key: string, shiftKey: bool, id: string, time: string)
      modifies this
      ensures State() == KeyPress(old(State()), key, shiftKey, id, time) && activeChat == old(activeChat)
    {
      if key == "Enter" && !shiftKey {
        HandleSendMessage(id, time);
      }
    }

    /** Clicking entry `i` of the conversation list: the header shows its name, the thread stays as it is. */
    method SelectConversation(i: nat)
      requires i < |Conversations|
      modifies this
      ensures activeChat == Conversations[i].name && State() == old(State())
    {
      activeChat := Conversations[i].name;
    }
  }
}
