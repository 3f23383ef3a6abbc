/**
 * The chat screen (app/chat/page.tsx): a transcript that grows by appends,
 * an input box and a loading flag, the transcript restored from and saved
 * to local storage, and the clear action.
 */
module ChatPage {
  import opened Wrappers
  import opened Text
  import opened Types
  import opened Storage
  import Gemini

  const ChatHistoryKey: string := "cga_chat_history"

  const Welcome: string :=
    "Hello! I'm your career guide. How can I help you today? I can assist you in English, Kannada, Hindi, Tamil, and Telugu."

  const Apology: string :=
    "I'm sorry, I encountered an error. Please check your internet connection or API key and try again."

  function ClearedGreeting(language: string): string {
    "Chat cleared. How can I help you in " + language + "?"
  }

  function RoleName(role: Role): string {
    match role
    case UserRole => "user"
    case ModelRole => "model"
  }

  /** `messages.map(msg => ({ role: msg.role, parts: [{ text: msg.content }] }))`. */
  function HistoryOf(messages: seq<ChatMessage>): (h: seq<Gemini.Content>)
    ensures |h| == |messages|
    ensures forall i :: 0 <= i < |h| ==>
      h[i].role == RoleName(messages[i].role) && h[i].parts == [Gemini.Part(messages[i].content)]
  {
    if messages == [] then []
    else [Gemini.Content(RoleName(messages[0].role), [Gemini.Part(messages[0].content)])] + HistoryOf(messages[1..])
  }

  /** The model message a settled request produces: the answer, or the apology. */
  function ReplyContent(reply: Result<string, Gemini.GeminiError>): (text: string)
    ensures reply.Ok? ==> text == reply.value
    ensures reply.Err? ==> text == Apology
  {
    match reply
    case Ok(answer) => answer
    case Err(_) => Apology
  }

  /** `!input.trim()`: the input is blank exactly when it is all white space. */
  method IsBlank(input: string) returns (blank: bool)
    ensures blank <==> AllSpace(input)
  {
    TrimEmptyIffAllSpace(input);
    blank := Trim(input) == "";
  }

  class ChatSession {
    var messages: seq<ChatMessage>
    var input: string
    var loading: bool
    var language: string

    constructor ()
      ensures messages == [] && input == "" && !loading && language == "English"
    {
      messages := [];
      input := "";
      loading := false;
      language := "English";
    }

    /**
     * The mount effect: a stored transcript is restored; with nothing (or
     * an empty string) stored, the list is the welcome message with id
     * "init". A non-empty string that is not a transcript makes the parse
     * throw, and the list stays as it was.
     */
    method LoadOnMount(store: LocalStorage, now: int)
      modifies this
      ensures ChatHistoryKey in store.items && store.items[ChatHistoryKey].Transcript? ==>
        messages == store.items[ChatHistoryKey].messages
      ensures ChatHistoryKey !in store.items || store.items[ChatHistoryKey] == Text("") ==>
        messages == [ChatMessage("init", ModelRole, Welcome, now)]
      ensures ChatHistoryKey in store.items && !store.items[ChatHistoryKey].Transcript?
              && store.items[ChatHistoryKey] != Text("") ==>
        messages == old(messages)
      ensures input == old(input) && loading == old(loading) && language == old(language)
    {
      var saved := store.GetItem(ChatHistoryKey);
      if saved.None? || saved.value == Text("") {
        messages := [ChatMessage("init", ModelRole, Welcome, now)];
      } else if saved.value.Transcript? {
        messages := saved.value.messages;
      }
    }

    /** The save effect after every change of the list: writes it unless it is empty. */
    method SaveEffect(store: LocalStorage)
      modifies store
      ensures |messages| > 0 ==> store.items == old(store.items)[ChatHistoryKey := Transcript(messages)]
      ensures |messages| == 0 ==> store.items == old(store.items)
    {
      if |messages| > 0 {
        store.SetItem(ChatHistoryKey, Transcript(messages));
      }
    }

    /** The language selector. */
    method SelectLanguage(choice: string)
      modifies this
      ensures language == choice
      ensures messages == old(messages) && input == old(input) && loading == old(loading)
    {
      language := choice;
    }

    /** Typing into the box. */
    method SetInput(text: string)
      modifies this
      ensures input == text
      ensures messages == old(messages) && loading == old(loading) && language == old(language)
    {
      input := text;
    }

    /**
     * The synchronous half of `handleSend`. Blank input is ignored and
     * nothing is sent. Otherwise the typed text is sent together with the
     * history of the list as it was before the user message is appended;
     * the input is cleared and the loading flag set.
     */
    method BeginSend(now: nat) returns (request: Option<(string, seq<Gemini.Content>)>)
      requires !loading
      modifies this
      ensures AllSpace(old(input)) ==>
        request == None && messages == old(messages) && input == old(input) && !loading
      ensures !AllSpace(old(input)) ==>
        && request == Some((old(input), HistoryOf(old(messages))))
        && messages == old(messages) + [ChatMessage(NatToString(now), UserRole, old(input), now)]
        && input == "" && loading
      ensures language == old(language)
    {
      var blank := IsBlank(input);
      if blank {
        return None;
      }
      var history := HistoryOf(messages);
      request := Some((input, history));
      messages := messages + [ChatMessage(NatToString(now), UserRole, input, now)];
      input := "";
      loading := true;
    }

    /** The settling half: exactly one model message, and the loading flag cleared. */
    method CompleteSend(reply: Result<string, Gemini.GeminiError>, later: nat)
      requires loading
      modifies this
      ensures !loading
      ensures messages == old(messages) + [ChatMessage(NatToString(later + 1), ModelRole, ReplyContent(reply), later)]
      ensures input == old(input) && language == old(language)
    {
      messages := messages + [ChatMessage(NatToString(later + 1), ModelRole, ReplyContent(reply), later)];
      loading := false;
    }

    /**
     * `handleSend` from start to finish, with the reply from the chat
     * client in between: either nothing happens, or the user message and
     * then exactly one model message are appended.
     */
    method HandleSend(apiKey: string, systemPrompt: string,
                      service: (seq<Gemini.Content>, string) -> Option<string>, now: nat, later: nat)
      requires !loading
      modifies this
      ensures !loading
      ensures AllSpace(old(input)) ==> messages == old(messages) && input == old(input)
      ensures !AllSpace(old(input)) ==>
        var reply := Gemini.GetChatResponse(apiKey, old(input), HistoryOf(old(messages)), old(language), systemPrompt, service);
        && messages == old(messages) + [ChatMessage(NatToString(now), UserRole, old(input), now),
                                        ChatMessage(NatToString(later + 1), ModelRole, ReplyContent(reply), later)]
        && input == ""
      ensures language == old(language)
    {
      var request := BeginSend(now);
      if request.Some? {
        var (text, history) := request.value;
        var reply := Gemini.GetChatResponse(apiKey, text, history, language, systemPrompt, service);
        CompleteSend(reply, later);
      }
    }

    /**
     * `clearChat`: when confirmed, the list becomes one model message and
     * the stored transcript is removed; when declined, nothing changes.
     */
    method ClearChat(confirmed: bool, now: nat, store: LocalStorage)
      modifies this, store
      ensures confirmed ==>
        && messages == [ChatMessage(NatToString(now), ModelRole, ClearedGreeting(language), now)]
        && store.items == old(store.items) - {ChatHistoryKey}
      ensures !confirmed ==> messages == old(messages) && store.items == old(store.items)
      ensures input == old(input) && loading == old(loading) && language == old(language)
    {
      if confirmed {
        messages := [ChatMessage(NatToString(now), ModelRole, ClearedGreeting(language), now)];
        store.RemoveItem(ChatHistoryKey);
      }
    }
  }

  /**
   * The clear removes the stored transcript, but the list it leaves is not
   * empty, so the save effect that follows writes the one-message list
   * back: after the render the store holds that list, not nothing.
   */
  method ClearThenSave(session: ChatSession, now: nat, store: LocalStorage)
    modifies session, store
    ensures ChatHistoryKey in store.items
    ensures store.items[ChatHistoryKey] ==
      Transcript([ChatMessage(NatToString(now), ModelRole, ClearedGreeting(session.language), now)])
  {
    session.ClearChat(true, now, store);
    session.SaveEffect(store);
  }

  /** A first visit: the welcome message is shown and at once saved. */
  method FirstVisit(store: LocalStorage, now: int) returns (session: ChatSession)
    requires ChatHistoryKey !in store.items
    modifies store
    ensures ChatHistoryKey in store.items
    ensures store.items[ChatHistoryKey] == Transcript([ChatMessage("init", ModelRole, Welcome, now)])
    ensures session.messages == [ChatMessage("init", ModelRole, Welcome, now)]
  {
    session := new ChatSession();
    session.LoadOnMount(store, now);
    session.SaveEffect(store);
  }
}
