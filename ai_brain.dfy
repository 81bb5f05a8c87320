/** The chat panel of the AI Brain page: an append-only transcript, the
    text box and a loading latch, driven in two phases: a submission, then
    the completion of the advice request with a reply or an error. */
module AIBrainChat {
  import opened Wrappers
  import opened JsStrings
  import Localization

  datatype Sender = User | Ai

  datatype Message = Message(sender: Sender, text: string)

  /** What the advice request can throw: an `Error` with its message, or
      some other value. */
  datatype Thrown = ErrorObject(message: string) | OtherValue

  class Chat {
    var messages: seq<Message>
    var userInput: string
    var isLoading: bool
    /** The transcript the in-flight handler captured, ending in the user's
        message (`newMessages`); the completion appends to it. */
    var pending: seq<Message>
    /** The language and tables of the `t` the in-flight handler closed over
        when it was submitted. */
    var capturedLanguage: Localization.Language
    var capturedTables: map<Localization.Language, Localization.Table>

    /** While a request is in flight the transcript is the captured one and
        ends in the user's message. */
    ghost predicate Valid()
      reads this
    {
      isLoading ==> messages == pending && |pending| > 0 && pending[|pending| - 1].sender == User
    }

    constructor ()
      ensures Valid()
      ensures messages == [] && userInput == "" && !isLoading
    {
      messages := [];
      userInput := "";
      isLoading := false;
      pending := [];
      capturedLanguage := Localization.Vi;
      capturedTables := map[];
    }

    /** Typing into the text box. */
    method Type(s: string)
      modifies this`userInput
      ensures userInput == s
    {
      userInput := s;
    }

    /** The first phase of `handleSendMessage`: a blank input or a request
        already in flight changes nothing; otherwise the trimmed text is
        appended as the user's message, the box is cleared, the latch set,
        and the trimmed text is what gets sent. The handler keeps the
        provider's language and tables as they are now. */
    method Submit(loc: Localization.LanguageProvider) returns (query: Option<string>)
      requires Valid()
      modifies this
      ensures Valid()
      ensures query.None? <==> AllWhitespace(old(userInput)) || old(isLoading)
      ensures query.None? ==>
        && messages == old(messages) && userInput == old(userInput) && isLoading == old(isLoading)
        && capturedLanguage == old(capturedLanguage) && capturedTables == old(capturedTables)
      ensures query.Some? ==>
        && query.value == Trim(old(userInput))
        && messages == old(messages) + [Message(User, query.value)]
        && userInput == "" && isLoading
        && capturedLanguage == loc.language && capturedTables == loc.translations
    {
      BlankIffAllWhitespace(userInput);
      var trimmedInput := Trim(userInput);
      if trimmedInput == "" || isLoading {
        return None;
      }
      pending := messages + [Message(User, trimmedInput)];
      messages := pending;
      userInput := "";
      isLoading := true;
      capturedLanguage := loc.language;
      capturedTables := loc.translations;
      query := Some(trimmedInput);
    }

    /** The request returned a reply: it is appended as the AI's message and
        the latch is released. */
    method Reply(text: string)
      requires Valid() && isLoading
      modifies this`messages, this`isLoading
      ensures Valid()
      ensures messages == old(messages) + [Message(Ai, text)] && !isLoading
    {
      messages := pending + [Message(Ai, text)];
      isLoading := false;
    }

    /** The request threw: one AI message "Error: " followed by the error's
        message, or, for a non-`Error` value, by the fallback translated with
        the provider state captured at submission; the latch is released. */
    method Fail(thrown: Thrown)
      requires Valid() && isLoading
      modifies this`messages, this`isLoading
      ensures Valid() && !isLoading
      ensures thrown.ErrorObject? ==>
        messages == old(messages) + [Message(Ai, "Error: " + thrown.message)]
      ensures thrown.OtherValue? ==>
        messages == old(messages) + [Message(Ai, "Error: " +
          Localization.Translate(capturedTables, capturedLanguage, "error_fetchAnalysis", []))]
    {
      var errorMessage: string;
      if thrown.ErrorObject? {
        errorMessage := thrown.message;
      } else {
        errorMessage := Localization.Translate(capturedTables, capturedLanguage, "error_fetchAnalysis", []);
      }
      messages := pending + [Message(Ai, "Error: " + errorMessage)];
      isLoading := false;
    }
  }

  /** A whole exchange: the transcript grows by exactly the user's trimmed
      message and the reply, earlier messages untouched, and the latch ends
      released. */
  method Exchange(chat: Chat, loc: Localization.LanguageProvider, input: string, reply: string)
    returns (sent: Option<string>)
    requires chat.Valid() && !chat.isLoading
    modifies chat
    ensures chat.Valid() && !chat.isLoading
    ensures sent.None? <==> AllWhitespace(input)
    ensures sent.None? ==> chat.messages == old(chat.messages)
    ensures sent.Some? ==>
      sent.value == Trim(input) &&
      chat.messages == old(chat.messages) + [Message(User, Trim(input)), Message(Ai, reply)]
  {
    chat.Type(input);
    sent := chat.Submit(loc);
    if sent.Some? {
      chat.Reply(reply);
    }
  }
}
