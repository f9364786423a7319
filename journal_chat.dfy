/**
 * The journal chat page: one `handleSendMessage` turn appends the user's
 * message and saves the journal, then asks the relay for a buffered
 * reply with a system prompt built from the journal, and appends either
 * the reply or an error notice as the assistant's message.
 *
 * The companion persona text is a constructor parameter. Message ids and
 * timestamps are parameters, and so is the relay's result.
 */
module JournalChat {
  import opened Wrappers
  import opened Text
  import opened Wire
  import opened Storage
  import LlmChat

  const UntitledTitle: string := "无标题"
  const ErrorPrefix: string := "抱歉，发生了错误："
  const ApologyMessage: string := "抱歉，我暂时无法回应。请稍后再试。"
  const PromptIntro: string := "\n\n用户的日记内容：\n---\n"
  const PromptOutro: string := "\n---\n\n请基于以上日记内容与用户进行对话。"

  /** What `supabase.functions.invoke` produced: a transport error, or the reply data. */
  datatype RelayReply = TransportError(message: string) | ReplyData(reply: BufferedReply)

  /** `messages.map(m => ({role, content}))`. */
  function History(messages: seq<ChatMessage>): (r: seq<Message>)
    ensures |r| == |messages|
    ensures forall i :: 0 <= i < |r| ==> r[i] == Message(messages[i].role, messages[i].content)
  {
    if messages == [] then [] else [Message(messages[0].role, messages[0].content)] + History(messages[1..])
  }

  lemma {:induction false} HistoryAppend(a: seq<ChatMessage>, b: seq<ChatMessage>)
    ensures History(a + b) == History(a) + History(b)
  {
    if a == [] {
      assert a + b == b;
    } else {
      assert (a + b)[1..] == a[1..] + b;
      HistoryAppend(a[1..], b);
    }
  }

  function TitleLine(title: string): string
  {
    "标题：" + OrElse(title, UntitledTitle)
  }

  function ContentLine(content: string): string
  {
    "内容：" + content
  }

  /** The system prompt: the persona, then the journal's title and content between `---` rules. */
  function SystemPrompt(persona: string, journal: JournalEntry): (r: string)
    ensures StartsWith(r, persona)
  {
    var r := persona + PromptIntro + TitleLine(journal.title) + "\n" + ContentLine(journal.content) + PromptOutro;
    assert r[..|persona|] == persona by {
      forall k | 0 <= k < |persona| ensures r[k] == persona[k] { }
    }
    r
  }

  /**
   * The prompt opens with the persona and embeds the journal's title (or
   * `无标题` when it has none) and its content.
   */
  lemma SystemPromptEmbeds(persona: string, journal: JournalEntry)
    ensures StartsWith(SystemPrompt(persona, journal), persona)
    ensures Includes(SystemPrompt(persona, journal), "标题：" + (if journal.title == "" then UntitledTitle else journal.title))
    ensures Includes(SystemPrompt(persona, journal), "内容：" + journal.content)
  {
    var t, c := TitleLine(journal.title), ContentLine(journal.content);
    var p := SystemPrompt(persona, journal);
    assert p == persona + PromptIntro + t + "\n" + c + PromptOutro;
    assert p[..|persona|] == persona;
    assert p == (persona + PromptIntro) + t + ("\n" + c + PromptOutro);
    IncludesMiddle(persona + PromptIntro, t, "\n" + c + PromptOutro);
    assert p == (persona + PromptIntro + t + "\n") + c + PromptOutro;
    IncludesMiddle(persona + PromptIntro + t + "\n", c, PromptOutro);
  }

  /** The relay request of one turn: the whole updated history, buffered, with the system prompt. */
  function RelayFor(updated: JournalEntry, settings: LlmSettings, persona: string): (r: ChatRequest)
    ensures r.stream == Some(false) && r.systemPrompt == Some(SystemPrompt(persona, updated))
    ensures r.messages == History(updated.messages)
    ensures r.baseUrl == settings.baseUrl && r.apiKey == settings.apiKey && r.modelName == settings.modelName
  {
    ChatRequest(History(updated.messages), settings.baseUrl, settings.apiKey, settings.modelName,
                Some(false), Some(SystemPrompt(persona, updated)))
  }

  /** `{...journal, messages: [...journal.messages, m]}`. */
  function WithMessage(journal: JournalEntry, m: ChatMessage): (r: JournalEntry)
    ensures r.messages == journal.messages + [m]
    ensures r.id == journal.id && r.title == journal.title && r.content == journal.content
    ensures r.createdAt == journal.createdAt && r.updatedAt == journal.updatedAt
  {
    journal.(messages := journal.messages + [m])
  }

  /** The message the `catch` block sees, or None when the turn succeeds. */
  function TurnError(configured: bool, reply: RelayReply): (e: Option<string>)
    ensures e.None? <==> configured && reply.ReplyData? && !HasError(reply.reply)
    ensures !configured ==> e == Some(LlmChat.NotConfiguredMessage)
  {
    if !configured then Some(LlmChat.NotConfiguredMessage)
    else match reply
      case TransportError(m) => Some(m)
      case ReplyData(r) => if HasError(r) then Some(r.error.value) else None
  }

  /** The assistant message's content: the reply, the apology when it is empty, or the error notice. */
  function AssistantContent(configured: bool, reply: RelayReply): (r: string)
    ensures TurnError(configured, reply).Some? ==> r == ErrorPrefix + TurnError(configured, reply).value
    ensures TurnError(configured, reply).None? && reply.reply.content.Some? && reply.reply.content.value != "" ==>
      r == reply.reply.content.value
    ensures TurnError(configured, reply).None? && (reply.reply.content.None? || reply.reply.content.value == "") ==>
      r == ApologyMessage
    ensures r != ""
  {
    match TurnError(configured, reply)
    case Some(m) => ErrorPrefix + m
    case None => ContentOr(reply.reply, ApologyMessage)
  }

  class JournalChatPage {
    const store: LocalStore
    const persona: string
    /** `getLLMSettings()`, read when the page renders. */
    const settings: Option<LlmSettings>
    /** The journal state cell; None renders the not-found view, which has no send handler. */
    var journal: Option<JournalEntry>
    var isLoading: bool
    /** The relay requests sent so far. */
    var requests: seq<ChatRequest>
    /** The descriptions of the failure toasts shown so far. */
    var toasts: seq<string>
    /** The journals passed to `saveJournal`, in order. */
    ghost var saved: seq<JournalEntry>

    constructor (store: LocalStore, id: string, persona: string)
      ensures this.store == store && this.persona == persona
      ensures settings == store.GetLlmSettings() && journal == store.GetJournal(id)
      ensures !isLoading && requests == [] && toasts == [] && saved == []
    {
      this.store := store;
      this.persona := persona;
      settings := store.GetLlmSettings();
      journal := store.GetJournal(id);
      isLoading := false;
      requests := [];
      toasts := [];
      saved := [];
    }

    /** `handleSendMessage(content)`: one complete turn. */
    method HandleSendMessage(content: string, userId: string, userTime: string,
                             replyId: string, replyTime: string, reply: RelayReply)
      requires journal.Some?
      modifies this`journal, this`isLoading, this`requests, this`toasts, this`saved, store
      ensures journal.Some? && old(journal.value).id == journal.value.id
      ensures journal.value == WithMessage(WithMessage(old(journal.value), ChatMessage(userId, User, content, userTime)),
        ChatMessage(replyId, Assistant, AssistantContent(LlmChat.SettingsConfigured(settings), reply), replyTime))
      ensures saved == old(saved) + [WithMessage(old(journal.value), ChatMessage(userId, User, content, userTime)), journal.value]
      ensures store.items == old(store.items)[JournalsKey := JournalsValue(Upsert(old(store.GetJournals()), journal.value, JournalId))]
      ensures store.GetJournal(journal.value.id) == journal
      ensures requests == old(requests) + if LlmChat.SettingsConfigured(settings)
        then [RelayFor(WithMessage(old(journal.value), ChatMessage(userId, User, content, userTime)), settings.value, persona)] else []
      ensures var e := TurnError(LlmChat.SettingsConfigured(settings), reply);
        toasts == old(toasts) + if e.Some? then [e.value] else []
      ensures !isLoading
    {
      isLoading := true;
      var updatedJournal := WithMessage(journal.value, ChatMessage(userId, User, content, userTime));
      ghost var before := store.GetJournals();
      var finalJournal := Exchange(updatedJournal, replyId, replyTime, reply);
      store.JournalStored(before, finalJournal);
      isLoading := false;
    }

    /** Save the entry with the user message, then answer and save the entry with the reply. */
    method Exchange(updated: JournalEntry, replyId: string, replyTime: string, reply: RelayReply)
      returns (finalJournal: JournalEntry)
      modifies this`journal, this`requests, this`toasts, this`saved, store
      ensures var configured := LlmChat.SettingsConfigured(settings);
        && finalJournal == WithMessage(updated, ChatMessage(replyId, Assistant, AssistantContent(configured, reply), replyTime))
        && requests == old(requests) + (if configured then [RelayFor(updated, settings.value, persona)] else [])
        && toasts == old(toasts) + (var e := TurnError(configured, reply); if e.Some? then [e.value] else [])
      ensures journal == Some(finalJournal) && saved == old(saved) + [updated, finalJournal]
      ensures store.items == old(store.items)[JournalsKey := JournalsValue(Upsert(old(store.GetJournals()), finalJournal, JournalId))]
    {
      ghost var before := store.GetJournals();
      ghost var items := store.items;
      Commit(updated);
      finalJournal := Reply(updated, replyId, replyTime, reply);
      Commit(finalJournal);
      SaveJournalTwice(items, before, updated, finalJournal);
    }

    /** Everything between the two saves: ask, report a failure, build the entry with the reply. */
    method Reply(updated: JournalEntry, replyId: string, replyTime: string, reply: RelayReply)
      returns (finalJournal: JournalEntry)
      modifies this`requests, this`toasts
      ensures var configured := LlmChat.SettingsConfigured(settings);
        && finalJournal == WithMessage(updated, ChatMessage(replyId, Assistant, AssistantContent(configured, reply), replyTime))
        && requests == old(requests) + (if configured then [RelayFor(updated, settings.value, persona)] else [])
        && toasts == old(toasts) + (var e := TurnError(configured, reply); if e.Some? then [e.value] else [])
    {
      var failure, assistantContent := Respond(updated, reply);
      if failure.Some? {
        toasts := toasts + [failure.value];
        assistantContent := ErrorPrefix + failure.value;
      }
      finalJournal := WithMessage(updated, ChatMessage(replyId, Assistant, assistantContent, replyTime));
    }

    /** `setJournal(entry); saveJournal(entry)`. */
    method Commit(entry: JournalEntry)
      modifies this`journal, this`saved, store
      ensures journal == Some(entry) && saved == old(saved) + [entry]
      ensures store.items == old(store.items)[JournalsKey := JournalsValue(Upsert(old(store.GetJournals()), entry, JournalId))]
      ensures store.GetJournals() == Upsert(old(store.GetJournals()), entry, JournalId)
    {
      journal := Some(entry);
      store.SaveJournal(entry);
      saved := saved + [entry];
    }

    /** The `try` block after the user message is saved: the configuration check and the relay call. */
    method Respond(updated: JournalEntry, reply: RelayReply) returns (failure: Option<string>, assistantContent: string)
      modifies this`requests
      ensures var configured := LlmChat.SettingsConfigured(settings);
        && failure == TurnError(configured, reply)
        && (failure.None? ==> assistantContent == AssistantContent(configured, reply))
        && requests == old(requests) + (if configured then [RelayFor(updated, settings.value, persona)] else [])
    {
      failure := None;
      assistantContent := "";
      if !LlmChat.SettingsConfigured(settings) {
        failure := Some(LlmChat.NotConfiguredMessage);
        return;
      }
      requests := requests + [RelayFor(updated, settings.value, persona)];
      match reply {
        case TransportError(m) =>
          failure := Some(m);
        case ReplyData(data) =>
          if HasError(data) {
            failure := Some(data.error.value);
          } else {
            assistantContent := ContentOr(data, ApologyMessage);
          }
      }
    }
  }
}
