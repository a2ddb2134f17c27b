// The small-talk module (src/modules/chat.py): it builds the prompt list from
// the system prompt, the conversation's recent history and the user's
// message, asks the LLM, and records the exchange in the conversation.  The
// LLM's answer is a parameter (`reply`): its text, or the exception the call
// raised.  The history loading and the saving of an exchange are shared with
// the role-play module, whose code repeats them.

module Chat {
  import opened Common
  import opened Models
  import opened Sessions
  import opened Llm

  const DEFAULT_SYSTEM_PROMPT: string :=
    "你是一个友好、 helpful 的 AI 助手，专门为考研学生提供帮助。\n\n你的特点：\n" +
    "- 回答简洁明了，通常不超过200字\n- 对考研相关问题有深入了解\n- 语气友善，鼓励性\n" +
    "- 可以适当使用表情符号增加亲和力\n\n请用中文回答。"

  /** The reply when generation raises. */
  const APOLOGY := "抱歉，我现在无法回复，请稍后再试。"

  const ASSISTANT_SENDER_ID := "system"
  const ASSISTANT_SENDER_NAME := "AI助手"

  /** What `get_messages(id, limit=maxHistory)` returns for the conversation the storage shows. */
  function Shown(v: Option<Context>, maxHistory: int): (r: seq<ChatMessage>)
    ensures v.None? ==> r == []
    ensures v.Some? && maxHistory > 0 ==> r == LastN(v.value.messages, maxHistory)
  {
    if v.None? then [] else Latest(v.value.messages, Some(maxHistory))
  }

  /** The two rows `_save_messages` adds: the user's message under the user's
      id as sender id and name, then the reply as the assistant. */
  function Exchange(contextId: string, userId: string, userMessage: string, aiMessage: string,
                    userMessageId: string, replyMessageId: string, now: int): (r: seq<(string, ChatMessage)>)
    ensures |r| == 2 && r[0].0 == contextId && r[1].0 == contextId
    ensures r[0].1.role == UserRole && r[0].1.senderId == userId && r[0].1.content == userMessage
    ensures r[1].1.role == AssistantRole && r[1].1.senderId == ASSISTANT_SENDER_ID && r[1].1.content == aiMessage
  {
    [(contextId, NewMessage(userMessageId, userId, userId, userMessage, TextMessage, UserRole, false, now)),
     (contextId, NewMessage(replyMessageId, ASSISTANT_SENDER_ID, ASSISTANT_SENDER_NAME, aiMessage, TextMessage,
                            AssistantRole, false, now))]
  }

  /** The history half of `_build_messages`: the conversation's latest
      messages when there are both a context and a manager, else none. */
  method LoadHistory(contexts: ContextManager?, context: Option<Context>, maxHistory: int)
    returns (history: seq<ChatMessage>)
    requires contexts != null ==> contexts.Wired() && contexts.db.Valid()
    modifies if contexts != null then {contexts.storage.cache} else {}
    ensures history == if context.None? || contexts == null then []
                       else Shown(old(contexts.storage.View(context.value.contextId)), maxHistory)
    ensures contexts != null && context.Some? ==>
      contexts.storage.View(context.value.contextId) == old(contexts.storage.View(context.value.contextId))
  {
    history := [];
    if context.Some? && contexts != null {
      history := contexts.GetMessages(context.value.contextId, Some(maxHistory));
    }
  }

  /** `_save_messages`: two `add_message` calls; an exception from the first
      is logged and ends the save. */
  method SaveExchange(contexts: ContextManager, contextId: string, userId: string, userMessage: string,
                      aiMessage: string, userMessageId: string, replyMessageId: string, now: int)
    requires contexts.Wired() && contexts.db.Valid()
    modifies contexts.storage.cache, contexts.db
    ensures contexts.db.Valid()
    ensures contexts.db.messageRows == old(contexts.db.messageRows) +
      if contexts.db.up && old(contexts.storage.View(contextId)).Some?
      then Exchange(contextId, userId, userMessage, aiMessage, userMessageId, replyMessageId, now) else []
    ensures contexts.db.UsersUnchanged() && contexts.db.QuotasUnchanged()
    ensures contexts.db.BansUnchanged() && contexts.db.RolesUnchanged()
  {
    var first := contexts.AddMessage(contextId, userMessageId, userId, userId, userMessage, TextMessage,
                                     UserRole, false, now);
    if first.Raised? {
      return;
    }
    if old(contexts.storage.View(contextId)).Some? {
      StillShown(contexts, contextId, old(contexts.storage.cache.entries), old(contexts.db.contexts));
    }
    var second := contexts.AddMessage(contextId, replyMessageId, ASSISTANT_SENDER_ID, ASSISTANT_SENDER_NAME,
                                      aiMessage, TextMessage, AssistantRole, false, now);
  }

  /** Saving a context never hides one the storage showed: neither the cache
      nor the durable table loses a key. */
  lemma StillShown(contexts: ContextManager, id: string, cache: map<string, Context>, rows: map<string, Context>)
    requires contexts.Wired()
    requires cache.Keys <= contexts.storage.cache.entries.Keys
    requires contexts.db.up ==> rows.Keys <= contexts.db.contexts.Keys
    requires (contexts.storage.cache.up && id in cache) || (contexts.db.up && id in rows)
    ensures contexts.storage.View(id).Some?
  {
  }

  /** The prompt list under `systemPrompt`, with the history when there are
      both a context and a manager. */
  method BuildPrompt(contexts: ContextManager?, systemPrompt: string, userMessage: string, context: Option<Context>,
                     maxHistory: int) returns (r: seq<ApiMessage>)
    requires contexts != null ==> contexts.Wired() && contexts.db.Valid()
    modifies if contexts != null then {contexts.storage.cache} else {}
    ensures r == PromptList(systemPrompt, if context.None? || contexts == null then []
                            else Shown(old(contexts.storage.View(context.value.contextId)), maxHistory),
                            userMessage)
    ensures contexts != null && context.Some? ==>
      contexts.storage.View(context.value.contextId) == old(contexts.storage.View(context.value.contextId))
  {
    var history := LoadHistory(contexts, context, maxHistory);
    r := AppendHistory([Entry("system", systemPrompt)], history);
    r := r + [Entry("user", userMessage)];
  }

  /** The exchange both `handle` and `generate_response` perform once the
      system prompt is chosen: build the prompt (`prompt`), take the LLM's
      reply, answer its stripped text and save the exchange, or answer the
      apology when the call raises. */
  method Converse(contexts: ContextManager?, systemPrompt: string, userMessage: string, context: Option<Context>,
                  userId: string, maxHistory: int, reply: Outcome<string>, userMessageId: string,
                  replyMessageId: string, now: int)
    returns (r: string, prompt: seq<ApiMessage>)
    requires contexts != null ==> contexts.Wired() && contexts.db.Valid()
    modifies if contexts != null then {contexts.storage.cache, contexts.db} else {}
    ensures prompt == PromptList(systemPrompt, if context.None? || contexts == null then []
                                 else Shown(old(contexts.storage.View(context.value.contextId)), maxHistory),
                                 userMessage)
    ensures r == if reply.Raised? then APOLOGY else Strip(reply.value)
    ensures contexts != null ==> contexts.db.Valid()
    ensures contexts != null ==>
      contexts.db.messageRows == old(contexts.db.messageRows) +
        if reply.Ok? && context.Some? && contexts.db.up && old(contexts.storage.View(context.value.contextId)).Some?
        then Exchange(context.value.contextId, userId, userMessage, r, userMessageId, replyMessageId, now) else []
  {
    prompt := BuildPrompt(contexts, systemPrompt, userMessage, context, maxHistory);
    if reply.Raised? {
      return APOLOGY, prompt;
    }
    r := Strip(reply.value);
    if context.Some? && contexts != null {
      SaveExchange(contexts, context.value.contextId, userId, userMessage, r, userMessageId, replyMessageId, now);
    }
  }

  class ChatModule {
    var systemPrompt: string
    const contexts: ContextManager?

    /** A missing or empty prompt falls back to the default. */
    constructor (contexts: ContextManager?, systemPrompt: Option<string>)
      ensures this.contexts == contexts
      ensures this.systemPrompt == if systemPrompt.None? || systemPrompt.value == "" then DEFAULT_SYSTEM_PROMPT
                                   else systemPrompt.value
    {
      this.contexts := contexts;
      this.systemPrompt := if systemPrompt.None? || systemPrompt.value == "" then DEFAULT_SYSTEM_PROMPT
                           else systemPrompt.value;
    }

    ghost predicate Ready()
      reads if contexts != null then {contexts.db} else {}
    {
      contexts != null ==> contexts.Wired() && contexts.db.Valid()
    }

    method SetSystemPrompt(prompt: string)
      modifies this
      ensures systemPrompt == prompt
    {
      systemPrompt := prompt;
    }

    method ClearSystemPrompt()
      modifies this
      ensures systemPrompt == DEFAULT_SYSTEM_PROMPT
    {
      systemPrompt := DEFAULT_SYSTEM_PROMPT;
    }

    /** `_build_messages`. */
    method BuildMessages(userMessage: string, context: Option<Context>, maxHistory: int)
      returns (r: seq<ApiMessage>)
      requires Ready()
      modifies if contexts != null then {contexts.storage.cache} else {}
      ensures r == PromptList(systemPrompt, if context.None? || contexts == null then []
                              else Shown(old(contexts.storage.View(context.value.contextId)), maxHistory),
                              userMessage)
    {
      r := BuildPrompt(contexts, systemPrompt, userMessage, context, maxHistory);
    }

    /** `handle`: the stripped reply, recorded in the conversation; the
        apology when the LLM call raises, with nothing recorded. */
    method Handle(userMessage: string, context: Option<Context>, userId: string, maxHistory: int,
                  reply: Outcome<string>, userMessageId: string, replyMessageId: string, now: int)
      returns (r: string)
      requires Ready()
      modifies if contexts != null then {contexts.storage.cache, contexts.db} else {}
      ensures r == if reply.Raised? then APOLOGY else Strip(reply.value)
      ensures contexts != null ==> contexts.db.Valid()
      ensures contexts != null ==>
        contexts.db.messageRows == old(contexts.db.messageRows) +
          if reply.Ok? && context.Some? && contexts.db.up && old(contexts.storage.View(context.value.contextId)).Some?
          then Exchange(context.value.contextId, userId, userMessage, r, userMessageId, replyMessageId, now) else []
    {
      var prompt;
      r, prompt := Converse(contexts, systemPrompt, userMessage, context, userId, maxHistory, reply,
                            userMessageId, replyMessageId, now);
    }
  }
}
