/** The rolling conversation buffer (memory/buffer_manager.py): conversations
    accumulate in a list, are looked up with Python indexing, and are
    flushed to the store once five have gathered. The flush is an external
    call that may raise; the buffer is cleared only when it returns. */
module BufferManager {
  import opened Python

  datatype Conversation = Conversation(question: string, answer: string, agents: seq<string>, reason: string)

  /** The length at which add_conversation flushes. */
  const FlushThreshold := 5

  /** The flush as the buffer calls it: `upload(conversations, memory)`. */
  type Upload = (seq<Conversation>, Option<string>) -> Outcome<()>

  /** The memory string of one conversation. */
  function MemoryLine(c: Conversation): (line: string)
    ensures |line| == 26 + |c.question| + |c.answer|
    ensures line[..12 + |c.question|] == "Previous Q: " + c.question
    ensures line[|line| - |c.answer|..] == c.answer
  {
    "Previous Q: " + c.question + ", Previous A: " + c.answer
  }

  /** A memory string is never empty, so it always passes an `if context:`
      test. */
  lemma MemoryLineNonEmpty(c: Conversation)
    ensures MemoryLine(c) != ""
  {
  }

  /** The parameters of `upload_to_redis` (memory/redis_manager.py:32). */
  const UploadParams := ["r", "conversations", "pre_context"]

  /** A call of `upload_to_redis` with `given` positional arguments, whose
      last two are the conversations and the memory string: Python binds
      the arguments first, and only a complete binding reaches the body,
      the Redis write `body`. */
  function UploadCall(given: nat, body: Upload, conversations: seq<Conversation>, memory: Option<string>): Outcome<()> {
    match BindPositionals("upload_to_redis", UploadParams, given)
    case Raised(e) => Raised(e)
    case Returned(_) => body(conversations, memory)
  }

  /** The upload as process_buffer writes it: `upload_to_redis(self.buffer,
      memory)`, two arguments. */
  function UploadAsWritten(body: Upload): Upload {
    (conversations: seq<Conversation>, memory: Option<string>) => UploadCall(2, body, conversations, memory)
  }

  /** Two arguments leave `pre_context` unbound, so every flush raises
      `TypeError` before the Redis write, whatever the write would do. */
  lemma AsWrittenUploadRaises(body: Upload, conversations: seq<Conversation>, memory: Option<string>)
    ensures UploadAsWritten(body)(conversations, memory) ==
              Raised(TypeError(MissingMessage("upload_to_redis", ["pre_context"])))
  {
    assert UploadParams[2..] == ["pre_context"];
  }

  /** With the client passed as well the binding is complete and the flush
      is the Redis write itself. */
  lemma FullUploadWrites(body: Upload, conversations: seq<Conversation>, memory: Option<string>)
    ensures UploadCall(3, body, conversations, memory) == body(conversations, memory)
  {
  }

  class ConversationBuffer {
    var buffer: seq<Conversation>

    /** ConversationBuffer.__init__ */
    constructor()
      ensures buffer == []
    {
      buffer := [];
    }

    /** get_conversation_from_buffer: `buffer[index]`, `None` on
        `IndexError`. */
    function GetConversation(index: int): (c: Option<Conversation>)
      reads this
      ensures c.Some? <==> -|buffer| <= index < |buffer|
      ensures 0 <= index < |buffer| ==> c == Some(buffer[index])
      ensures -|buffer| <= index < 0 ==> c == Some(buffer[|buffer| + index])
    {
      PyIndex(buffer, index)
    }

    /** get_memory_from_buffer: the memory string of `buffer[index]`, or
        `None` when there is no such conversation. */
    function GetMemory(index: int): (m: Option<string>)
      reads this
      ensures m.Some? <==> -|buffer| <= index < |buffer|
      ensures m.Some? ==> m.value != "" && m.value == MemoryLine(GetConversation(index).value)
    {
      match GetConversation(index)
      case None => None
      case Some(c) => MemoryLineNonEmpty(c); Some(MemoryLine(c))
    }

    /** summarize_conversations */
    function SummarizeConversations(): (s: string)
      ensures s == "Summary"
    {
      "Summary"
    }

    /** process_buffer: hand the whole buffer and the newest memory string
        to the upload, then clear; when the upload raises, the exception
        leaves and the buffer is kept. */
    method ProcessBuffer(upload: Upload) returns (r: Outcome<()>)
      modifies this
      ensures r == upload(old(buffer), old(GetMemory(-1)))
      ensures r.Returned? ==> buffer == []
      ensures r.Raised? ==> buffer == old(buffer)
    {
      var summary := SummarizeConversations();
      var memory := GetMemory(-1);
      r := upload(buffer, memory);
      if r.Raised? {
        return;
      }
      buffer := [];
    }

    /** add_conversation, given the parsed conversation: append, then flush
        when five or more are held. */
    method AddConversation(conversation: Conversation, upload: Upload) returns (r: Outcome<()>)
      modifies this
      ensures var added := old(buffer) + [conversation];
              if |added| < FlushThreshold then r == Returned(()) && buffer == added
              else r == upload(added, Some(MemoryLine(conversation)))
                   && (r.Returned? ==> buffer == [])
                   && (r.Raised? ==> buffer == added)
      ensures |old(buffer)| < FlushThreshold && r.Returned? ==> |buffer| < FlushThreshold
    {
      buffer := buffer + [conversation];
      if |buffer| >= FlushThreshold {
        IndexAfterAppend(old(buffer), conversation, -1);
        r := ProcessBuffer(upload);
      } else {
        r := Returned(());
      }
    }
  }

  /** add_conversation as written, on a buffer of four or more: the flush
      raises, so the conversation stays appended and the exception leaves. */
  method AsWrittenAddConversation(b: ConversationBuffer, conversation: Conversation, body: Upload) returns (r: Outcome<()>)
    requires |b.buffer| >= FlushThreshold - 1
    modifies b
    ensures r == Raised(TypeError(MissingMessage("upload_to_redis", ["pre_context"])))
    ensures b.buffer == old(b.buffer) + [conversation]
  {
    r := b.AddConversation(conversation, UploadAsWritten(body));
    AsWrittenUploadRaises(body, old(b.buffer) + [conversation], Some(MemoryLine(conversation)));
  }

  /** So once four conversations are held the buffer is never cleared: the
      fifth add and the sixth both raise, and all six stay. */
  method AsWrittenBufferGrows(b: ConversationBuffer, fifth: Conversation, sixth: Conversation, body: Upload)
    returns (r5: Outcome<()>, r6: Outcome<()>)
    requires |b.buffer| == FlushThreshold - 1
    modifies b
    ensures r5.Raised? && r5.error.TypeError? && r6.Raised? && r6.error.TypeError?
    ensures b.buffer == old(b.buffer) + [fifth, sixth] && |b.buffer| == 6
  {
    r5 := AsWrittenAddConversation(b, fifth, body);
    r6 := AsWrittenAddConversation(b, sixth, body);
    assert old(b.buffer) + [fifth] + [sixth] == old(b.buffer) + [fifth, sixth];
  }
}
