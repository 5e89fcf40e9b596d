/** The AI-assistant conversation (StickerSmash/app/ai-chat.tsx): the message
    list the screen holds, the send handler and the deferred canned reply.
    Each handler reads `Date.now()` twice, once for the id and once for the
    timestamp; the two readings are the parameters `idAt` and `stampAt`. A
    fired reply timer is a call of `Reply`. */
module AIChat {
  import opened Optional
  import opened Decimal
  import opened Wallet
  import opened ChatBubble
  import opened ChatInputModel

  const ReplyText: string :=
    "I'm analyzing your request. How else can I assist you with your crypto today?"

  /** The message `handleSendMessage` builds from `text`: its id is the
      clock reading `idAt`, its timestamp the reading `stampAt`. */
  function UserMessage(text: string, idAt: nat, stampAt: nat): (m: ChatMessage)
    ensures m.isUser && m.text == text && m.timestamp == stampAt
    ensures !IsPayment(m) && m.paymentAmount == None && m.paymentSymbol == None
    ensures AllDigits(m.id) && ParseDecimal(m.id) == idAt
  {
    ParseNatToString(idAt);
    PlainMessage(NatToString(idAt), text, true, stampAt)
  }

  /** The canned reply the responder timer appends when it fires: its id reads
      one more than the reading `idAt`, its timestamp is a second after the
      reading `stampAt`. */
  function AssistantReply(idAt: nat, stampAt: nat): (m: ChatMessage)
    ensures !m.isUser && m.text == ReplyText && m.timestamp == stampAt + 1000
    ensures !IsPayment(m) && m.paymentAmount == None && m.paymentSymbol == None
    ensures AllDigits(m.id) && ParseDecimal(m.id) == idAt + 1
  {
    ParseNatToString(idAt + 1);
    PlainMessage(NatToString(idAt + 1), ReplyText, false, stampAt + 1000)
  }

  predicate IsAssistantReply(m: ChatMessage) {
    !m.isUser && m.text == ReplyText && m.isPayment == None
  }

  /** Number of messages sent by the local user. */
  function UserCount(ms: seq<ChatMessage>): (n: nat)
    ensures n <= |ms|
    decreases |ms|
  {
    if ms == [] then 0 else UserCount(ms[1..]) + (if ms[0].isUser then 1 else 0)
  }

  /** Number of messages from the other side. */
  function ReplyCount(ms: seq<ChatMessage>): nat {
    |ms| - UserCount(ms)
  }

  /** In every prefix of `ms`, there are no more replies than user messages:
      no reply comes before the send it answers. */
  ghost predicate RepliesNeverLead(ms: seq<ChatMessage>) {
    forall p :: 0 <= p <= |ms| ==> ReplyCount(ms[..p]) <= UserCount(ms[..p])
  }

  lemma RepliesNeverLeadAppend(ms: seq<ChatMessage>, m: ChatMessage)
    requires RepliesNeverLead(ms)
    requires ReplyCount(ms + [m]) <= UserCount(ms + [m])
    ensures RepliesNeverLead(ms + [m])
  {
    forall p | 0 <= p <= |ms + [m]|
      ensures ReplyCount((ms + [m])[..p]) <= UserCount((ms + [m])[..p])
    {
      if p <= |ms| {
        assert (ms + [m])[..p] == ms[..p];
      } else {
        assert (ms + [m])[..p] == ms + [m];
      }
    }
  }

  lemma {:induction false} UserCountAppend(ms: seq<ChatMessage>, m: ChatMessage)
    ensures UserCount(ms + [m]) == UserCount(ms) + (if m.isUser then 1 else 0)
    decreases |ms|
  {
    if ms == [] {
      assert ms + [m] == [m];
    } else {
      assert (ms + [m])[1..] == ms[1..] + [m];
      UserCountAppend(ms[1..], m);
    }
  }

  /** Ids are decimal clock readings, so two user messages share an id exactly
      when their id readings fell in the same millisecond. */
  lemma UserIdsCollideOnlyOnSameTick(t1: string, i1: nat, s1: nat, t2: string, i2: nat, s2: nat)
    ensures UserMessage(t1, i1, s1).id == UserMessage(t2, i2, s2).id <==> i1 == i2
  {
  }

  /** Ids are not unique: a reply whose id reading is `now` carries the id of a
      message the user sends one millisecond later. */
  lemma ReplyIdMatchesNextTickSend(text: string, now: nat, replyStamp: nat, sendStamp: nat)
    ensures AssistantReply(now, replyStamp).id == UserMessage(text, now + 1, sendStamp).id
  {
  }

  /** A sent message is drawn as a right-aligned user bubble; a reply as a
      left-aligned bot bubble. */
  lemma RenderAppended(text: string, idAt: nat, stampAt: nat)
    ensures Render(UserMessage(text, idAt, stampAt)) == Rendered(FlexEnd, UserBubble(text, stampAt))
    ensures Render(AssistantReply(idAt, stampAt)) ==
              Rendered(FlexStart, BotBubble(ReplyText, stampAt + 1000))
  {
  }

  /** The `messages` state of `AIChatScreen`, plus the responder timers that
      have been scheduled and have not fired yet. */
  class Conversation {
    var messages: seq<ChatMessage>
    var pendingReplies: nat
    /** The fixture the conversation started from. */
    ghost var seed: seq<ChatMessage>

    /** Everything after the seed was appended by a send or a reply; at no
        point did the replies outnumber the sends; and the sends not yet
        answered are exactly the replies still pending. */
    ghost predicate Valid()
      reads this
    {
      && seed <= messages
      && (forall k :: |seed| <= k < |messages| ==>
            messages[k].isUser || IsAssistantReply(messages[k]))
      && var tail := messages[|seed|..];
         && RepliesNeverLead(tail)
         && UserCount(tail) == ReplyCount(tail) + pendingReplies
    }

    /** `useState(dummyBotMessages)`. */
    constructor (now: int)
      ensures Valid()
      ensures messages == DummyBotMessages(now) && seed == messages && pendingReplies == 0
    {
      messages := DummyBotMessages(now);
      seed := messages;
      pendingReplies := 0;
    }

    /** `handleSendMessage(text)`: appends the user's message and schedules one
        reply. The text is taken as given; the composer does the trimming. */
    method Send(text: string, idAt: nat, stampAt: nat)
      requires Valid()
      modifies this
      ensures Valid() && seed == old(seed)
      ensures messages == old(messages) + [UserMessage(text, idAt, stampAt)]
      ensures pendingReplies == old(pendingReplies) + 1
    {
      var m := UserMessage(text, idAt, stampAt);
      assert (messages + [m])[|seed|..] == messages[|seed|..] + [m];
      UserCountAppend(messages[|seed|..], m);
      RepliesNeverLeadAppend(messages[|seed|..], m);
      messages := messages + [m];
      pendingReplies := pendingReplies + 1;
    }

    /** A scheduled responder timer fires and appends the canned reply. */
    method Reply(idAt: nat, stampAt: nat)
      requires Valid() && pendingReplies > 0
      modifies this
      ensures Valid() && seed == old(seed)
      ensures messages == old(messages) + [AssistantReply(idAt, stampAt)]
      ensures pendingReplies == old(pendingReplies) - 1
    {
      var m := AssistantReply(idAt, stampAt);
      assert (messages + [m])[|seed|..] == messages[|seed|..] + [m];
      UserCountAppend(messages[|seed|..], m);
      RepliesNeverLeadAppend(messages[|seed|..], m);
      messages := messages + [m];
      pendingReplies := pendingReplies - 1;
    }
  }

  /** `<ChatInput onSend={handleSendMessage} />`: pressing Send forwards the
      trimmed draft to the conversation, or does nothing at all for a blank
      draft (no message, no reply scheduled). */
  method SubmitDraft(input: ChatInput, chat: Conversation, idAt: nat, stampAt: nat)
    returns (sent: Option<string>)
    requires chat.Valid()
    modifies input, chat
    ensures chat.Valid() && chat.seed == old(chat.seed)
    ensures sent == Forwarded(old(input.draft))
    ensures sent.Some? ==>
              && chat.messages == old(chat.messages) + [UserMessage(sent.value, idAt, stampAt)]
              && chat.pendingReplies == old(chat.pendingReplies) + 1
              && input.draft == []
    ensures sent.None? ==>
              && chat.messages == old(chat.messages)
              && chat.pendingReplies == old(chat.pendingReplies)
              && input.draft == old(input.draft)
    ensures input.isRecording == old(input.isRecording)
    ensures input.pendingCompletions == old(input.pendingCompletions)
  {
    sent := input.HandleSend();
    if sent.Some? {
      chat.Send(sent.value, idAt, stampAt);
    }
  }

  /** A send followed by a reply, with any number of earlier replies still
      pending: the conversation grows by two, the user message then the canned
      reply, and the number of pending replies is back where it was. */
  method SendThenReply(chat: Conversation, text: string,
                       sendIdAt: nat, sendStampAt: nat, replyIdAt: nat, replyStampAt: nat)
    requires chat.Valid()
    modifies chat
    ensures chat.Valid() && chat.pendingReplies == old(chat.pendingReplies)
    ensures |chat.messages| == |old(chat.messages)| + 2
    ensures chat.messages == old(chat.messages) + [UserMessage(text, sendIdAt, sendStampAt),
                                                   AssistantReply(replyIdAt, replyStampAt)]
  {
    chat.Send(text, sendIdAt, sendStampAt);
    chat.Reply(replyIdAt, replyStampAt);
  }
}
