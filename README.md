# StickerSmash chat and wallet logic in Dafny

StickerSmash is a crypto-wallet-styled demo app. Almost all of it is screens and
styles over fixture data. This project models the few parts that carry logic:

- **Wallet data**: the `Token` and `ChatMessage` records, `getTotalBalance` and the
  fixture arrays (`dummyTokens`, `dummyMessages`, `dummyBotMessages`).
- **AI-assistant conversation**: the message list of `AIChatScreen`. `handleSendMessage`
  appends the user's message and schedules one canned assistant reply. It is a class
  `AIChat.Conversation` with `Send` and `Reply`. Each handler reads the clock twice, once
  for the id and once for the timestamp. The two readings are separate parameters of each
  call, and a fired reply timer is a call of `Reply`. The class also counts the replies
  still pending. Its invariant covers the messages appended after the seed fixture. Each
  is a user message or the canned reply. In every prefix of them, replies never outnumber
  user messages. In total, user messages equal replies plus the replies still pending.
- **Composer** (`ChatInput`): the draft and the recording flag as a class
  `ChatInputModel.ChatInput`. It has the send gate (forward the trimmed draft only if it
  is non-empty, then clear it), the Send / Mic / Stop controls, and the simulated voice
  recording. `AIChat.SubmitDraft` wires the composer to the conversation, as
  `<ChatInput onSend={handleSendMessage} />` does.
- **Bubble selection** (`ChatMessageComponent`): a pure choice of payment card, user
  bubble or bot bubble, plus the alignment.
- **Token change badge** (`TokenCard`): arrow and colours from the sign of `change`,
  and the magnitude `|change|`.

Money values (`value`, `balance`, `change`, `paymentAmount`) are exact `real`s. Message
ids are the decimal string of a clock reading, modelled by `Decimal.NatToString` with
its inverse `Decimal.ParseDecimal`.

`handleSendMessage` appends whatever text it is given (StickerSmash/app/ai-chat.tsx:34-42).
The blank-draft gate is in the composer (StickerSmash/components/ChatInput.tsx:26). So
`Conversation.Send` has no requirement on its text, and `SubmitDraft` carries the gate.

The reply's id and timestamp come from clock readings taken when the reply timer fires
(StickerSmash/app/ai-chat.tsx:47, :50). The id is one reading plus 1. The timestamp is
another reading plus 1000.

Each `startRecording` schedules one completion, and stopping a recording does not cancel
it. The composer counts the completions still scheduled. `StopRecording` leaves that count
alone, and `CompleteRecording` sets the transcript whether or not recording was stopped.

## Model

| member | source | states |
|---|---|---|
| `Decimal.NatToString` | StickerSmash/app/ai-chat.tsx:36 | an id rendered from a clock reading is a non-empty string of decimal digits, a single digit for readings below 10, and never starts with '0' unless the reading is 0 (so 0 renders as exactly "0") |
| `Decimal.ParseNatToString` | StickerSmash/app/ai-chat.tsx:36 | reading the digits of an id back gives the clock reading it was made from (round trip) |
| `Decimal.NatToStringInjective` | StickerSmash/app/ai-chat.tsx:36 | two clock readings give the same id string exactly when they are equal |
| `Wallet.FoldIsSum` | StickerSmash/utils/walletData.ts:103 | the left fold from any starting sum equals that sum plus the sum of the `value` fields |
| `Wallet.TotalBalance` | StickerSmash/utils/walletData.ts:102-104 | `getTotalBalance` equals the sum of the tokens' `value` fields in list order, and is 0 for the empty list |
| `Wallet.SumValuesAppend` | StickerSmash/utils/walletData.ts:103 | the value sum of a concatenation is the sum of the two parts' sums |
| `Wallet.TotalBalanceAppend` | StickerSmash/utils/walletData.ts:103 | the total of a concatenation is the sum of the two totals |
| `Wallet.SumValuesRemove` | StickerSmash/utils/walletData.ts:103 | removing the token at any position removes exactly its value from the sum |
| `Wallet.SumValuesPermutation` | StickerSmash/utils/walletData.ts:103 | two token lists with the same multiset of tokens have equal value sums |
| `Wallet.TotalBalancePermutation` | StickerSmash/utils/walletData.ts:103 | the total is unchanged by any reordering of the token list |
| `Wallet.TotalBalanceReadsOnlyValue` | StickerSmash/utils/walletData.ts:103 | lists that agree position by position on `value` have the same total, whatever their other fields |
| `Wallet.TotalBalanceBoundsEachValue` | StickerSmash/utils/walletData.ts:103 | when no value is negative, the total is at least 0 and at least every single value |
| `Wallet.DummyTokensTotal` | StickerSmash/utils/walletData.ts:106-143 | the dashboard fixture totals 27100 |
| `Wallet.DummyFixtures` | StickerSmash/utils/walletData.ts:63-100 | the contact fixture has exactly one payment message (the third), of 0.5 ETH; the assistant fixture is one non-user message |
| `ChatInputModel.TrimStart` | StickerSmash/components/ChatInput.tsx:26 | the result is the suffix left after removing leading whitespace: what was removed is all whitespace and the result does not start with whitespace |
| `ChatInputModel.TrimEnd` | StickerSmash/components/ChatInput.tsx:26 | the result is the prefix left after removing trailing whitespace: what was removed is all whitespace and the result does not end with whitespace |
| `ChatInputModel.Trim` | StickerSmash/components/ChatInput.tsx:26 | the trimmed draft has whitespace at neither end, and is empty exactly when the draft is all whitespace |
| `ChatInputModel.TrimIdempotent` | StickerSmash/components/ChatInput.tsx:27 | trimming twice gives the same as trimming once |
| `ChatInputModel.TrimIsInnerSlice` | StickerSmash/components/ChatInput.tsx:26 | the trimmed draft is a contiguous slice of the draft with only whitespace before and after it |
| `ChatInputModel.Forwarded` | StickerSmash/components/ChatInput.tsx:25-30 | `onSend` is called exactly when the draft is not all whitespace, with a non-empty text that has no whitespace at either end |
| `ChatInputModel.ForwardedIsTrimFixedPoint` | StickerSmash/components/ChatInput.tsx:27 | trimming the forwarded text again leaves it unchanged |
| `ChatInputModel.ControlsFor` | StickerSmash/components/ChatInput.tsx:68-112 | Stop while recording; otherwise Send exactly when the draft is not all whitespace, and Mic exactly when it is |
| `ChatInputModel.SendButtonIffForwarded` | StickerSmash/components/ChatInput.tsx:96-112 | the Send button is shown exactly when pressing it would forward the draft; the Mic button exactly when it would not |
| `ChatInputModel.ChatInput.constructor` | StickerSmash/components/ChatInput.tsx:21-22 | the composer starts with an empty draft, not recording, and no completion scheduled |
| `ChatInputModel.ChatInput.Edit` | StickerSmash/components/ChatInput.tsx:88-89 | typing replaces the draft and leaves the recording flag alone |
| `ChatInputModel.ChatInput.HandleSend` | StickerSmash/components/ChatInput.tsx:25-30 | forwards the trimmed draft and clears it, or, for a blank draft, forwards nothing and keeps the draft; the recording flag is untouched |
| `ChatInputModel.ChatInput.StartRecording` | StickerSmash/components/ChatInput.tsx:32-54 | recording is on and exactly one more completion is scheduled; the draft is untouched |
| `ChatInputModel.ChatInput.CompleteRecording` | StickerSmash/components/ChatInput.tsx:38-41 | a scheduled completion fires: the draft becomes "I'd like to check my balance", recording is off, one fewer completion is scheduled |
| `ChatInputModel.ChatInput.StopRecording` | StickerSmash/components/ChatInput.tsx:57-59 | recording is off; the draft is untouched and a scheduled completion is not cancelled |
| `ChatBubble.Render` | StickerSmash/components/ChatMessager.tsx:18-70 | a true `isPayment` gives the payment card ("Payment Sent", amount, symbol) whatever `isUser` is; otherwise a user bubble exactly when `isUser`, a bot bubble exactly when not; end-aligned exactly when `isUser`; every form shows the text and the timestamp |
| `ChatBubble.RenderDependsOnlyOnFlags` | StickerSmash/components/ChatMessager.tsx:18-53 | messages that agree on the payment flag and `isUser` get the same bubble form and alignment |
| `ChatBubble.AbsentPaymentFlagIsFalse` | StickerSmash/components/ChatMessager.tsx:18 | a missing `isPayment` renders exactly as `isPayment: false` |
| `ChatBubble.DummyMessagesRendering` | StickerSmash/components/ChatMessager.tsx:18-67 | the contact fixture's payment message is a left-aligned 0.5 ETH payment card; the first message is a user bubble and the others bot bubbles |
| `TokenBadge.Abs` | StickerSmash/components/TokenCard.tsx:55 | the displayed magnitude is non-negative and equals the change or its negation |
| `TokenBadge.BadgeOf` | StickerSmash/components/TokenCard.tsx:13-55 | up arrow exactly when change is at least 0, with success-light background and success-dark arrow and text; otherwise down arrow with the error colours; magnitude is the absolute change |
| `TokenBadge.ZeroChangeIsPositive` | StickerSmash/components/TokenCard.tsx:13 | a change of exactly 0 shows an up arrow and magnitude 0 |
| `TokenBadge.BadgeDependsOnlyOnChange` | StickerSmash/components/TokenCard.tsx:13 | tokens with equal `change` get identical badges, whatever their balance or value |
| `TokenBadge.OppositeChanges` | StickerSmash/components/TokenCard.tsx:44-55 | negating a change keeps the magnitude and, unless it is 0, flips the arrow |
| `TokenBadge.DummyTokenBadges` | StickerSmash/components/TokenCard.tsx:13 | on the dashboard fixture only Solana shows a falling arrow, with magnitude 1.2 |
| `AIChat.UserMessage` | StickerSmash/app/ai-chat.tsx:35-40 | the sent message is a user message with the given text, no payment fields, stamped with the timestamp reading, and with an id that reads back as the id reading |
| `AIChat.AssistantReply` | StickerSmash/app/ai-chat.tsx:46-51 | the reply is a non-user message with the fixed assistant text, no payment fields, an id that reads back as its id reading plus 1, and a timestamp of its timestamp reading plus 1000 |
| `AIChat.UserIdsCollideOnlyOnSameTick` | StickerSmash/app/ai-chat.tsx:36 | two user messages get the same id exactly when their id readings are equal |
| `AIChat.ReplyIdMatchesNextTickSend` | StickerSmash/app/ai-chat.tsx:36-47 | ids are not unique: a reply whose id reading is t has the id of a user message whose id reading is t + 1 |
| `AIChat.RenderAppended` | StickerSmash/app/ai-chat.tsx:91 | a sent message is drawn as an end-aligned user bubble, a reply as a start-aligned bot bubble |
| `AIChat.RepliesNeverLeadAppend` | StickerSmash/app/ai-chat.tsx:42-53 | appending one message to a list in which replies never outnumber user messages keeps that property, provided it also holds for the whole new list |
| `AIChat.Conversation.constructor` | StickerSmash/app/ai-chat.tsx:22 | the conversation starts as the assistant fixture with no reply pending |
| `AIChat.Conversation.Send` | StickerSmash/app/ai-chat.tsx:34-45 | appends exactly the user message at the end, leaves earlier messages as they were, and schedules one more reply; the invariant is kept (only sends or canned replies after the seed, replies never ahead of sends in any prefix, sends = replies + pending) |
| `AIChat.Conversation.Reply` | StickerSmash/app/ai-chat.tsx:45-54 | a pending reply fires: appends exactly the assistant reply at the end, leaves earlier messages as they were, one fewer reply pending; the invariant is kept |
| `AIChat.SubmitDraft` | StickerSmash/app/ai-chat.tsx:96 | pressing Send on a non-blank draft appends the trimmed text as a user message, schedules a reply and clears the draft; on a blank draft nothing changes: no message, no reply scheduled, same draft; the recording state is untouched either way |
| `AIChat.SendThenReply` | StickerSmash/app/ai-chat.tsx:42-53 | with any number of replies already pending, a send followed by a reply grows the conversation by exactly two, the user message then the reply, and leaves the pending count as it was |

## Left out

- Timers: `setTimeout` scheduling and delays (1000 ms reply, 2000 ms recording completion, 100 ms scroll) are not modelled. A fired timer is an explicit method call. `Conversation.Reply` may be called only while a reply is pending, and `ChatInput.CompleteRecording` only while a completion is scheduled. Teardown of the screen with a timer pending is not modelled.
- The clock: each `Date.now()` call becomes a parameter. The two calls in one handler (id and timestamp) are two parameters with no assumed order between them, because the model states nothing about how clock readings relate. Fixture timestamps, computed from `Date.now()` at load time, are functions of one parameter `now`.
- Fixture text: the fourth contact message ends in the four characters U+00F0 U+0178 U+017D U+2030 that the source file holds (an emoji decoded with the wrong encoding). The model keeps them as they are and does not repair them.
- Id uniqueness is not claimed. Ids are clock readings; `AIChat.ReplyIdMatchesNextTickSend` shows a collision.
- `Trim`: a fixed set of whitespace characters stands in for JavaScript's full Unicode whitespace set of `String.prototype.trim`.
- Locale and number formatting: `toLocaleTimeString`, `toLocaleString` and `toFixed(1)`. A bubble carries the raw timestamp, and the badge carries the exact magnitude.
- Floating point: amounts are exact reals, so rounding of IEEE doubles is not captured.
- Rendering, styles, animations, the scroll-to-end effect, keyboard handling and input focus.
- Speech synthesis and platform checks in the recording completion, and the 500-character `maxLength` that the text widget enforces.
- The `ChatUser` type and `dummyUsers` fixture: they are only displayed by the chat list, with no logic.
- The per-contact chat screen (StickerSmash/app/chat/[id].tsx), navigation, authentication, fonts and the splash screen.
- AnchorSolana/day1.rs: it does not compile and its instruction bodies are empty, so it has no behaviour to state.
