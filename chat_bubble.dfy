/** Variant selection of `ChatMessageComponent`
    (StickerSmash/components/ChatMessager.tsx): which bubble a message is drawn
    as and which side of the list it sits on. Time formatting is not modelled:
    a bubble carries the raw timestamp it would format. */
module ChatBubble {
  import opened Optional
  import opened Wallet

  /** `alignSelf` of the message container. */
  datatype Alignment = FlexEnd | FlexStart

  /** The three bubble forms. Every form shows the message text and a time. */
  datatype Bubble =
    | PaymentCard(title: string, amount: Option<real>, symbol: Option<string>,
                  text: string, timestamp: int)
    | UserBubble(text: string, timestamp: int)
    | BotBubble(text: string, timestamp: int)

  datatype Rendered = Rendered(alignment: Alignment, bubble: Bubble)

  const PaymentTitle: string := "Payment Sent"

  /** `if (message.isPayment)`: only a present, true flag is truthy. */
  predicate IsPayment(m: ChatMessage) {
    m.isPayment == Some(true)
  }

  function Render(m: ChatMessage): (r: Rendered)
    ensures r.bubble.PaymentCard? <==> IsPayment(m)
    ensures r.bubble.UserBubble? <==> !IsPayment(m) && m.isUser
    ensures r.bubble.BotBubble? <==> !IsPayment(m) && !m.isUser
    ensures r.alignment == FlexEnd <==> m.isUser
    ensures r.bubble.text == m.text && r.bubble.timestamp == m.timestamp
    ensures r.bubble.PaymentCard? ==>
              r.bubble.title == PaymentTitle
              && r.bubble.amount == m.paymentAmount
              && r.bubble.symbol == m.paymentSymbol
  {
    var alignment := if m.isUser then FlexEnd else FlexStart;
    if IsPayment(m) then
      Rendered(alignment, PaymentCard(PaymentTitle, m.paymentAmount, m.paymentSymbol, m.text, m.timestamp))
    else if m.isUser then
      Rendered(alignment, UserBubble(m.text, m.timestamp))
    else
      Rendered(alignment, BotBubble(m.text, m.timestamp))
  }

  /** Messages that agree on the payment flag and on `isUser` get the same
      bubble form and the same alignment, whatever else they hold. */
  lemma RenderDependsOnlyOnFlags(m1: ChatMessage, m2: ChatMessage)
    requires IsPayment(m1) == IsPayment(m2) && m1.isUser == m2.isUser
    ensures Render(m1).alignment == Render(m2).alignment
    ensures Render(m1).bubble.PaymentCard? == Render(m2).bubble.PaymentCard?
    ensures Render(m1).bubble.UserBubble? == Render(m2).bubble.UserBubble?
    ensures Render(m1).bubble.BotBubble? == Render(m2).bubble.BotBubble?
  {
  }

  /** An absent `isPayment` renders exactly as `isPayment: false`. */
  lemma AbsentPaymentFlagIsFalse(m: ChatMessage)
    requires m.isPayment == None
    ensures Render(m) == Render(m.(isPayment := Some(false)))
  {
  }

  /** The contact fixture's third message is drawn as a 0.5 ETH payment card on
      the left; the others as plain bubbles. */
  lemma DummyMessagesRendering(now: int)
    ensures Render(DummyMessages(now)[2]) ==
              Rendered(FlexStart, PaymentCard(PaymentTitle, Some(0.5), Some("ETH"),
                                              "Payment of 0.5 ETH sent to Sarah", now - 3400000))
    ensures Render(DummyMessages(now)[0]).bubble.UserBubble?
    ensures Render(DummyMessages(now)[1]).bubble.BotBubble?
    ensures Render(DummyMessages(now)[3]).bubble.BotBubble?
  {
  }
}
