/** The wallet's record types, the balance total and the fixture data
    (StickerSmash/utils/walletData.ts). Amounts are exact reals, not
    IEEE doubles. */
module Wallet {
  import opened Optional

  datatype Token = Token(
    id: string,
    name: string,
    symbol: string,
    logo: string,
    balance: real,
    value: real,
    change: real)

  /** One chat message. The three payment fields are optional in the source;
      `isPayment` being absent is distinct from it being false. */
  datatype ChatMessage = ChatMessage(
    id: string,
    text: string,
    isUser: bool,
    timestamp: int,
    isPayment: Option<bool>,
    paymentAmount: Option<real>,
    paymentSymbol: Option<string>)

  /** A message that carries no payment fields at all. */
  function PlainMessage(id: string, text: string, isUser: bool, timestamp: int): ChatMessage {
    ChatMessage(id, text, isUser, timestamp, None, None, None)
  }

  // ---------------------------------------------------------------------------
  // Balance aggregation

  /** The running sum of `reduce((sum, token) => sum + token.value, …)`. */
  function FoldValues(sum: real, tokens: seq<Token>): real
    decreases |tokens|
  {
    if tokens == [] then sum else FoldValues(sum + tokens[0].value, tokens[1..])
  }

  /** Reference definition: the sum of the `value` fields. */
  function SumValues(tokens: seq<Token>): real {
    if tokens == [] then 0.0 else tokens[0].value + SumValues(tokens[1..])
  }

  lemma {:induction false} FoldIsSum(sum: real, tokens: seq<Token>)
    ensures FoldValues(sum, tokens) == sum + SumValues(tokens)
    decreases |tokens|
  {
    if tokens != [] {
      FoldIsSum(sum + tokens[0].value, tokens[1..]);
    }
  }

  /** `getTotalBalance`: a left fold from 0 over the `value` fields. */
  function TotalBalance(tokens: seq<Token>): (total: real)
    ensures total == SumValues(tokens)
    ensures tokens == [] ==> total == 0.0
  {
    FoldIsSum(0.0, tokens);
    FoldValues(0.0, tokens)
  }

  lemma {:induction false} SumValuesAppend(a: seq<Token>, b: seq<Token>)
    ensures SumValues(a + b) == SumValues(a) + SumValues(b)
    decreases |a|
  {
    if a == [] {
      assert a + b == b;
    } else {
      assert (a + b)[1..] == a[1..] + b;
      SumValuesAppend(a[1..], b);
    }
  }

  /** The total of a concatenation is the sum of the two totals. */
  lemma TotalBalanceAppend(a: seq<Token>, b: seq<Token>)
    ensures TotalBalance(a + b) == TotalBalance(a) + TotalBalance(b)
  {
    SumValuesAppend(a, b);
  }

  /** Taking one token out of the list takes its value out of the sum. */
  lemma SumValuesRemove(b: seq<Token>, i: nat)
    requires i < |b|
    ensures SumValues(b) == b[i].value + SumValues(b[..i] + b[i + 1..])
  {
    var pre, post := b[..i], b[i + 1..];
    assert b == (pre + [b[i]]) + post;
    SumValuesAppend(pre + [b[i]], post);
    SumValuesAppend(pre, [b[i]]);
    assert SumValues([b[i]]) == b[i].value + SumValues([]);
    SumValuesAppend(pre, post);
  }

  lemma MultisetRemove(b: seq<Token>, i: nat)
    requires i < |b|
    ensures multiset(b[..i] + b[i + 1..]) == multiset(b) - multiset{b[i]}
  {
    assert b == b[..i] + [b[i]] + b[i + 1..];
  }

  /** Finds the first token of `a` in its permutation `b` and takes it out. */
  lemma MatchFirst(a: seq<Token>, b: seq<Token>) returns (rest: seq<Token>)
    requires a != [] && multiset(a) == multiset(b)
    ensures multiset(a[1..]) == multiset(rest)
    ensures SumValues(b) == a[0].value + SumValues(rest)
  {
    assert a[0] in multiset(b) by { assert a[0] in multiset(a); }
    var i :| 0 <= i < |b| && b[i] == a[0];
    rest := b[..i] + b[i + 1..];
    SumValuesRemove(b, i);
    MultisetRemove(b, i);
    assert a == [a[0]] + a[1..];
    assert multiset(a) == multiset{a[0]} + multiset(a[1..]);
  }

  lemma {:induction false} SumValuesPermutation(a: seq<Token>, b: seq<Token>)
    requires multiset(a) == multiset(b)
    ensures SumValues(a) == SumValues(b)
    decreases |a|
  {
    if a == [] {
      assert |b| == |multiset(b)| == 0;
    } else {
      var rest := MatchFirst(a, b);
      SumValuesPermutation(a[1..], rest);
    }
  }

  /** Reordering the token list does not change the total. */
  lemma TotalBalancePermutation(a: seq<Token>, b: seq<Token>)
    requires multiset(a) == multiset(b)
    ensures TotalBalance(a) == TotalBalance(b)
  {
    SumValuesPermutation(a, b);
  }

  /** Only `value` is read: lists that agree on every `value` have equal totals,
      whatever their names, balances, changes or logos. */
  lemma {:induction false} TotalBalanceReadsOnlyValue(a: seq<Token>, b: seq<Token>)
    requires |a| == |b|
    requires forall k :: 0 <= k < |a| ==> a[k].value == b[k].value
    ensures TotalBalance(a) == TotalBalance(b)
    decreases |a|
  {
    if a != [] {
      TotalBalanceReadsOnlyValue(a[1..], b[1..]);
    }
  }

  /** With no negative value, the total is non-negative and bounds each value. */
  lemma {:induction false} TotalBalanceBoundsEachValue(tokens: seq<Token>)
    requires forall k :: 0 <= k < |tokens| ==> tokens[k].value >= 0.0
    ensures TotalBalance(tokens) >= 0.0
    ensures forall k :: 0 <= k < |tokens| ==> TotalBalance(tokens) >= tokens[k].value
    decreases |tokens|
  {
    if tokens != [] {
      TotalBalanceBoundsEachValue(tokens[1..]);
      forall k | 0 <= k < |tokens|
        ensures TotalBalance(tokens) >= tokens[k].value
      {
        if k > 0 {
          assert tokens[k] == tokens[1..][k - 1];
        }
      }
    }
  }

  // ---------------------------------------------------------------------------
  // Fixtures. The source stamps fixture messages with `Date.now()` minus an
  // offset at load time; here that clock reading is the parameter `now`.

  const DummyTokens: seq<Token> := [
    Token("1", "Bitcoin", "BTC", "https://cryptologos.cc/logos/bitcoin-btc-logo.png", 0.5, 20000.0, 2.5),
    Token("2", "Solana", "SOL", "https://cryptologos.cc/logos/solana-sol-logo.png", 15.7, 1500.0, -1.2),
    Token("3", "Ethereum", "ETH", "https://cryptologos.cc/logos/ethereum-eth-logo.png", 2.3, 4600.0, 0.8),
    Token("4", "USD Coin", "USDC", "https://cryptologos.cc/logos/usd-coin-usdc-logo.png", 1000.0, 1000.0, 0.01)
  ]

  function DummyMessages(now: int): seq<ChatMessage> {
    [ PlainMessage("1", "Hey Sarah, sending you some ETH for the project", true, now - 3600000),
      PlainMessage("2", "Perfect timing! I was just about to ask", false, now - 3500000),
      ChatMessage("3", "Payment of 0.5 ETH sent to Sarah", false, now - 3400000,
                  Some(true), Some(0.5), Some("ETH")),
      PlainMessage("4", "Thanks! Got it \U{00F0}\U{0178}\U{017D}\U{2030}", false, now - 3300000) ]
  }

  const WelcomeText: string :=
    "Welcome to Easy! I'm your AI assistant. How can I help you with your crypto today?"

  function DummyBotMessages(now: int): seq<ChatMessage> {
    [ PlainMessage("1", WelcomeText, false, now - 3600000) ]
  }

  /** The dashboard's fixture tokens total 27100. */
  lemma DummyTokensTotal()
    ensures TotalBalance(DummyTokens) == 27100.0
  {
    assert DummyTokens[1..][1..][1..][1..] == [];
  }

  /** The contact fixture holds exactly one payment message, 0.5 ETH; the
      assistant fixture is a single non-user message. */
  lemma DummyFixtures(now: int)
    ensures forall k :: 0 <= k < |DummyMessages(now)| ==>
      (DummyMessages(now)[k].isPayment == Some(true) <==> k == 2)
    ensures DummyMessages(now)[2].paymentAmount == Some(0.5)
    ensures DummyMessages(now)[2].paymentSymbol == Some("ETH")
    ensures |DummyBotMessages(now)| == 1 && !DummyBotMessages(now)[0].isUser
  {
  }
}
