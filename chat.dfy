/** The AI assistant chat box. A submit appends the user's message, waits,
    then appends a canned reply: one of six sample answers, led by a topic
    sentence chosen from keywords in the question. Two buttons reset the
    conversation to its welcome message and append a random tip. Clock
    readings and Math.random() values are parameters. */
module Chat {
  import opened Numbers
  import opened Text
  import opened Options

  datatype Role = User | Assistant

  /** A message; the timestamp is the instant it was created, in ms. */
  datatype Message = Message(id: string, role: Role, content: string, timestamp: int)

  const WelcomeText: string :=
    "Hello! I'm your AI financial assistant. How can I help you with market analysis or investment advice today?"

  /** The six sample answers, by their topic. */
  datatype Answer = Trends | Allocation | FederalReserve | BitcoinLevels | MixedSignals | LongTerm

  const Answers: seq<Answer> := [Trends, Allocation, FederalReserve, BitcoinLevels, MixedSignals, LongTerm]

  function AnswerText(a: Answer): string {
    match a
    case Trends => "Based on recent market trends, technology stocks have shown resilience despite broader market volatility. Companies with strong balance sheets and consistent revenue growth are positioned well for the coming quarter."
    case Allocation => "When analyzing your portfolio allocation, consider diversifying across sectors to mitigate risk. The current economic indicators suggest maintaining a balanced approach between growth and value investments."
    case FederalReserve => "The recent Federal Reserve announcements may impact interest rates in the coming months. This could affect bond yields and potentially create opportunities in dividend-paying stocks as investors seek income alternatives."
    case BitcoinLevels => "Looking at technical indicators for Bitcoin, the current support levels appear to be holding. However, cryptocurrency markets remain highly volatile and should represent only a portion of a diversified portfolio based on your risk tolerance."
    case MixedSignals => "Market sentiment indicators are showing mixed signals currently. Institutional investors are cautiously optimistic, while retail sentiment has been more bearish. This divergence often precedes market adjustments."
    case LongTerm => "When considering long-term investment strategies, focus on companies with sustainable competitive advantages and strong management teams. These factors tend to outweigh short-term market fluctuations over extended periods."
  }

  const CryptoLead: string := "Cryptocurrency markets are showing increased volatility lately. "
  const StockLead: string := "The stock market has been responding to recent economic data. "
  const PortfolioLead: string :=
    "When evaluating your investment strategy, it's important to consider your time horizon and risk tolerance. "

  const Tips: seq<string> := [
    "Try asking about recent market trends in technology stocks.",
    "You can ask me to analyze your portfolio allocation strategy.",
    "Ask about the potential impact of recent economic indicators on your investments.",
    "I can help explain complex financial concepts in simple terms.",
    "Ask me to compare different investment vehicles like ETFs vs. individual stocks."
  ]

  const TipLead: string := "\U{1F4A1} Tip: "

  /** The message a new or reset conversation holds. */
  function Welcome(now: int): (m: Message)
    ensures m.id == "welcome" && m.role == Assistant && m.content == WelcomeText
  {
    Message("welcome", Assistant, WelcomeText, now)
  }

  // ---------------------------------------------------------------------
  // The reply
  // ---------------------------------------------------------------------

  /** The question, lower-cased, mentions one of two keywords. */
  predicate Mentions(input: string, a: string, b: string) {
    Contains(Lower(input), a) || Contains(Lower(input), b)
  }

  /** The topic sentence: crypto wins over stocks, stocks over portfolios,
      and a question on none of them gets none. */
  function Lead(input: string): (lead: string)
    ensures Mentions(input, "bitcoin", "crypto") ==> lead == CryptoLead
    ensures !Mentions(input, "bitcoin", "crypto") && Mentions(input, "stock", "nasdaq") ==> lead == StockLead
    ensures (!Mentions(input, "bitcoin", "crypto") && !Mentions(input, "stock", "nasdaq")
      && Mentions(input, "portfolio", "invest")) ==> lead == PortfolioLead
    ensures lead == "" <==>
      !Mentions(input, "bitcoin", "crypto") && !Mentions(input, "stock", "nasdaq") && !Mentions(input, "portfolio", "invest")
  {
    if Mentions(input, "bitcoin", "crypto") then CryptoLead
    else if Mentions(input, "stock", "nasdaq") then StockLead
    else if Mentions(input, "portfolio", "invest") then PortfolioLead
    else ""
  }

  /** Keyword matching ignores case: an upper-cased question gets the same lead. */
  lemma LeadIgnoresCase(input: string)
    ensures Lead(Upper(input)) == Lead(input)
  {
    LowerUpper(input);
  }

  /** The reply: the lead, then a sample answer picked by the draw. */
  function Reply(input: string, r: real): (reply: string)
    requires IsDraw(r)
    ensures exists k :: 0 <= k < |Answers| && reply == Lead(input) + AnswerText(Answers[k])
  {
    var k := RandomIndex(r, |Answers|);
    Lead(input) + AnswerText(Answers[k])
  }

  /** Each sample answer is reached by some draw. */
  lemma EverySampleReachable(input: string, k: nat)
    requires k < |Answers|
    ensures Reply(input, k as real / |Answers| as real) == Lead(input) + AnswerText(Answers[k])
  {
    RandomIndexReaches(k, |Answers|);
  }

  /** The tip message a draw selects. */
  function TipMessage(r: real, now: int): (m: Message)
    requires IsDraw(r)
    ensures m.role == Assistant && m.id == IntToString(now) && m.timestamp == now
    ensures exists k :: 0 <= k < |Tips| && m.content == TipLead + Tips[k]
  {
    Message(IntToString(now), Assistant, TipLead + Tips[RandomIndex(r, |Tips|)], now)
  }

  // ---------------------------------------------------------------------
  // The chat box
  // ---------------------------------------------------------------------

  class ChatBox {
    var messages: seq<Message>
    var input: string
    var isLoading: bool

    constructor(now: int)
      ensures messages == [Welcome(now)] && input == "" && !isLoading
    {
      messages := [Welcome(now)];
      input := "";
      isLoading := false;
    }

    /** Typing into the field. */
    method SetInput(s: string)
      modifies this
      ensures input == s && messages == old(messages) && isLoading == old(isLoading)
    {
      input := s;
    }

    /** The synchronous half of a submit: a blank input, or one sent while a
        reply is pending, is ignored; otherwise the user's message is
        appended, the field cleared and the box marked loading. `sent` is
        the text the pending reply will answer. */
    method BeginSubmit(now: int) returns (sent: Option<string>)
      modifies this
      ensures IsBlank(old(input)) || old(isLoading) ==>
        sent == None && messages == old(messages) && input == old(input) && isLoading == old(isLoading)
      ensures !IsBlank(old(input)) && !old(isLoading) ==>
        sent == Some(old(input))
        && messages == old(messages) + [Message(IntToString(now), User, old(input), now)]
        && input == "" && isLoading
    {
      if IsBlank(input) || isLoading {
        return None;
      }
      sent := Some(input);
      messages := messages + [Message(IntToString(now), User, input, now)];
      input := "";
      isLoading := true;
    }

    /** The half after the wait: the reply to `sent` is appended to whatever
        the conversation holds by then, and loading ends. */
    method FinishSubmit(sent: string, r: real, now: int)
      requires IsDraw(r)
      modifies this
      ensures messages == old(messages) + [Message(IntToString(now + 1), Assistant, Reply(sent, r), now)]
      ensures input == old(input) && !isLoading
    {
      messages := messages + [Message(IntToString(now + 1), Assistant, Reply(sent, r), now)];
      isLoading := false;
    }

    /** A whole submit with nothing in between: ignored, or exactly two
        messages appended, the user's raw input and then the reply to it. */
    method HandleSubmit(now: int, r: real, later: int)
      requires IsDraw(r)
      modifies this
      ensures IsBlank(old(input)) || old(isLoading) ==>
        messages == old(messages) && input == old(input) && isLoading == old(isLoading)
      ensures !IsBlank(old(input)) && !old(isLoading) ==>
        messages == old(messages) + [
          Message(IntToString(now), User, old(input), now),
          Message(IntToString(later + 1), Assistant, Reply(old(input), r), later)]
        && input == "" && !isLoading
    {
      var sent := BeginSubmit(now);
      if sent.Some? {
        FinishSubmit(sent.value, r, later);
      }
    }

    /** The reset button: only the welcome message is left. */
    method Reset(now: int)
      modifies this
      ensures messages == [Welcome(now)]
      ensures input == old(input) && isLoading == old(isLoading)
    {
      messages := [Welcome(now)];
    }

    /** The tip button: one tip appended, earlier messages untouched. */
    method AddTip(r: real, now: int)
      requires IsDraw(r)
      modifies this
      ensures messages == old(messages) + [TipMessage(r, now)]
      ensures input == old(input) && isLoading == old(isLoading)
    {
      messages := messages + [TipMessage(r, now)];
    }
  }
}
