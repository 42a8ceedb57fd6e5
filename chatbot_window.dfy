/**
 * The dashboard's assistant window
 * (components/dashboard/chatbot/chatbot-window.tsx): the visitor's message is
 * appended at once, and after a fixed delay a reply chosen by the first of
 * four keyword rules, or a fallback that quotes the input, is appended.
 *
 * Message ids come from the clock; the clock reading is a parameter of each
 * event. The delay is the same for every send, so replies arrive in the order
 * the messages were sent.
 */
module ChatbotWindow {
  import opened Wrappers
  import opened Text

  /** The canned replies, one per rule. */
  datatype RuleKind = NanotubeStrength | GraphenePartners | LithiumCompliance | Capabilities

  /**
   * A rule fires when, for every clause, the lower-cased input contains one
   * of the clause's words (a conjunction of disjunctions).
   */
  datatype Rule = Rule(clauses: seq<seq<string>>, kind: RuleKind)

  /** The rules in the order the reply handler tries them. */
  const Rules: seq<Rule> := [
    Rule([["strength"], ["carbon nanotube"]], NanotubeStrength),
    Rule([["partnership"], ["graphene"]], GraphenePartners),
    Rule([["compliance"], ["lithium"]], LithiumCompliance),
    Rule([["help", "hello", "hi"]], Capabilities)
  ]

  /** What the bot answers: a canned reply, or the fallback that quotes the input as typed. */
  datatype Reply = RuleReply(kind: RuleKind) | StillLearning(quoted: string)

  /** One suggested partner in the graphene reply. */
  datatype Suggestion = Suggestion(name: string, compatibility: nat)

  /** What a message shows: text, or the rendered list of suggested partners. */
  datatype Body = Plain(text: string) | PartnerList(intro: string, partners: seq<Suggestion>, outro: string)

  datatype Sender = User | Bot

  datatype Message = Message(id: int, sender: Sender, body: Body)

  const Greeting := "Hello! I am the TrueNorth AI Assistant. How can I help you with materials science, partnerships, or compliance today?"

  /** What each reply shows. */
  function Content(r: Reply): Body
  {
    match r
    case RuleReply(NanotubeStrength) =>
      Plain("For carbon nanotubes, tensile strength is highly dependent on defect density and chirality. Our CABAL AI Core can predict this with ~88% accuracy. Would you like to run a simulation?")
    case RuleReply(GraphenePartners) =>
      PartnerList(
        "I found 3 potential industry partners for graphene applications:",
        [Suggestion("AeroSpace Corp.", 82), Suggestion("ElectroDrive Systems", 75), Suggestion("FutureMaterials Ltd.", 68)],
        "Would you like more details on any of these?")
    case RuleReply(LithiumCompliance) =>
      Plain("For lithium, ensure you are following ISED reporting guidelines for critical minerals. The next Q2 report is due June 15th. I can help generate a draft.")
    case RuleReply(Capabilities) =>
      Plain("I can assist with: \n- Material property predictions \n- Finding partnership opportunities \n- Compliance guidance \n- Generating reports. What can I do for you?")
    case StillLearning(input) =>
      Plain(FallbackText(input))
  }

  /** The fallback reply: the input as typed, in double quotes, between two fixed sentences. */
  function FallbackText(input: string): string
  {
    "I'm still learning about " + Quoted(input) + ". Try asking about material properties, partnerships, or compliance."
  }

  function Quoted(input: string): string
  {
    "\"" + input + "\""
  }

  // -----------------------------------------------------------------------
  // The rule table as a specification

  predicate ClauseHolds(lower: string, clause: seq<string>)
  {
    exists w :: 0 <= w < |clause| && Contains(lower, clause[w])
  }

  predicate Fires(lower: string, rule: Rule)
  {
    forall c :: 0 <= c < |rule.clauses| ==> ClauseHolds(lower, rule.clauses[c])
  }

  /** The first rule in `rules` that fires. */
  function FirstRule(lower: string, rules: seq<Rule>): Option<RuleKind>
  {
    if rules == [] then None
    else if Fires(lower, rules[0]) then Some(rules[0].kind)
    else FirstRule(lower, rules[1..])
  }

  /** The reply to `input`: the first rule that fires on its lower-cased form, else the fallback. */
  function Respond(input: string): Reply
  {
    match FirstRule(ToLower(input), Rules)
    case Some(k) => RuleReply(k)
    case None => StillLearning(input)
  }

  /** The handler's `if`/`else` chain, which must agree with the rule table. */
  method ComposeReply(input: string) returns (reply: Reply)
    ensures reply == Respond(input)
  {
    var lowerInput := ToLower(input);
    RuleTable(lowerInput);
    if Contains(lowerInput, "strength") && Contains(lowerInput, "carbon nanotube") {
      reply := RuleReply(NanotubeStrength);
    } else if Contains(lowerInput, "partnership") && Contains(lowerInput, "graphene") {
      reply := RuleReply(GraphenePartners);
    } else if Contains(lowerInput, "compliance") && Contains(lowerInput, "lithium") {
      reply := RuleReply(LithiumCompliance);
    } else if Contains(lowerInput, "help") || Contains(lowerInput, "hello") || Contains(lowerInput, "hi") {
      reply := RuleReply(Capabilities);
    } else {
      reply := StillLearning(input);
    }
  }

  /** The bot's message for `sent`, stamped one past the clock reading. */
  method BotMessage(sent: string, now: int) returns (m: Message)
    ensures m == Message(now + 1, Bot, Content(Respond(sent)))
  {
    var reply := ComposeReply(sent);
    m := Message(now + 1, Bot, Content(reply));
  }

  // -----------------------------------------------------------------------
  // The window

  class ChatWindow {
    var messages: seq<Message>
    var input: string
    var isLoading: bool
    /** The inputs whose reply timer is still running, oldest first. */
    var pending: seq<string>

    constructor()
      ensures messages == [Message(1, Bot, Plain(Greeting))]
      ensures input == "" && !isLoading && pending == []
    {
      messages := [Message(1, Bot, Plain(Greeting))];
      input := "";
      isLoading := false;
      pending := [];
    }

    method SetInput(value: string)
      modifies this
      ensures input == value
      ensures messages == old(messages) && isLoading == old(isLoading) && pending == old(pending)
    {
      input := value;
    }

    /**
     * `handleSend` at clock reading `now`: blank input does nothing;
     * otherwise the visitor's message is appended, the box is cleared, the
     * loading indicator is shown and the reply timer is started.
     */
    method HandleSend(now: int)
      modifies this
      ensures IsBlank(old(input)) ==>
                messages == old(messages) && input == old(input)
                && isLoading == old(isLoading) && pending == old(pending)
      ensures !IsBlank(old(input)) ==>
                && messages == old(messages) + [Message(now, User, Plain(old(input)))]
                && input == ""
                && isLoading
                && pending == old(pending) + [old(input)]
    {
      if Trim(input) == "" {
        return;
      }
      var sent := input;
      messages := messages + [Message(now, User, Plain(sent))];
      input := "";
      isLoading := true;
      pending := pending + [sent];
    }

    /** The oldest reply timer fires at clock reading `now`: the reply to that input is appended. */
    method BotTimerElapsed(now: int)
      requires pending != []
      modifies this
      ensures messages == old(messages) + [Message(now + 1, Bot, Content(Respond(old(pending)[0])))]
      ensures pending == old(pending)[1..]
      ensures !isLoading && input == old(input)
    {
      var answer := BotMessage(pending[0], now);
      messages := messages + [answer];
      isLoading := false;
      pending := pending[1..];
    }
  }

  // -----------------------------------------------------------------------
  // Lemmas

  /** The rule table, read rule by rule: the first rule that fires decides, in the handler's order. */
  lemma RuleTable(lower: string)
    ensures FirstRule(lower, Rules) ==
      if Contains(lower, "strength") && Contains(lower, "carbon nanotube") then Some(NanotubeStrength)
      else if Contains(lower, "partnership") && Contains(lower, "graphene") then Some(GraphenePartners)
      else if Contains(lower, "compliance") && Contains(lower, "lithium") then Some(LithiumCompliance)
      else if Contains(lower, "help") || Contains(lower, "hello") || Contains(lower, "hi") then Some(Capabilities)
      else None
  {
    var r := Rules;
    assert r[0] == Rule([["strength"], ["carbon nanotube"]], NanotubeStrength);
    assert r[1..][0] == Rule([["partnership"], ["graphene"]], GraphenePartners);
    assert r[1..][1..][0] == Rule([["compliance"], ["lithium"]], LithiumCompliance);
    assert r[1..][1..][1..][0] == Rule([["help", "hello", "hi"]], Capabilities);
    TwoWordRule(lower, "strength", "carbon nanotube", NanotubeStrength);
    TwoWordRule(lower, "partnership", "graphene", GraphenePartners);
    TwoWordRule(lower, "compliance", "lithium", LithiumCompliance);
    GreetingRule(lower);
    var r1, r2, r3 := r[1..], r[1..][1..], r[1..][1..][1..];
    assert FirstRule(lower, r3[1..]) == None;
    assert FirstRule(lower, r3) == if Fires(lower, r3[0]) then Some(Capabilities) else None;
    assert FirstRule(lower, r2) == if Fires(lower, r2[0]) then Some(LithiumCompliance) else FirstRule(lower, r3);
    assert FirstRule(lower, r1) == if Fires(lower, r1[0]) then Some(GraphenePartners) else FirstRule(lower, r2);
  }

  /** A rule of two one-word clauses fires exactly when both words occur. */
  lemma TwoWordRule(lower: string, a: string, b: string, k: RuleKind)
    ensures Fires(lower, Rule([[a], [b]], k)) <==> Contains(lower, a) && Contains(lower, b)
  {
    var cs := [[a], [b]];
    assert ClauseHolds(lower, cs[0]) <==> Contains(lower, a) by {
      if Contains(lower, a) { assert Contains(lower, cs[0][0]); }
    }
    assert ClauseHolds(lower, cs[1]) <==> Contains(lower, b) by {
      if Contains(lower, b) { assert Contains(lower, cs[1][0]); }
    }
  }

  /** The greeting rule fires exactly when "help", "hello" or "hi" occurs. */
  lemma GreetingRule(lower: string)
    ensures Fires(lower, Rule([["help", "hello", "hi"]], Capabilities))
            <==> Contains(lower, "help") || Contains(lower, "hello") || Contains(lower, "hi")
  {
    var ws: seq<string> := ["help", "hello", "hi"];
    var cs := [ws];
    if Contains(lower, "help") { assert Contains(lower, ws[0]); }
    if Contains(lower, "hello") { assert Contains(lower, ws[1]); }
    if Contains(lower, "hi") { assert Contains(lower, ws[2]); }
    if Fires(lower, Rule(cs, Capabilities)) {
      assert ClauseHolds(lower, cs[0]);
    }
  }

  /** Only the lower-cased input decides which rule fires. */
  lemma RulesIgnoreCase(input: string)
    ensures Respond(ToLower(input)).RuleReply? <==> Respond(input).RuleReply?
    ensures Respond(input).RuleReply? ==> Respond(ToLower(input)) == Respond(input)
  {
    ToLowerIdempotent(input);
  }

  /** The fallback quotes the input exactly as typed, not lower-cased. */
  lemma FallbackQuotesInput(input: string)
    requires FirstRule(ToLower(input), Rules) == None
    ensures Content(Respond(input)) == Plain(FallbackText(input))
    ensures Contains(Content(Respond(input)).text, "\"" + input + "\"")
  {
    ContainsInfix("I'm still learning about ", Quoted(input), ". Try asking about material properties, partnerships, or compliance.");
  }

  /** "hi" is a plain substring test: "what is this" gets the capabilities reply. */
  lemma WhatIsThisGetsHelp()
    ensures Respond("what is this") == RuleReply(Capabilities)
  {
    WhatIsThisLowered();
    WhatIsThisHasHi();
    WhatIsThisLacksRuleWords();
    RuleTable("what is this");
  }

  lemma WhatIsThisLowered()
    ensures ToLower("what is this") == "what is this"
  {
    LowerId("what is this");
  }

  lemma WhatIsThisHasHi()
    ensures Contains("what is this", "hi")
  {
    ContainsAt("what is this", "hi", 9);
  }

  /**
   * The three rule words are ruled out one lemma each: each proof unfolds
   * `Contains` over the literal on its own, and the three together in one
   * proof cost the solver several times as much.
   */
  lemma WhatIsThisLacksRuleWords()
    ensures !Contains("what is this", "strength")
    ensures !Contains("what is this", "partnership")
    ensures !Contains("what is this", "compliance")
  {
    WhatIsThisLacksStrength();
    WhatIsThisLacksPartnership();
    WhatIsThisLacksCompliance();
  }

  lemma WhatIsThisLacksStrength()
    ensures !Contains("what is this", "strength")
  {
    MissingChar("what is this", "strength", 'g');
  }

  lemma WhatIsThisLacksPartnership()
    ensures !Contains("what is this", "partnership")
  {
    MissingChar("what is this", "partnership", 'p');
  }

  lemma WhatIsThisLacksCompliance()
    ensures !Contains("what is this", "compliance")
  {
    MissingChar("what is this", "compliance", 'c');
  }
}
