/**
 * The floating chat widget of the public site (components/Chatbot.tsx): a
 * fixed question-and-answer table searched in declaration order, a few
 * pattern replies after it, and the widget state that appends the visitor's
 * message at once and the bot's reply after a typing delay.
 *
 * The greeting is picked at random from three; the pick is a parameter. The
 * typing delay is random too, so replies may arrive in any order: which
 * pending reply arrives is a parameter of the event that delivers it.
 */
module Chatbot {
  import opened Wrappers
  import opened Text

  /** The categories of the question-and-answer table, in declaration order. */
  datatype Topic =
    | Services | Ai | Sustainability | Contact | Demo
    | Industries | Pricing | Data | Integration | Features

  const Topics: seq<Topic> :=
    [Services, Ai, Sustainability, Contact, Demo, Industries, Pricing, Data, Integration, Features]

  const ServicesKeywords: seq<string> := ["services", "offer", "provide", "what do you do", "solutions", "help", "capabilities"]
  const AiKeywords: seq<string> := ["ai", "artificial intelligence", "machine learning", "agents", "algorithm", "model"]
  const SustainabilityKeywords: seq<string> := ["sustainable", "sustainability", "environment", "green", "eco", "carbon", "emissions"]
  const ContactKeywords: seq<string> := ["contact", "reach", "email", "phone", "talk", "speak", "get in touch", "support"]
  const DemoKeywords: seq<string> := ["demo", "trial", "try", "test", "free", "poc", "pilot", "proof of concept"]
  const IndustriesKeywords: seq<string> := ["industries", "sectors", "who uses", "clients", "applications", "use cases", "customers"]
  const PricingKeywords: seq<string> := ["price", "pricing", "cost", "how much", "plans", "packages", "subscription", "payment"]
  const DataKeywords: seq<string> := ["data", "security", "privacy", "safe", "protect", "encryption", "compliance"]
  const IntegrationKeywords: seq<string> := ["integration", "api", "connect", "integrate", "erp", "systems", "software"]
  const FeaturesKeywords: seq<string> := ["features", "benefits", "advantages", "why choose", "unique"]

  /** The keywords of a category; each one is matched as a substring of the lower-cased input. */
  function Keywords(t: Topic): seq<string>
  {
    match t
    case Services => ServicesKeywords
    case Ai => AiKeywords
    case Sustainability => SustainabilityKeywords
    case Contact => ContactKeywords
    case Demo => DemoKeywords
    case Industries => IndustriesKeywords
    case Pricing => PricingKeywords
    case Data => DataKeywords
    case Integration => IntegrationKeywords
    case Features => FeaturesKeywords
  }

  /** Which reply the bot gives. */
  datatype Answer =
    | TopicAnswer(topic: Topic)
    | GreetingAnswer(index: nat)
    | ThanksAnswer
    | FarewellAnswer
    | IdentityAnswer
    | DefaultAnswer

  /** The text of each reply. */
  function Say(a: Answer): string
  {
    match a
    case TopicAnswer(Services) =>
      "TrueNorth Materials provides AI-driven materials intelligence solutions. We transform sensor data and big data into actionable insights for sustainable innovation.\n\n\U{1F52C} **Our Focus:**\n\U{2022} Materials data analytics\n\U{2022} Sensor integration and monitoring\n\U{2022} AI-powered analysis\n\U{2022} Sustainable materials innovation\n\n2025 is the year of AI agents putting vast materials data to work. We're here to help you harness this potential.\n\nWould you like to learn more about any specific aspect of our services?"
    case TopicAnswer(Ai) =>
      "\U{1F916} **Our AI Technology:**\n\nTrueNorth Materials leverages advanced AI and machine learning to transform materials data into actionable intelligence.\n\n\U{2022} **AI Agents** - Putting vast materials data to work\n\U{2022} **Big Data Processing** - Turning sensor data into insights\n\U{2022} **Predictive Analytics** - Forecasting material behavior\n\U{2022} **Intelligent Analysis** - Extracting meaningful patterns\n\n2025 is the year of AI agents revolutionizing materials innovation. Our platform is at the forefront of this transformation.\n\nFor more details about our specific AI capabilities, contact us at jason.deacon@truenorthmaterials.com"
    case TopicAnswer(Sustainability) =>
      "\U{1F331} **Sustainability Focus:**\n\nTrueNorth Materials is committed to driving sustainable innovation in the materials industry.\n\nOur AI-driven platform helps organizations:\n\U{2022} Make data-driven decisions for sustainable materials\n\U{2022} Transform sensor and big data into environmental insights\n\U{2022} Support sustainable innovation initiatives\n\U{2022} Optimize material selection for environmental impact\n\nWe believe that intelligent use of materials data is key to building a more sustainable future.\n\nTo learn more about how we can support your sustainability goals, contact us at jason.deacon@truenorthmaterials.com"
    case TopicAnswer(Contact) =>
      "\U{1F4E7} **Get in Touch:**\n\nYou can reach us at:\n\n\U{1F4E7} jason.deacon@truenorthmaterials.com\n\nWe'd love to hear from you about how our AI-driven materials intelligence platform can help transform your business.\n\nFeel free to email us with any questions about our services, technology, or to schedule a discussion about your specific needs."
    case TopicAnswer(Demo) =>
      "\U{1F680} **See TrueNorth in Action:**\n\nInterested in seeing how our AI-driven materials intelligence platform can transform your business?\n\nWe'd be happy to arrange a demonstration tailored to your specific needs and use cases.\n\n\U{1F4E7} Contact us at: jason.deacon@truenorthmaterials.com\n\nLet us know about your materials challenges and we'll show you how our platform can help!"
    case TopicAnswer(Industries) =>
      "\U{1F3ED} **Industries & Applications:**\n\nTrueNorth Materials' AI-driven platform can benefit organizations across various sectors working with materials data and innovation.\n\nOur platform is designed to help any industry that:\n\U{2022} Works with materials and sensors\n\U{2022} Needs data-driven insights\n\U{2022} Focuses on sustainable innovation\n\U{2022} Requires intelligent materials analysis\n\nWhether you're in manufacturing, construction, electronics, energy, or any other materials-intensive industry, our platform can transform your data into actionable intelligence.\n\nTo discuss your specific industry needs, reach out to jason.deacon@truenorthmaterials.com"
    case TopicAnswer(Pricing) =>
      "\U{1F4B0} **Pricing Information:**\n\nFor pricing information tailored to your specific needs and use case, please reach out to us at:\n\n\U{1F4E7} jason.deacon@truenorthmaterials.com\n\nWe'll be happy to discuss how our AI-driven materials intelligence platform can meet your requirements and provide you with relevant pricing details."
    case TopicAnswer(Data) =>
      "\U{1F512} **Data Security:**\n\nAt TrueNorth Materials, we take data security seriously. Our platform is designed with security in mind to protect your valuable materials data and insights.\n\nWe implement industry-standard security practices to ensure your data remains safe and confidential.\n\nFor specific questions about our security measures and data handling practices, please contact us at jason.deacon@truenorthmaterials.com"
    case TopicAnswer(Integration) =>
      "\U{1F517} **Platform Integration:**\n\nOur AI-driven materials intelligence platform is designed to work with your existing systems and data sources.\n\nWe can help you:\n\U{2022} Connect sensor networks\n\U{2022} Integrate materials databases\n\U{2022} Work with your existing data infrastructure\n\nFor details about specific integration capabilities and how we can work with your systems, contact us at jason.deacon@truenorthmaterials.com"
    case TopicAnswer(Features) =>
      "\U{2B50} **Why TrueNorth Materials:**\n\n\U{2022} **AI-Driven Intelligence** - Transform sensors and big data into actionable insights\n\U{2022} **Sustainable Innovation** - Focus on materials solutions for a better future\n\U{2022} **2025 Vision** - Leading the year of AI agents in materials innovation\n\U{2022} **Data-Driven Decisions** - Make informed choices based on real intelligence\n\nWe're transforming how organizations work with materials data.\n\nTo learn more about how TrueNorth can benefit your organization, reach out to jason.deacon@truenorthmaterials.com"
    case GreetingAnswer(i) =>
      if i == 0 then
        "Hello! Welcome to TrueNorth Materials. How can I assist you today?"
      else if i == 1 then
        "Hi there! I'm here to help you discover how our AI-driven materials intelligence can transform your business. What would you like to know?"
      else
        "Greetings! Ready to explore the future of materials innovation? Ask me anything!"
    case ThanksAnswer =>
      "You're very welcome! Is there anything else about TrueNorth Materials I can help you with?"
    case FarewellAnswer =>
      "Thank you for your interest in TrueNorth Materials! Feel free to return anytime you have questions. Have a wonderful day! \U{1F44B}"
    case IdentityAnswer =>
      "I'm the TrueNorth Materials virtual assistant! I'm here to help you learn about our AI-driven materials intelligence platform that transforms sensors and big data into actionable intelligence for sustainable innovation. Feel free to ask me about our services, technology, or how to get in touch!"
    case DefaultAnswer =>
      "I'm not quite sure about that specific question. Here are some topics I can help you with:\n\n\U{2022} \U{1F52C} **Services** - Our AI solutions and capabilities\n\U{2022} \U{1F916} **Technology** - How our AI works\n\U{2022} \U{1F331} **Sustainability** - Environmental impact solutions\n\U{2022} \U{1F3ED} **Industries** - Sectors we serve\n\U{2022} \U{1F4B0} **Pricing** - Plans and packages\n\U{2022} \U{1F512} **Security** - Data protection measures\n\U{2022} \U{1F680} **Demo** - Try our platform\n\U{2022} \U{1F4DE} **Contact** - Get in touch\n\nWhat would you like to explore?"
  }

  const GreetingCount := 3

  const Welcome := "Hello! I'm here to help you learn about TrueNorth Materials. What would you like to know?"

  // -----------------------------------------------------------------------
  // The reply rule

  /** Some keyword of `t` occurs in `lower`. */
  predicate Mentions(lower: string, t: Topic)
  {
    exists k :: 0 <= k < |Keywords(t)| && Contains(lower, Keywords(t)[k])
  }

  /** The first of `topics` that `lower` mentions. */
  function FirstMentioned(lower: string, topics: seq<Topic>): Option<Topic>
  {
    if topics == [] then None
    else if AnyKeyword(lower, Keywords(topics[0])) then Some(topics[0])
    else FirstMentioned(lower, topics[1..])
  }

  predicate AnyKeyword(lower: string, keywords: seq<string>)
  {
    keywords != [] && (Contains(lower, keywords[0]) || AnyKeyword(lower, keywords[1..]))
  }

  const GreetingWords: seq<string> :=
    ["hi", "hello", "hey", "greetings", "good morning", "good afternoon", "good evening"]

  /** `/^(hi|hello|hey|greetings|good morning|good afternoon|good evening)/` */
  predicate StartsWithGreeting(lower: string)
  {
    exists k :: 0 <= k < |GreetingWords| && IsPrefix(GreetingWords[k], lower)
  }

  /** `/thank|thanks/` */
  predicate SaysThanks(lower: string)
  {
    Contains(lower, "thank") || Contains(lower, "thanks")
  }

  /** `/bye|goodbye|see you|exit|quit/` */
  predicate SaysGoodbye(lower: string)
  {
    Contains(lower, "bye") || Contains(lower, "goodbye") || Contains(lower, "see you")
    || Contains(lower, "exit") || Contains(lower, "quit")
  }

  /** `/who are you|what are you/` */
  predicate AsksIdentity(lower: string)
  {
    Contains(lower, "who are you") || Contains(lower, "what are you")
  }

  /** The reply `findBestResponse` chooses; `pick` is the random greeting index. */
  function Classify(input: string, pick: nat): Answer
  {
    var lower := ToLower(input);
    match FirstMentioned(lower, Topics)
    case Some(t) => TopicAnswer(t)
    case None =>
      if StartsWithGreeting(lower) then GreetingAnswer(pick)
      else if SaysThanks(lower) then ThanksAnswer
      else if SaysGoodbye(lower) then FarewellAnswer
      else if AsksIdentity(lower) then IdentityAnswer
      else DefaultAnswer
  }

  /**
   * `findBestResponse`: each category in turn, each of its keywords in turn,
   * the first one found in the lower-cased input decides; then the greeting,
   * thanks, farewell and identity patterns; then the default text.
   */
  method FindBestResponse(input: string, pick: nat) returns (response: string)
    requires pick < GreetingCount
    ensures response == Say(Classify(input, pick))
  {
    var answer := ChooseAnswer(input, pick);
    response := Say(answer);
  }

  /** The search of `findBestResponse`, up to the choice of text. */
  method ChooseAnswer(input: string, pick: nat) returns (answer: Answer)
    ensures answer == Classify(input, pick)
  {
    var lowerInput := ToLower(input);
    var c := 0;
    while c < |Topics|
      invariant 0 <= c <= |Topics|
      invariant FirstMentioned(lowerInput, Topics) == FirstMentioned(lowerInput, Topics[c..])
    {
      var keywords := Keywords(Topics[c]);
      var k := 0;
      while k < |keywords|
        invariant 0 <= k <= |keywords|
        invariant AnyKeyword(lowerInput, keywords) == AnyKeyword(lowerInput, keywords[k..])
      {
        if Contains(lowerInput, keywords[k]) {
          assert AnyKeyword(lowerInput, keywords[k..]);
          return TopicAnswer(Topics[c]);
        }
        assert keywords[k..][1..] == keywords[k + 1..];
        k := k + 1;
      }
      assert Topics[c..][1..] == Topics[c + 1..];
      c := c + 1;
    }
    if StartsWithGreeting(lowerInput) {
      return GreetingAnswer(pick);
    }
    if SaysThanks(lowerInput) {
      return ThanksAnswer;
    }
    if SaysGoodbye(lowerInput) {
      return FarewellAnswer;
    }
    if AsksIdentity(lowerInput) {
      return IdentityAnswer;
    }
    return DefaultAnswer;
  }

  // -----------------------------------------------------------------------
  // The widget

  datatype Sender = User | Bot

  /** A chat message; its timestamp is not modelled. */
  datatype Message = Message(id: int, text: string, sender: Sender)

  /** A reply waiting for its typing delay: the id and the input captured when the visitor sent. */
  datatype PendingReply = PendingReply(id: int, input: string)

  class ChatWidget {
    var messages: seq<Message>
    var inputValue: string
    var isTyping: bool
    /** The replies whose typing delay has not yet run out. */
    var pending: seq<PendingReply>

    constructor()
      ensures messages == [Message(1, Welcome, Bot)]
      ensures inputValue == "" && !isTyping && pending == []
    {
      messages := [Message(1, Welcome, Bot)];
      inputValue := "";
      isTyping := false;
      pending := [];
    }

    /** The input box's change handler. */
    method SetInput(value: string)
      modifies this
      ensures inputValue == value
      ensures messages == old(messages) && isTyping == old(isTyping) && pending == old(pending)
    {
      inputValue := value;
    }

    /**
     * `handleSendMessage`: blank input does nothing; otherwise the visitor's
     * message is appended with id `messages.length + 1`, the box is cleared,
     * the typing indicator is shown, and a reply with id `messages.length + 2`
     * (the length before this send) is scheduled for the text just sent.
     */
    method HandleSendMessage()
      modifies this
      ensures IsBlank(old(inputValue)) ==>
                messages == old(messages) && inputValue == old(inputValue)
                && isTyping == old(isTyping) && pending == old(pending)
      ensures !IsBlank(old(inputValue)) ==>
                && messages == old(messages) + [Message(|old(messages)| + 1, old(inputValue), User)]
                && inputValue == ""
                && isTyping
                && pending == old(pending) + [PendingReply(|old(messages)| + 2, old(inputValue))]
    {
      if Trim(inputValue) == "" {
        return;
      }
      var sent := inputValue;
      var count := |messages|;
      messages := messages + [Message(count + 1, sent, User)];
      inputValue := "";
      isTyping := true;
      pending := pending + [PendingReply(count + 2, sent)];
    }

    /**
     * The typing delay of pending reply `k` runs out (delays are random, so
     * any pending reply may come first): the bot's answer to the captured
     * input is appended and the typing indicator is hidden. `pick` is the
     * random greeting index.
     */
    method TypingDelayElapsed(k: nat, pick: nat)
      requires k < |pending| && pick < GreetingCount
      modifies this
      ensures messages == old(messages) + [Message(old(pending)[k].id, Say(Classify(old(pending)[k].input, pick)), Bot)]
      ensures pending == old(pending)[..k] + old(pending)[k + 1..]
      ensures !isTyping && inputValue == old(inputValue)
    {
      var reply := pending[k];
      var text := FindBestResponse(reply.input, pick);
      messages := messages + [Message(reply.id, text, Bot)];
      isTyping := false;
      pending := pending[..k] + pending[k + 1..];
    }
  }

  // -----------------------------------------------------------------------
  // Lemmas

  lemma {:induction false} AnyKeywordIff(lower: string, keywords: seq<string>)
    ensures AnyKeyword(lower, keywords) <==> exists k :: 0 <= k < |keywords| && Contains(lower, keywords[k])
    decreases |keywords|
  {
    if keywords != [] {
      AnyKeywordIff(lower, keywords[1..]);
      if exists k :: 0 <= k < |keywords| && Contains(lower, keywords[k]) {
        var k :| 0 <= k < |keywords| && Contains(lower, keywords[k]);
        if k > 0 {
          assert keywords[1..][k - 1] == keywords[k];
        }
      }
      if exists k :: 0 <= k < |keywords[1..]| && Contains(lower, keywords[1..][k]) {
        var k :| 0 <= k < |keywords[1..]| && Contains(lower, keywords[1..][k]);
        assert keywords[k + 1] == keywords[1..][k];
      }
    }
  }

  /** The category found is the first one, in declaration order, that the input mentions. */
  lemma {:induction false} FirstMentionedAt(lower: string, topics: seq<Topic>, i: nat)
    requires i < |topics| && Mentions(lower, topics[i])
    requires forall j :: 0 <= j < i ==> !Mentions(lower, topics[j])
    ensures FirstMentioned(lower, topics) == Some(topics[i])
    decreases i
  {
    FirstMentionedStep(lower, topics);
    if i > 0 {
      forall j | 0 <= j < i - 1 ensures !Mentions(lower, topics[1..][j]) {
        assert topics[1..][j] == topics[j + 1];
      }
      FirstMentionedAt(lower, topics[1..], i - 1);
    }
  }

  /** One step of the search: the head category if mentioned, else the search of the rest. */
  lemma FirstMentionedStep(lower: string, topics: seq<Topic>)
    requires topics != []
    ensures FirstMentioned(lower, topics) ==
              if Mentions(lower, topics[0]) then Some(topics[0]) else FirstMentioned(lower, topics[1..])
  {
    AnyKeywordIff(lower, Keywords(topics[0]));
  }

  /** No category is found exactly when the input mentions none of them. */
  lemma {:induction false} NothingMentioned(lower: string, topics: seq<Topic>)
    ensures FirstMentioned(lower, topics) == None <==> forall j :: 0 <= j < |topics| ==> !Mentions(lower, topics[j])
    decreases |topics|
  {
    if topics != [] {
      AnyKeywordIff(lower, Keywords(topics[0]));
      NothingMentioned(lower, topics[1..]);
      if forall j :: 0 <= j < |topics[1..]| ==> !Mentions(lower, topics[1..][j]) {
        forall j | 1 <= j < |topics| ensures !Mentions(lower, topics[j]) {
          assert topics[j] == topics[1..][j - 1];
        }
      }
    }
  }

  /** A category wins when the input mentions it and none declared before it. */
  lemma FirstCategoryWins(input: string, pick: nat, i: nat)
    requires i < |Topics| && Mentions(ToLower(input), Topics[i])
    requires forall j :: 0 <= j < i ==> !Mentions(ToLower(input), Topics[j])
    ensures Classify(input, pick) == TopicAnswer(Topics[i])
  {
    FirstMentionedAt(ToLower(input), Topics, i);
  }

  /**
   * The pattern replies are reached only when no category is mentioned, and
   * are tried in the order greeting, thanks, farewell, identity, default.
   */
  lemma PatternRepliesInOrder(input: string, pick: nat)
    ensures var lower := ToLower(input);
      var none := forall j :: 0 <= j < |Topics| ==> !Mentions(lower, Topics[j]);
      && (Classify(input, pick).TopicAnswer? <==> !none)
      && (Classify(input, pick) == GreetingAnswer(pick) <==> none && StartsWithGreeting(lower))
      && (Classify(input, pick) == ThanksAnswer <==> none && !StartsWithGreeting(lower) && SaysThanks(lower))
      && (Classify(input, pick) == FarewellAnswer <==>
            none && !StartsWithGreeting(lower) && !SaysThanks(lower) && SaysGoodbye(lower))
      && (Classify(input, pick) == IdentityAnswer <==>
            none && !StartsWithGreeting(lower) && !SaysThanks(lower) && !SaysGoodbye(lower) && AsksIdentity(lower))
      && (Classify(input, pick) == DefaultAnswer <==>
            none && !StartsWithGreeting(lower) && !SaysThanks(lower) && !SaysGoodbye(lower) && !AsksIdentity(lower))
  {
    NothingMentioned(ToLower(input), Topics);
  }

  /** Matching does not depend on letter case. */
  lemma CaseInsensitive(input: string, pick: nat)
    ensures Classify(ToLower(input), pick) == Classify(input, pick)
  {
    ToLowerIdempotent(input);
  }

  /** An input mentioning "demo" never gets the pricing reply: demo is declared first. */
  lemma DemoBeforePricing(input: string, pick: nat)
    requires Contains(ToLower(input), "demo")
    ensures Classify(input, pick).TopicAnswer?
    ensures Classify(input, pick).topic in {Services, Ai, Sustainability, Contact, Demo}
  {
    var lower := ToLower(input);
    assert Keywords(Demo)[0] == "demo";
    assert Mentions(lower, Topics[4]);
    if forall j :: 0 <= j < 4 ==> !Mentions(lower, Topics[j]) {
      FirstCategoryWins(input, pick, 4);
    } else {
      var j :| 0 <= j < 4 && Mentions(lower, Topics[j]);
      LeastMentioned(lower, j);
    }
  }

  /** Some category at or before `j` is the first one the input mentions. */
  lemma {:induction false} LeastMentioned(lower: string, j: nat)
    requires j < |Topics| && Mentions(lower, Topics[j])
    ensures exists i :: 0 <= i <= j && FirstMentioned(lower, Topics) == Some(Topics[i])
    decreases j
  {
    if forall m :: 0 <= m < j ==> !Mentions(lower, Topics[m]) {
      FirstMentionedAt(lower, Topics, j);
    } else {
      var m :| 0 <= m < j && Mentions(lower, Topics[m]);
      LeastMentioned(lower, m);
    }
  }

  /** "email" contains "ai": any input with "email" and no services keyword gets the AI reply, not the contact one. */
  lemma EmailMeansAi(input: string, pick: nat)
    requires Contains(ToLower(input), "email")
    requires !Mentions(ToLower(input), Services)
    ensures Classify(input, pick) == TopicAnswer(Ai)
  {
    EmailContainsAi(ToLower(input));
    assert Keywords(Ai)[0] == "ai";
    FirstCategoryWins(input, pick, 1);
  }

  lemma EmailContainsAi(lower: string)
    requires Contains(lower, "email")
    ensures Contains(lower, "ai")
  {
    assert "email"[2..4] == "ai";
    ContainsPiece(lower, "email", 2, "ai");
  }

  lemma EmailMeExample(pick: nat)
    ensures Classify("Email me", pick) == TopicAnswer(Ai)
  {
    EmailMeLowered();
    EmailMeHasEmail();
    EmailMeNoServices();
    EmailMeansAi("Email me", pick);
  }

  lemma EmailMeLowered()
    ensures ToLower("Email me") == "email me"
  {
    var rest := "mail me";
    assert "Email me" == ['E'] + rest;
    LowerFirst('E', rest);
  }

  lemma LowerFirst(c: char, rest: string)
    requires forall x :: x in rest ==> !IsAsciiUpper(x)
    ensures ToLower([c] + rest) == [ToLowerChar(c)] + rest
  {
    LowerId(rest);
    assert ([c] + rest)[1..] == rest;
  }

  lemma EmailMeHasEmail()
    ensures Contains("email me", "email")
  {
    ContainsAt("email me", "email", 0);
  }

  lemma EmailMeNoServices()
    ensures !Mentions("email me", Services)
  {
    var lower := "email me";
    forall k | 0 <= k < |Keywords(Services)| ensures !Contains(lower, Keywords(Services)[k]) {
      var w := Keywords(Services)[k];
      var c := if k == 1 then 'o' else if k == 2 then 'p' else if k == 3 then 'w' else if k == 5 then 'h' else if k == 6 then 'c' else 's';
      assert c in w;
      MissingChar(lower, w, c);
    }
  }
}
