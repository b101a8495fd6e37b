/** The keyword-driven demo chat widget (src/components/ChatBot.tsx): a
    priority-ordered keyword classifier and the transcript it feeds. */
module ChatBot {
  import opened Common

  const PriceReply := "Nossos preços variam de acordo com o produto. Posso ajudar a encontrar um específico?"
  const DeliveryReply := "Normalmente entregamos em 3-5 dias úteis, dependendo da sua localização."
  const PaymentReply := "Aceitamos pagamentos via cartão de crédito, PIX, boleto bancário e transferência."
  const DiscountReply := "Temos promoções semanais! Posso verificar os descontos disponíveis para você agora."
  const GreetingReply := "Olá! Como posso ajudar você hoje?"
  const FallbackReply := "Entendi. Posso ajudar com mais alguma informação sobre nossos produtos ou serviços?"

  const PriceKeywords: seq<string> := ["preço", "valor", "custa"]
  const DeliveryKeywords: seq<string> := ["entrega", "prazo"]
  const PaymentKeywords: seq<string> := ["pagamento", "pagar"]
  const DiscountKeywords: seq<string> := ["desconto", "promoção"]
  const GreetingKeywords: seq<string> := ["olá", "oi", "bom dia", "boa tarde", "boa noite"]

  /** `getBotResponse`: the if / else-if chain over the lower-cased message. */
  function GetBotResponse(userMessage: string): string
  {
    var m := ToLower(userMessage);
    if Includes(m, "preço") || Includes(m, "valor") || Includes(m, "custa") then PriceReply
    else if Includes(m, "entrega") || Includes(m, "prazo") then DeliveryReply
    else if Includes(m, "pagamento") || Includes(m, "pagar") then PaymentReply
    else if Includes(m, "desconto") || Includes(m, "promoção") then DiscountReply
    else if Includes(m, "olá") || Includes(m, "oi") || Includes(m, "bom dia") || Includes(m, "boa tarde")
         || Includes(m, "boa noite") then GreetingReply
    else FallbackReply
  }

  // ---------------------------------------------------------------------------
  // Reference definition: a rule table searched in order

  datatype Rule = Rule(keywords: seq<string>, reply: string)

  /** The categories in the order they are tried. */
  const Rules: seq<Rule> := [
    Rule(PriceKeywords, PriceReply),
    Rule(DeliveryKeywords, DeliveryReply),
    Rule(PaymentKeywords, PaymentReply),
    Rule(DiscountKeywords, DiscountReply),
    Rule(GreetingKeywords, GreetingReply)]

  predicate MentionsAny(text: string, keywords: seq<string>)
  {
    exists k :: 0 <= k < |keywords| && Includes(text, keywords[k])
  }

  /** The reply of the first rule one of whose keywords occurs in `text`,
      and the fallback when none does. */
  function FirstMatchingReply(text: string, rules: seq<Rule>): string
  {
    if rules == [] then FallbackReply
    else if MentionsAny(text, rules[0].keywords) then rules[0].reply
    else FirstMatchingReply(text, rules[1..])
  }

  lemma MentionsAnyCases(m: string)
    ensures MentionsAny(m, PriceKeywords) <==> Includes(m, "preço") || Includes(m, "valor") || Includes(m, "custa")
    ensures MentionsAny(m, DeliveryKeywords) <==> Includes(m, "entrega") || Includes(m, "prazo")
    ensures MentionsAny(m, PaymentKeywords) <==> Includes(m, "pagamento") || Includes(m, "pagar")
    ensures MentionsAny(m, DiscountKeywords) <==> Includes(m, "desconto") || Includes(m, "promoção")
    ensures MentionsAny(m, GreetingKeywords) <==>
      Includes(m, "olá") || Includes(m, "oi") || Includes(m, "bom dia") || Includes(m, "boa tarde") || Includes(m, "boa noite")
  {
    assert PriceKeywords[0] == "preço" && PriceKeywords[1] == "valor" && PriceKeywords[2] == "custa";
    assert DeliveryKeywords[0] == "entrega" && DeliveryKeywords[1] == "prazo";
    assert PaymentKeywords[0] == "pagamento" && PaymentKeywords[1] == "pagar";
    assert DiscountKeywords[0] == "desconto" && DiscountKeywords[1] == "promoção";
    assert GreetingKeywords[0] == "olá" && GreetingKeywords[1] == "oi" && GreetingKeywords[2] == "bom dia";
    assert GreetingKeywords[3] == "boa tarde" && GreetingKeywords[4] == "boa noite";
  }

  /** The rule table searched in order, written out as a chain. */
  lemma FirstMatchUnfolded(m: string)
    ensures FirstMatchingReply(m, Rules) ==
      if MentionsAny(m, PriceKeywords) then PriceReply
      else if MentionsAny(m, DeliveryKeywords) then DeliveryReply
      else if MentionsAny(m, PaymentKeywords) then PaymentReply
      else if MentionsAny(m, DiscountKeywords) then DiscountReply
      else if MentionsAny(m, GreetingKeywords) then GreetingReply
      else FallbackReply
  {
    var rs := Rules;
    assert rs[0] == Rule(PriceKeywords, PriceReply);
    assert FirstMatchingReply(m, rs) ==
      if MentionsAny(m, PriceKeywords) then PriceReply else FirstMatchingReply(m, rs[1..]);
    rs := rs[1..];
    assert rs[0] == Rule(DeliveryKeywords, DeliveryReply);
    assert FirstMatchingReply(m, rs) ==
      if MentionsAny(m, DeliveryKeywords) then DeliveryReply else FirstMatchingReply(m, rs[1..]);
    rs := rs[1..];
    assert rs[0] == Rule(PaymentKeywords, PaymentReply);
    assert FirstMatchingReply(m, rs) ==
      if MentionsAny(m, PaymentKeywords) then PaymentReply else FirstMatchingReply(m, rs[1..]);
    rs := rs[1..];
    assert rs[0] == Rule(DiscountKeywords, DiscountReply);
    assert FirstMatchingReply(m, rs) ==
      if MentionsAny(m, DiscountKeywords) then DiscountReply else FirstMatchingReply(m, rs[1..]);
    rs := rs[1..];
    assert rs[0] == Rule(GreetingKeywords, GreetingReply);
    assert FirstMatchingReply(m, rs) ==
      if MentionsAny(m, GreetingKeywords) then GreetingReply else FirstMatchingReply(m, rs[1..]);
    assert rs[1..] == [];
  }

  /** The if / else-if chain is the ordered rule table: categories are tried
      as price, delivery, payment, discount, greeting, and the first one
      mentioned in the lower-cased message wins. */
  lemma GetBotResponseIsFirstMatch(userMessage: string)
    ensures GetBotResponse(userMessage) == FirstMatchingReply(ToLower(userMessage), Rules)
  {
    var m := ToLower(userMessage);
    MentionsAnyCases(m);
    FirstMatchUnfolded(m);
  }

  /** The first-match search answers with one of the rules' replies or the fallback. */
  lemma {:induction false} FirstMatchIsARuleReply(text: string, rules: seq<Rule>)
    ensures var r := FirstMatchingReply(text, rules);
      r == FallbackReply || exists i :: 0 <= i < |rules| && r == rules[i].reply
  {
    if rules != [] && !MentionsAny(text, rules[0].keywords) {
      FirstMatchIsARuleReply(text, rules[1..]);
      var r := FirstMatchingReply(text, rules);
      if r != FallbackReply {
        var i :| 0 <= i < |rules[1..]| && r == rules[1..][i].reply;
        assert r == rules[i + 1].reply;
      }
    }
  }

  /** Every reply is one of the six canned texts. */
  lemma ResponseIsCanned(userMessage: string)
    ensures GetBotResponse(userMessage) == FallbackReply ||
      exists i :: 0 <= i < |Rules| && GetBotResponse(userMessage) == Rules[i].reply
  {
    GetBotResponseIsFirstMatch(userMessage);
    FirstMatchIsARuleReply(ToLower(userMessage), Rules);
  }

  /** A price keyword wins over every other keyword. */
  lemma PriceTakesPriority(userMessage: string)
    requires MentionsAny(ToLower(userMessage), PriceKeywords)
    ensures GetBotResponse(userMessage) == PriceReply
  {
    MentionsAnyCases(ToLower(userMessage));
  }

  /** The fallback reply is given exactly when no keyword of any category
      occurs in the lower-cased message. */
  lemma FallbackExactlyWhenNoKeyword(userMessage: string)
    ensures GetBotResponse(userMessage) == FallbackReply <==>
      forall i :: 0 <= i < |Rules| ==> !MentionsAny(ToLower(userMessage), Rules[i].keywords)
  {
    MentionsAnyCases(ToLower(userMessage));
    assert Rules[0].keywords == PriceKeywords && Rules[1].keywords == DeliveryKeywords;
    assert Rules[2].keywords == PaymentKeywords && Rules[3].keywords == DiscountKeywords;
    assert Rules[4].keywords == GreetingKeywords;
    assert PriceReply != FallbackReply && DeliveryReply != FallbackReply && PaymentReply != FallbackReply;
    assert DiscountReply != FallbackReply && GreetingReply != FallbackReply;
  }

  /** Matching ignores case: an already lower-cased message gets the same reply. */
  lemma ResponseIgnoresCase(userMessage: string)
    ensures GetBotResponse(ToLower(userMessage)) == GetBotResponse(userMessage)
  {
    ToLowerIdempotent(userMessage);
  }

  // ---------------------------------------------------------------------------
  // The transcript

  datatype Sender = User | Bot

  /** A chat message; `timestamp` is in milliseconds since the epoch. */
  datatype Message = Message(id: string, text: string, sender: Sender, timestamp: int)

  /** The `initialMessage` prop's default. */
  const DefaultInitialMessage := "Olá! Como posso ajudar você hoje?"

  /** The transcript after the mount effect: one bot greeting when the
      initial message (the supplied one, or the default when none is
      supplied) is not empty, and nothing otherwise. */
  function InitialTranscript(initialMessage: Option<string>, now: int): (r: seq<Message>)
    ensures initialMessage.None? ==> r == [Message("initial", DefaultInitialMessage, Bot, now)]
    ensures initialMessage.Some? && initialMessage.value != "" ==>
      r == [Message("initial", initialMessage.value, Bot, now)]
    ensures initialMessage == Some("") ==> r == []
  {
    var text := if initialMessage.None? then DefaultInitialMessage else initialMessage.value;
    if text == "" then [] else [Message("initial", text, Bot, now)]
  }

  class ChatBotWidget {
    var messages: seq<Message>
    var input: string

    /** The widget after mounting with the given `initialMessage` prop at time `now`. */
    constructor (initialMessage: Option<string>, now: int)
      ensures messages == InitialTranscript(initialMessage, now) && input == ""
    {
      messages := InitialTranscript(initialMessage, now);
      input := "";
    }

    /** The input field's `onChange`. */
    method SetInput(text: string)
      modifies this
      ensures input == text && messages == old(messages)
    {
      input := text;
    }

    /** `handleSendMessage`: a blank input does nothing and returns `None`.
        Otherwise the user's message (sent at `now`) is appended, the input
        is cleared, and the text is returned: it is what the parent's
        `onMessage` is told and what the reply timer will answer. */
    method HandleSendMessage(now: int) returns (sent: Option<string>)
      modifies this
      ensures IsBlank(old(input)) ==> messages == old(messages) && input == old(input) && sent == None
      ensures !IsBlank(old(input)) ==>
        && messages == old(messages) + [Message(IntToString(now), old(input), User, now)]
        && input == ""
        && sent == Some(old(input))
    {
      if Trim(input) == "" {
        return None;
      }
      sent := Some(input);
      messages := messages + [Message(IntToString(now), input, User, now)];
      input := "";
    }

    /** The reply timer of a send of `text`, firing at `later`: one bot
        message with the reply chosen for that text is appended. */
    method DeliverReply(text: string, later: int)
      modifies this
      ensures messages == old(messages) + [Message(IntToString(later + 1), GetBotResponse(text), Bot, later)]
      ensures input == old(input)
    {
      messages := messages + [Message(IntToString(later + 1), GetBotResponse(text), Bot, later)];
    }

    /** A send at `now` followed by its reply timer at `later`: a blank input
        changes nothing; otherwise the transcript gains the user's message and
        then the reply chosen for exactly that message. */
    method SendAndReply(now: int, later: int) returns (sent: Option<string>)
      modifies this
      ensures IsBlank(old(input)) ==> messages == old(messages) && input == old(input) && sent == None
      ensures !IsBlank(old(input)) ==>
        && messages == old(messages) + [Message(IntToString(now), old(input), User, now),
                                        Message(IntToString(later + 1), GetBotResponse(old(input)), Bot, later)]
        && input == ""
        && sent == Some(old(input))
    {
      sent := HandleSendMessage(now);
      if sent.Some? {
        DeliverReply(sent.value, later);
      }
    }
  }
}
