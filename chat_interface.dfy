/** The bot-training chat panel (src/components/ChatInterface.tsx): an
    append-only transcript answered by one of five canned replies. */
module ChatInterface {
  import opened Common

  /** A chat message; `timestamp` is in milliseconds since the epoch. */
  datatype Message = Message(id: string, content: string, isBot: bool, timestamp: int)

  const Greeting := "Olá! Como posso ajudar você hoje?"

  /** `botResponses`, from which the reply is drawn at random. */
  const BotResponses: seq<string> := [
    "Entendi! Como posso ajudar com isso?",
    "Obrigado por compartilhar essa informação.",
    "Vou salvar isso em minha base de conhecimento!",
    "Você poderia me dar mais detalhes sobre isso?",
    "Essa informação é muito útil para mim."]

  /** The send button's `disabled`: `!input.trim()`. */
  function SendDisabled(input: string): (r: bool)
    ensures r <==> IsBlank(input)
  {
    Trim(input) == ""
  }

  class Conversation {
    var messages: seq<Message>
    var input: string

    /** The panel as first rendered at time `now`: one bot greeting, empty input. */
    constructor (now: int)
      ensures messages == [Message("1", Greeting, true, now)] && input == ""
    {
      messages := [Message("1", Greeting, true, now)];
      input := "";
    }

    /** The input field's `onChange`. */
    method SetInput(text: string)
      modifies this
      ensures input == text && messages == old(messages)
    {
      input := text;
    }

    /** `handleSendMessage`: does nothing exactly when the send button is
        disabled. Otherwise the user's message (sent at `now`) is appended
        and the input cleared; earlier messages are never altered. */
    method HandleSendMessage(now: int)
      modifies this
      ensures SendDisabled(old(input)) ==> messages == old(messages) && input == old(input)
      ensures !SendDisabled(old(input)) ==>
        messages == old(messages) + [Message(IntToString(now), old(input), false, now)] && input == ""
    {
      if Trim(input) == "" {
        return;
      }
      messages := messages + [Message(IntToString(now), input, false, now)];
      input := "";
    }

    /** The reply timer, firing at `later`: one bot message with the canned
        reply of index `pick` (the value `Math.floor(Math.random() * 5)`
        produced) is appended. */
    method DeliverReply(later: int, pick: nat)
      requires pick < |BotResponses|
      modifies this
      ensures messages == old(messages) + [Message(IntToString(later), BotResponses[pick], true, later)]
      ensures input == old(input)
    {
      messages := messages + [Message(IntToString(later), BotResponses[pick], true, later)];
    }

    /** A send at `now` followed by its reply timer at `later`: a disabled
        send changes nothing and no timer is started; otherwise the user's
        message and then the picked canned reply are appended. */
    method SendAndReply(now: int, later: int, pick: nat)
      requires pick < |BotResponses|
      modifies this
      ensures SendDisabled(old(input)) ==> messages == old(messages) && input == old(input)
      ensures !SendDisabled(old(input)) ==>
        && messages == old(messages) + [Message(IntToString(now), old(input), false, now),
                                        Message(IntToString(later), BotResponses[pick], true, later)]
        && input == ""
    {
      var disabled := SendDisabled(input);
      HandleSendMessage(now);
      if !disabled {
        DeliverReply(later, pick);
      }
    }
  }
}
