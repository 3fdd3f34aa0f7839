/** The choice the api.ai `response` callback makes between the structured
    Slack reply, the text reply and no reply.
 */
module Dispatch {
  import opened JsValue

  /** Which reply is sent: `replyWithData` sends `data.slack`,
      `replyWithText` sends `speech`. */
  datatype Reply = NoReply | StructuredReply(slack: Value) | TextReply(speech: Value)

  /** The callback body on a response value. A property read on `undefined`
      or `null` (a response without a fulfillment, say) throws; nothing in
      the callback catches it, and since the callback runs after the message
      handler has returned, the handler's own `catch` does not either. */
  function ChooseReply(response: Value): (r: Completion<Reply>)
    ensures r.Normal? && r.value.StructuredReply? ==> Truthy(r.value.slack)
    ensures r.Normal? && r.value.TextReply? ==> Truthy(r.value.speech)
    ensures r.Normal? && !r.value.NoReply? ==>
              !Nullish(response) && Truthy(Get(response, "result").value) && !Nullish(Fulfillment(response))
    ensures r.Normal? && r.value.StructuredReply? ==>
              && !Nullish(response) && Truthy(Get(response, "result").value)
              && !Nullish(Fulfillment(response))
              && Truthy(Get(Fulfillment(response), "data").value)
              && r.value.slack == Get(Get(Fulfillment(response), "data").value, "slack").value
    ensures r.Normal? && r.value.TextReply? ==>
              && !Nullish(response) && Truthy(Get(response, "result").value)
              && !Nullish(Fulfillment(response))
              && r.value.speech == Get(Fulfillment(response), "speech").value
  {
    match Get(response, "result")
    case TypeError => TypeError
    case Normal(result) =>
      if !IsDefined(result) then Normal(NoReply)
      else
        var fulfillment := Get(result, "fulfillment").value;
        match Get(fulfillment, "speech")
        case TypeError => TypeError
        case Normal(speech) =>
          var data := Get(fulfillment, "data").value;
          if IsDefined(data) && IsDefined(Get(data, "slack").value) then
            Normal(StructuredReply(Get(data, "slack").value))
          else if IsDefined(speech) then Normal(TextReply(speech))
          else Normal(NoReply)
  }

  /** `response.result.fulfillment`, when it can be read. */
  function Fulfillment(response: Value): (f: Value)
    requires !Nullish(response) && Truthy(Get(response, "result").value)
  {
    Get(Get(response, "result").value, "fulfillment").value
  }

  /** A falsy `response.result` sends nothing. */
  lemma FalsyResultSendsNothing(response: Value)
    requires !Nullish(response) && !Truthy(Get(response, "result").value)
    ensures ChooseReply(response) == Normal(NoReply)
  {
  }

  /** The callback throws exactly when `response` itself, or the
      fulfillment of a truthy result, is `undefined` or `null`. */
  lemma ThrowsIff(response: Value)
    ensures ChooseReply(response).TypeError? <==>
            || Nullish(response)
            || (Truthy(Get(response, "result").value) && Nullish(Fulfillment(response)))
  {
  }

  /** With a truthy `data.slack`, only the structured reply is chosen,
      whatever the speech. */
  lemma SlackDataWins(response: Value)
    requires !Nullish(response) && Truthy(Get(response, "result").value)
    requires !Nullish(Fulfillment(response))
    requires var data := Get(Fulfillment(response), "data").value;
             Truthy(data) && Truthy(Get(data, "slack").value)
    ensures ChooseReply(response)
            == Normal(StructuredReply(Get(Get(Fulfillment(response), "data").value, "slack").value))
  {
  }

  /** Without a truthy `data.slack`, the reply is the speech when it is
      truthy, and there is none otherwise (an empty speech sends nothing). */
  lemma SpeechOtherwise(response: Value)
    requires !Nullish(response) && Truthy(Get(response, "result").value)
    requires !Nullish(Fulfillment(response))
    requires var data := Get(Fulfillment(response), "data").value;
             !(Truthy(data) && Truthy(Get(data, "slack").value))
    ensures var speech := Get(Fulfillment(response), "speech").value;
            ChooseReply(response) == if Truthy(speech) then Normal(TextReply(speech)) else Normal(NoReply)
  {
  }

  /** A result whose fulfillment holds only `speech: "hi!"` gets the text
      reply "hi!"; with `speech: ""` it gets none. */
  lemma SpeechScenarios()
    ensures ChooseReply(Object(map["result" := Object(map["fulfillment" :=
              Object(map["speech" := Str("hi!")])])])) == Normal(TextReply(Str("hi!")))
    ensures ChooseReply(Object(map["result" := Object(map["fulfillment" :=
              Object(map["speech" := Str("")])])])) == Normal(NoReply)
  {
  }
}
