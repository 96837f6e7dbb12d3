/**
 * The `/chat` command of src/commands/llm_chat.py: the process-wide model
 * configuration, the card callback that overwrites it, the guard chain of
 * LLM_Chat_Command.execute and the config card's model choices.
 *
 * The gateway's answers (reachability and model list) and the LangChain
 * chain's result are inputs. Every outcome records the gateway requests and
 * the chain invocation it performed, in order.
 */
module LlmChat {
  import opened Wrappers
  import opened Json
  import opened LiteLlm

  /** Module-level defaults: `lite_llm_url`, `llm_model` and `str(TEMPERATURE)`. */
  const LiteLlmUrl := "http://apollo.home:4000"
  const DefaultModel := "gpt-4o"
  const DefaultTemperature := "0.5"

  const UnreachableCardText := "LiteLLM is not reachable"
  const NotAiMessageText := "Was expecting an AIMessage."

  /** One option of an adaptive-card choice set. */
  datatype Choice = Choice(title: Json, value: Json)

  /** The parts of the config card that carry data: both choice sets and their default values. */
  datatype ConfigCard = ConfigCard(
    modelChoices: seq<Choice>,
    modelDefault: string,
    temperatureChoices: seq<Choice>,
    temperatureDefault: string)

  /** What a command hands back to the bot: a quote_info text, a quote_warning text, a card, or an exception left to the bot framework. */
  datatype Reply = Info(text: string) | Warning(text: string) | Card(card: ConfigCard) | Unhandled

  datatype Role = Human | Assistant
  datatype Message = Message(role: Role, content: string)

  /** What the chain is invoked with: the ChatOpenAI settings, the question and the session's history. */
  datatype ChainInput = ChainInput(
    baseUrl: string,
    model: string,
    temperature: string,
    question: string,
    sessionId: string,
    history: seq<Message>)

  /** The chain's result: an AIMessage, any other value, or an exception. */
  datatype ChainResult = AiMessage(content: string) | OtherValue | ChainError

  datatype Action = Gateway(request: Request) | InvokeChain(input: ChainInput)

  datatype Outcome = Outcome(reply: Reply, actions: seq<Action>)

  predicate Contains(text: string, part: string) {
    exists i :: 0 <= i <= |text| && part <= text[i..]
  }

  predicate InvokesChain(o: Outcome) {
    exists a :: a in o.actions && a.InvokeChain?
  }

  /** Python's str.isspace for one character: the characters str.strip() removes. */
  predicate IsSpace(c: char)
    ensures c == ' ' || c == '\t' || c == '\n' || c == '\r' ==> IsSpace(c)
    ensures 'a' <= c <= 'z' || 'A' <= c <= 'Z' || '0' <= c <= '9' ==> !IsSpace(c)
  {
    || c == ' ' || '\t' <= c <= '\r' || '\U{1c}' <= c <= '\U{1f}'
    || c == '\U{85}' || c == '\U{a0}' || c == '\U{1680}' || '\U{2000}' <= c <= '\U{200a}'
    || c == '\U{2028}' || c == '\U{2029}' || c == '\U{202f}' || c == '\U{205f}' || c == '\U{3000}'
  }

  /** str.lstrip(): the suffix left after dropping leading whitespace. */
  function StripLeading(s: string): (r: string)
    ensures |r| <= |s| && r == s[|s| - |r|..]
    ensures forall i :: 0 <= i < |s| - |r| ==> IsSpace(s[i])
    ensures r == [] || !IsSpace(r[0])
    decreases |s|
  {
    if |s| > 0 && IsSpace(s[0]) then StripLeading(s[1..]) else s
  }

  /** str.rstrip(): the prefix left after dropping trailing whitespace. */
  function StripTrailing(s: string): (r: string)
    ensures r <= s
    ensures forall i :: |r| <= i < |s| ==> IsSpace(s[i])
    ensures r == [] || !IsSpace(r[|r| - 1])
    decreases |s|
  {
    if |s| > 0 && IsSpace(s[|s| - 1]) then StripTrailing(s[..|s| - 1]) else s
  }

  /** Every character of s before index i and from index j on is whitespace. */
  predicate SpaceOutside(s: string, i: nat, j: nat)
    requires i <= j <= |s|
  {
    && (forall k :: 0 <= k < i ==> IsSpace(s[k]))
    && (forall k :: j <= k < |s| ==> IsSpace(s[k]))
  }

  /** str.strip(): the middle of s left after removing whitespace from both ends. */
  function Strip(s: string): (r: string)
    ensures exists i: nat, j: nat :: i <= j <= |s| && r == s[i..j] && SpaceOutside(s, i, j)
    ensures r == [] || (!IsSpace(r[0]) && !IsSpace(r[|r| - 1]))
  {
    var t := StripTrailing(s);
    var r := StripLeading(t);
    StripBothEnds(s, t, r);
    r
  }

  /** Stripping the end and then the start leaves a slice of s with only whitespace outside it. */
  lemma StripBothEnds(s: string, t: string, r: string)
    requires t == StripTrailing(s) && r == StripLeading(t)
    ensures exists i: nat, j: nat :: i <= j <= |s| && r == s[i..j] && SpaceOutside(s, i, j)
  {
    StripSlice(s, t, r);
    StripSpaceOutside(s, t, r);
    var i, j := |t| - |r|, |t|;
    assert i <= j <= |s| && r == s[i..j] && SpaceOutside(s, i, j);
  }

  /** What is left is the slice between the leading and the trailing whitespace. */
  lemma StripSlice(s: string, t: string, r: string)
    requires t == StripTrailing(s) && r == StripLeading(t)
    ensures |r| <= |t| <= |s| && r == s[|t| - |r|..|t|]
  {
    assert t == s[..|t|];
  }

  /** Everything cut off on either side is whitespace. */
  lemma StripSpaceOutside(s: string, t: string, r: string)
    requires t == StripTrailing(s) && r == StripLeading(t)
    ensures |r| <= |t| <= |s| && SpaceOutside(s, |t| - |r|, |t|)
  {
    forall k | 0 <= k < |t| - |r| ensures IsSpace(s[k]) {
      assert s[k] == t[k];
    }
  }

  /** A prompt strips to empty exactly when it is all whitespace. */
  lemma StripEmptyIff(s: string)
    ensures Strip(s) == [] <==> forall i :: 0 <= i < |s| ==> IsSpace(s[i])
  {
    var t := StripTrailing(s);
    if Strip(s) == [] {
      forall i | 0 <= i < |s| ensures IsSpace(s[i]) {
        if i < |t| {
          assert s[i] == t[i];
        }
      }
    } else {
      var k := |t| - 1;
      assert t[k] == s[k] && !IsSpace(t[k]);
    }
  }

  /** The five fixed temperature options. */
  const TemperatureChoices: seq<Choice> := [
    Choice(JStr("0.0 (Deterministic)"), JStr("0.0")),
    Choice(JStr("0.2"), JStr("0.2")),
    Choice(JStr("0.5"), JStr("0.5")),
    Choice(JStr("0.7 (Balanced)"), JStr("0.7")),
    Choice(JStr("1.0 (Creative)"), JStr("1.0"))
  ]

  /** One choice per listed model, titled and valued by its id, in list order. */
  function ModelChoices(ids: seq<Json>): (cs: seq<Choice>)
    ensures |cs| == |ids|
    ensures forall i :: 0 <= i < |ids| ==> cs[i] == Choice(ids[i], ids[i])
  {
    seq(|ids|, i requires 0 <= i < |ids| => Choice(ids[i], ids[i]))
  }

  /** The preselected model: the configured one if it is listed, otherwise none (""). */
  function DefaultSelection(model: string, ids: seq<Json>): (d: string)
    ensures d == model || d == ""
    ensures JStr(model) in ids ==> d == model
    ensures d != "" ==> JStr(model) in ids
  {
    if JStr(model) in ids then model else ""
  }

  /** show_llm_config_card, given the configuration and the two gateway responses. */
  function CardOutcome(apiKey: string, model: string, temperature: string, reach: Response, models: Response): (o: Outcome)
    ensures 1 <= |o.actions| <= 2 && o.actions[0] == Gateway(ReachabilityRequest(NewClient(LiteLlmUrl, apiKey)))
    ensures forall a :: a in o.actions ==> a.Gateway?
  {
    var client := NewClient(LiteLlmUrl, apiKey);
    if !IsReachable(reach) then
      Outcome(Warning(UnreachableCardText), [Gateway(ReachabilityRequest(client))])
    else
      var ids := ListModels(models);
      Outcome(Card(ConfigCard(ModelChoices(ids), DefaultSelection(model, ids), TemperatureChoices, temperature)),
              [Gateway(ReachabilityRequest(client)), Gateway(ModelsRequest(client))])
  }

  function UnreachableText(): string {
    "LiteLLM is not reachable at " + LiteLlmUrl
  }

  function UnavailableText(model: string): string {
    "LLM model " + model + " is not available"
  }

  /** The guard chain of execute for a non-empty (stripped) question. */
  function AnswerOutcome(apiKey: string, sessionId: string, history: seq<Message>, model: string, temperature: string,
                         question: string, reach: Response, models: Response, chain: ChainResult): (o: Outcome)
    ensures 1 <= |o.actions| <= 3 && o.actions[0] == Gateway(ReachabilityRequest(NewClient(LiteLlmUrl, apiKey)))
    ensures o.reply.Unhandled? ==> |o.actions| == 3 && o.actions[2].InvokeChain?
  {
    var client := NewClient(LiteLlmUrl, apiKey);
    var reachCheck := [Gateway(ReachabilityRequest(client))];
    if !IsReachable(reach) then
      Outcome(Warning(UnreachableText()), reachCheck)
    else
      var checks := reachCheck + [Gateway(ModelsRequest(client))];
      if !IsAvailable(model, models) then
        Outcome(Warning(UnavailableText(model)), checks)
      else
        var invoked := checks + [InvokeChain(ChainInput(LiteLlmUrl, model, temperature, question, sessionId, history))];
        match chain
        case AiMessage(content) => Outcome(Info(content), invoked)
        case OtherValue => Outcome(Warning(NotAiMessageText), invoked)
        case ChainError => Outcome(Unhandled, invoked)
  }

  /** LLM_Chat_Command.execute: a prompt that strips to empty shows the card, any other goes through the guard chain. */
  function ExecuteOutcome(apiKey: string, sessionId: string, history: seq<Message>, model: string, temperature: string,
                          prompt: string, reach: Response, models: Response, chain: ChainResult): (o: Outcome)
    ensures 1 <= |o.actions| <= 3 && o.actions[0] == Gateway(ReachabilityRequest(NewClient(LiteLlmUrl, apiKey)))
  {
    var question := Strip(prompt);
    if question == [] then CardOutcome(apiKey, model, temperature, reach, models)
    else AnswerOutcome(apiKey, sessionId, history, model, temperature, question, reach, models, chain)
  }

  /** A blank prompt always takes the card branch and never reaches the chain. */
  lemma BlankPromptShowsCard(apiKey: string, sessionId: string, history: seq<Message>, model: string, temperature: string,
                             prompt: string, reach: Response, models: Response, chain: ChainResult)
    requires forall i :: 0 <= i < |prompt| ==> IsSpace(prompt[i])
    ensures var o := ExecuteOutcome(apiKey, sessionId, history, model, temperature, prompt, reach, models, chain);
      && !InvokesChain(o)
      && (IsReachable(reach) <==> o.reply.Card?)
      && (!IsReachable(reach) ==> o.reply == Warning(UnreachableCardText))
  {
    StripEmptyIff(prompt);
    var o := ExecuteOutcome(apiKey, sessionId, history, model, temperature, prompt, reach, models, chain);
    assert o == CardOutcome(apiKey, model, temperature, reach, models);
    CardOutcomeShape(apiKey, model, temperature, reach, models);
  }

  /** The card branch makes gateway requests only, and answers with the card exactly when the gateway is reachable. */
  lemma CardOutcomeShape(apiKey: string, model: string, temperature: string, reach: Response, models: Response)
    ensures var o := CardOutcome(apiKey, model, temperature, reach, models);
      && !InvokesChain(o)
      && (IsReachable(reach) <==> o.reply.Card?)
      && (!IsReachable(reach) ==> o.reply == Warning(UnreachableCardText))
  {
  }

  /** An unreachable gateway stops a question with a warning naming the gateway URL, after the reachability check alone. */
  lemma UnreachableWarns(apiKey: string, sessionId: string, history: seq<Message>, model: string, temperature: string,
                         prompt: string, reach: Response, models: Response, chain: ChainResult)
    requires Strip(prompt) != []
    requires !IsReachable(reach)
    ensures var o := ExecuteOutcome(apiKey, sessionId, history, model, temperature, prompt, reach, models, chain);
      && o.reply.Warning? && Contains(o.reply.text, LiteLlmUrl)
      && o.actions == [Gateway(ReachabilityRequest(NewClient(LiteLlmUrl, apiKey)))]
  {
    var text := UnreachableText();
    var n := |"LiteLLM is not reachable at "|;
    assert text[n..] == LiteLlmUrl;
  }

  /** A reachable gateway that does not list the configured model stops the question with a warning naming the model; the chain is not invoked. */
  lemma UnavailableWarns(apiKey: string, sessionId: string, history: seq<Message>, model: string, temperature: string,
                         prompt: string, reach: Response, models: Response, chain: ChainResult)
    requires Strip(prompt) != []
    requires IsReachable(reach) && !IsAvailable(model, models)
    ensures var o := ExecuteOutcome(apiKey, sessionId, history, model, temperature, prompt, reach, models, chain);
      && o.reply.Warning? && Contains(o.reply.text, model)
      && !InvokesChain(o)
  {
    var o := ExecuteOutcome(apiKey, sessionId, history, model, temperature, prompt, reach, models, chain);
    assert o == AnswerOutcome(apiKey, sessionId, history, model, temperature, Strip(prompt), reach, models, chain);
    var text := UnavailableText(model);
    var n := |"LLM model "|;
    assert text[n..] == model + " is not available";
    AnswerOutcomeShape(apiKey, sessionId, history, model, temperature, Strip(prompt), reach, models, chain);
  }

  /**
   * The chain is invoked exactly when the prompt is not blank, the gateway is
   * reachable and the configured model is listed; it is then invoked once, last,
   * with the configured model and temperature, the stripped prompt and the
   * session's history.
   */
  lemma ChainOnlyAfterGuards(apiKey: string, sessionId: string, history: seq<Message>, model: string, temperature: string,
                             prompt: string, reach: Response, models: Response, chain: ChainResult)
    ensures var o := ExecuteOutcome(apiKey, sessionId, history, model, temperature, prompt, reach, models, chain);
      && (InvokesChain(o) <==> Strip(prompt) != [] && IsReachable(reach) && IsAvailable(model, models))
      && (InvokesChain(o) ==>
            |o.actions| == 3
            && o.actions[2] == InvokeChain(ChainInput(LiteLlmUrl, model, temperature, Strip(prompt), sessionId, history))
            && (chain.AiMessage? ==> o.reply == Info(chain.content)))
  {
    var o := ExecuteOutcome(apiKey, sessionId, history, model, temperature, prompt, reach, models, chain);
    if Strip(prompt) == [] {
      assert o == CardOutcome(apiKey, model, temperature, reach, models);
      CardOutcomeShape(apiKey, model, temperature, reach, models);
    } else {
      assert o == AnswerOutcome(apiKey, sessionId, history, model, temperature, Strip(prompt), reach, models, chain);
      AnswerOutcomeShape(apiKey, sessionId, history, model, temperature, Strip(prompt), reach, models, chain);
    }
  }

  /** The guard chain reaches the chain only past both checks, and then as its third and last action. */
  lemma AnswerOutcomeShape(apiKey: string, sessionId: string, history: seq<Message>, model: string, temperature: string,
                           question: string, reach: Response, models: Response, chain: ChainResult)
    ensures var o := AnswerOutcome(apiKey, sessionId, history, model, temperature, question, reach, models, chain);
      && (InvokesChain(o) <==> IsReachable(reach) && IsAvailable(model, models))
      && (InvokesChain(o) ==>
            |o.actions| == 3
            && o.actions[2] == InvokeChain(ChainInput(LiteLlmUrl, model, temperature, question, sessionId, history))
            && (chain.AiMessage? ==> o.reply == Info(chain.content)))
  {
    var o := AnswerOutcome(apiKey, sessionId, history, model, temperature, question, reach, models, chain);
    if IsReachable(reach) && IsAvailable(model, models) {
      assert o.actions[2] in o.actions;
    } else {
      assert forall a :: a in o.actions ==> a.Gateway?;
    }
  }

  /**
   * A reachable gateway yields the card: one choice per listed model in list
   * order, the configured model preselected when listed and nothing otherwise,
   * the five fixed temperatures with the current temperature preselected.
   */
  lemma CardListsModels(apiKey: string, model: string, temperature: string, reach: Response, models: Response)
    requires IsReachable(reach)
    ensures var o := CardOutcome(apiKey, model, temperature, reach, models);
      var ids := ListModels(models);
      && o.reply.Card?
      && o.reply.card.modelChoices == ModelChoices(ids)
      && (forall i :: 0 <= i < |ids| ==> o.reply.card.modelChoices[i].value == ids[i])
      && (o.reply.card.modelDefault == if JStr(model) in ids then model else "")
      && o.reply.card.temperatureChoices == TemperatureChoices
      && o.reply.card.temperatureDefault == temperature
  {
  }

  /** `inputs.get(field)` overwrites `current` only when present and non-empty. */
  function Overwrite(current: string, inputs: map<string, string>, field: string): (r: string)
    ensures field in inputs && inputs[field] != "" ==> r == inputs[field]
    ensures !(field in inputs && inputs[field] != "") ==> r == current
  {
    if field in inputs && inputs[field] != "" then inputs[field] else current
  }

  /** Submitting the same form twice has the effect of submitting it once. */
  lemma OverwriteIdempotent(current: string, inputs: map<string, string>, field: string)
    ensures Overwrite(Overwrite(current, inputs, field), inputs, field) == Overwrite(current, inputs, field)
  {
  }

  function ConfirmationText(model: string, temperature: string): string {
    "LLM model is set to '" + model + "', Temperature is set to '" + temperature + "'"
  }

  /** The callback's confirmation names both the model and the temperature. */
  lemma ConfirmationEchoes(model: string, temperature: string)
    ensures Contains(ConfirmationText(model, temperature), model)
    ensures Contains(ConfirmationText(model, temperature), temperature)
  {
    var text := ConfirmationText(model, temperature);
    var m := |"LLM model is set to '"|;
    assert text[m..] == model + "', Temperature is set to '" + temperature + "'";
    var t := m + |model| + |"', Temperature is set to '"|;
    assert text[t..] == temperature + "'";
  }

  /** The module globals `llm_model` and `TEMPERATURE` (the latter as the string the card shows and submits). */
  class ChatConfig {
    var llmModel: string
    var temperature: string

    constructor()
      ensures llmModel == DefaultModel && temperature == DefaultTemperature
    {
      llmModel := DefaultModel;
      temperature := DefaultTemperature;
    }
  }

  /** LLM_Chat_Callback: applies a submitted config card to the shared configuration. */
  class ChatCallback {
    const config: ChatConfig

    constructor(config: ChatConfig)
      ensures this.config == config
    {
      this.config := config;
    }

    method Execute(inputs: map<string, string>) returns (reply: Reply)
      modifies config
      ensures config.llmModel == Overwrite(old(config.llmModel), inputs, "llm_model")
      ensures config.temperature == Overwrite(old(config.temperature), inputs, "temperature")
      ensures reply == Info(ConfirmationText(config.llmModel, config.temperature))
    {
      var modelUser := if "llm_model" in inputs then Some(inputs["llm_model"]) else None;
      if modelUser.Some? && modelUser.value != "" {
        config.llmModel := modelUser.value;
      }
      var temperatureUser := if "temperature" in inputs then Some(inputs["temperature"]) else None;
      if temperatureUser.Some? && temperatureUser.value != "" {
        config.temperature := temperatureUser.value;
      }
      reply := Info(ConfirmationText(config.llmModel, config.temperature));
    }
  }

  /** LLM_Chat_Command: one session's chat command over the shared configuration. */
  class ChatCommand {
    const apiKey: string
    const sessionId: string
    const config: ChatConfig
    const callback: ChatCallback
    var sessionHistories: map<string, seq<Message>>

    /** The chain's history lookup `session_histories[session_id]` always succeeds. */
    ghost predicate Valid()
      reads this
    {
      sessionId in sessionHistories
    }

    constructor(apiKey: string, sessionId: string, config: ChatConfig)
      ensures Valid()
      ensures this.apiKey == apiKey && this.sessionId == sessionId && this.config == config
      ensures fresh(callback) && callback.config == config
      ensures sessionHistories == map[sessionId := []]
    {
      this.apiKey := apiKey;
      this.sessionId := sessionId;
      this.config := config;
      callback := new ChatCallback(config);
      sessionHistories := map[];
      new;
      if sessionId !in sessionHistories {
        sessionHistories := sessionHistories[sessionId := []];
      }
    }

    /** show_llm_config_card, building the model choices with the source's append loop. */
    method ShowConfigCard(reach: Response, models: Response) returns (o: Outcome)
      ensures o == CardOutcome(apiKey, config.llmModel, config.temperature, reach, models)
    {
      var client := NewClient(LiteLlmUrl, apiKey);
      var asked := [Gateway(ReachabilityRequest(client))];
      if !IsReachable(reach) {
        return Outcome(Warning(UnreachableCardText), asked);
      }
      var ids := ListModels(models);
      var choices: seq<Choice> := [];
      for i := 0 to |ids|
        invariant |choices| == i
        invariant forall k :: 0 <= k < i ==> choices[k] == Choice(ids[k], ids[k])
      {
        choices := choices + [Choice(ids[i], ids[i])];
      }
      assert choices == ModelChoices(ids);
      var card := ConfigCard(choices, DefaultSelection(config.llmModel, ids), TemperatureChoices, config.temperature);
      o := Outcome(Card(card), asked + [Gateway(ModelsRequest(client))]);
    }

    /** LLM_Chat_Command.execute, reading the configuration as it stands. */
    method Execute(prompt: string, reach: Response, models: Response, chain: ChainResult) returns (o: Outcome)
      requires Valid()
      ensures o == ExecuteOutcome(apiKey, sessionId, sessionHistories[sessionId], config.llmModel, config.temperature,
                                  prompt, reach, models, chain)
    {
      var question := Strip(prompt);
      if question == [] {
        o := ShowConfigCard(reach, models);
      } else {
        o := AnswerOutcome(apiKey, sessionId, sessionHistories[sessionId], config.llmModel, config.temperature,
                           question, reach, models, chain);
      }
    }
  }
}
