/**
 * The upstream client half of `PollinationsTextStream`: the prompt, the
 * random seed and the JSON body posted to the text endpoint.
 */
module Request {
  import opened Wrappers

  /** Upper bound (exclusive) of the per-request seed. */
  const SeedRange: int := 100000

  /** The model used when the caller passes none. */
  const DefaultModel: string := "mistral"

  datatype Role = System | User

  /**
   * One entry of `messages`. The content is optional because the user entry
   * carries whatever `createPrompt` returned, which is `undefined` for an
   * empty prompt (and then dropped from the serialised JSON).
   */
  datatype Message = Message(role: Role, content: Option<string>)

  /** The object serialised as the POST body. */
  datatype RequestBody = RequestBody(messages: seq<Message>, model: string, seed: int, jsonMode: bool)

  /**
   * `createPrompt`: the templating step is the identity on a non-empty
   * prompt; an empty prompt is falsy and yields `undefined`.
   */
  function CreatePrompt(inputCode: string): Option<string> {
    if inputCode != "" then Some(inputCode) else None
  }

  /**
   * `generateSeed`, with the ambient random number `r` in [0, 1) passed in:
   * the floor of `r * 100000`, an integer in [0, 100000).
   */
  function GenerateSeed(r: real): (seed: int)
    requires 0.0 <= r < 1.0
    ensures 0 <= seed < SeedRange
    ensures seed as real <= r * SeedRange as real < seed as real + 1.0
  {
    (r * SeedRange as real).Floor
  }

  /** JavaScript truthiness of the optional `systemPrompt` argument. */
  predicate Truthy(systemPrompt: Option<string>) {
    systemPrompt.Some? && systemPrompt.value != ""
  }

  /** `Array.prototype.unshift` on an immutable list. */
  function Unshift(m: Message, messages: seq<Message>): seq<Message> {
    [m] + messages
  }

  /**
   * The request body: a one-element message list holding the user prompt,
   * to whose front a system message is added when `systemPrompt` is truthy;
   * model (by default "mistral"), seed and JSON mode (by default off) are
   * copied into the body. `None` stands for an argument left `undefined`.
   */
  function BuildRequest(inputCode: string, model: Option<string>, systemPrompt: Option<string>,
                        jsonMode: Option<bool>, r: real): (body: RequestBody)
    requires 0.0 <= r < 1.0
    ensures body.model == (if model.Some? then model.value else DefaultModel)
    ensures body.jsonMode <==> jsonMode == Some(true)
    ensures body.seed == GenerateSeed(r) && 0 <= body.seed < SeedRange
    ensures |body.messages| == (if Truthy(systemPrompt) then 2 else 1)
    ensures body.messages[|body.messages| - 1] ==
            Message(User, if inputCode != "" then Some(inputCode) else None)
    ensures Truthy(systemPrompt) ==> body.messages[0] == Message(System, systemPrompt)
    ensures forall i :: 0 <= i < |body.messages| ==> (body.messages[i].role == System <==> i == 0 && Truthy(systemPrompt))
  {
    var user := [Message(User, CreatePrompt(inputCode))];
    var messages := if Truthy(systemPrompt) then Unshift(Message(System, systemPrompt), user) else user;
    RequestBody(messages, model.GetOr(DefaultModel), GenerateSeed(r), jsonMode.GetOr(false))
  }

  /**
   * A system prompt only ever adds one message in front: everything else in
   * the body is what the same call without a system prompt builds.
   */
  lemma SystemPromptOnlyPrepends(inputCode: string, model: Option<string>, systemPrompt: Option<string>,
                                 jsonMode: Option<bool>, r: real)
    requires 0.0 <= r < 1.0
    ensures var withSp := BuildRequest(inputCode, model, systemPrompt, jsonMode, r);
            var without := BuildRequest(inputCode, model, None, jsonMode, r);
            withSp == (if Truthy(systemPrompt)
                       then without.(messages := [Message(System, systemPrompt)] + without.messages)
                       else without)
  {
  }

  /**
   * Every seed in [0, 100000) is drawn by some `r`: the bucket of draws in
   * [k/100000, (k+1)/100000) yields seed k.
   */
  lemma EverySeedReachable(k: int)
    requires 0 <= k < SeedRange
    ensures var r := k as real / SeedRange as real;
            0.0 <= r < 1.0 && GenerateSeed(r) == k
  {
  }
}
