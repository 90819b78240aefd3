/** Token request assembly, newer version: a token manager holding a token
    creator and two text gatherers (plain and secret), which fills in a
    missing username or password by asking the matching gatherer, then asks
    the creator for the token once and copies the response. The gatherers and
    the creator are stubs that answer from fixed functions and record every
    call made to them. */
module TokensManager {
  import opened Errors

  const UsernamePrompt: string := "Enter your Fastly username"
  const PasswordPrompt: string := "Enter your Fastly password"

  datatype TokenRequest = TokenRequest(name: string, username: string, password: string, scope: string,
                                       twoFAToken: string, services: seq<string>)

  datatype Token = Token(name: string, id: string, services: seq<string>, accessToken: string)

  /** The zero Token returned alongside every error. */
  const NoToken: Token := Token("", "", [], "")

  datatype CreateTokenInput = CreateTokenInput(name: string, scope: string, username: string, password: string,
                                               services: seq<string>)

  /** The fields of a created token that the manager copies. */
  datatype CreatedToken = CreatedToken(id: string, name: string, services: seq<string>, accessToken: string)

  /** A text gatherer: asks for a line of text with the given prompt,
      answering from a fixed function and recording every prompt. */
  class Gatherer {
    const answer: string -> Result<string>
    var prompts: seq<string>

    constructor (answer: string -> Result<string>)
      ensures this.answer == answer && prompts == []
    {
      this.answer := answer;
      prompts := [];
    }

    method Gather(prompt: string) returns (r: Result<string>)
      modifies this
      ensures prompts == old(prompts) + [prompt] && r == answer(prompt)
    {
      prompts := prompts + [prompt];
      r := answer(prompt);
    }
  }

  /** The token creator, answering from a fixed function and recording
      every request. */
  class Creator {
    const reply: CreateTokenInput -> Result<CreatedToken>
    var requests: seq<CreateTokenInput>

    constructor (reply: CreateTokenInput -> Result<CreatedToken>)
      ensures this.reply == reply && requests == []
    {
      this.reply := reply;
      requests := [];
    }

    method CreateToken(input: CreateTokenInput) returns (r: Result<CreatedToken>)
      modifies this
      ensures requests == old(requests) + [input] && r == reply(input)
    {
      requests := requests + [input];
      r := reply(input);
    }
  }

  /** The value suppliedOrInteractive settles on, given the gatherer's
      answers. */
  function Resolved(initial: string, prompt: string, answer: string -> Result<string>): Result<string>
  {
    if initial != "" then Ok(initial) else answer(prompt)
  }

  /** suppliedOrInteractive: a supplied value is used as it is, and the
      gatherer is not asked; an empty one is asked for once with the prompt,
      and the gatherer's answer or error is passed on untouched. */
  method SuppliedOrInteractive(initial: string, prompt: string, g: Gatherer) returns (r: Result<string>)
    modifies g
    ensures initial != "" ==> r == Ok(initial) && g.prompts == old(g.prompts)
    ensures initial == "" ==> r == g.answer(prompt) && g.prompts == old(g.prompts) + [prompt]
  {
    if initial != "" {
      return Ok(initial);
    }
    r := g.Gather(prompt);
  }

  datatype ManagerOption =
    | WithInput(input: Gatherer)
    | WithSecretInput(input: Gatherer)

  datatype Gatherers = Gatherers(input: Gatherer, secret: Gatherer)

  /** The gatherers after applying `options` in order to `g`. */
  function Configure(options: seq<ManagerOption>, g: Gatherers): Gatherers
  {
    if options == [] then g
    else
      var prev := Configure(options[..|options| - 1], g);
      match options[|options| - 1]
      case WithInput(input) => prev.(input := input)
      case WithSecretInput(input) => prev.(secret := input)
  }

  /** A later WithInput overrides an earlier one and the default. */
  lemma {:induction false} LastWithInputWins(options: seq<ManagerOption>, g: Gatherers, i: nat)
    requires i < |options| && options[i].WithInput?
    requires forall j :: i < j < |options| ==> !options[j].WithInput?
    ensures Configure(options, g).input == options[i].input
  {
    if i < |options| - 1 {
      var init := options[..|options| - 1];
      assert init[i] == options[i];
      LastWithInputWins(init, g, i);
    }
  }

  /** A later WithSecretInput overrides an earlier one and the default. */
  lemma {:induction false} LastWithSecretInputWins(options: seq<ManagerOption>, g: Gatherers, i: nat)
    requires i < |options| && options[i].WithSecretInput?
    requires forall j :: i < j < |options| ==> !options[j].WithSecretInput?
    ensures Configure(options, g).secret == options[i].input
  {
    if i < |options| - 1 {
      var init := options[..|options| - 1];
      assert init[i] == options[i];
      LastWithSecretInputWins(init, g, i);
    }
  }

  /** Without a WithInput option the default plain gatherer stays. */
  lemma {:induction false} DefaultInputWithoutOption(options: seq<ManagerOption>, g: Gatherers)
    requires forall j :: 0 <= j < |options| ==> !options[j].WithInput?
    ensures Configure(options, g).input == g.input
  {
    if options != [] {
      var init := options[..|options| - 1];
      assert forall j :: 0 <= j < |init| ==> init[j] == options[j];
      DefaultInputWithoutOption(init, g);
    }
  }

  /** What one AddToken does: the token and error it returns, the prompts
      it puts to the plain and to the secret gatherer, and the create
      requests it makes, in order. */
  datatype AddRun = AddRun(token: Token, err: Option<Error>, inputPrompts: seq<string>, secretPrompts: seq<string>,
                           created: seq<CreateTokenInput>)

  /** The prompt suppliedOrInteractive puts to its gatherer, if any. */
  function Asked(initial: string, prompt: string): seq<string>
  {
    if initial == "" then [prompt] else []
  }

  /** AddToken as a value: the username is resolved through the plain
      gatherer, then the password through the secret one, each gatherer error
      ending the run with the zero token; then one create request with the
      request's name, scope and services and the resolved credentials. */
  function AddTokenRun(req: TokenRequest, input: string -> Result<string>, secret: string -> Result<string>,
                       reply: CreateTokenInput -> Result<CreatedToken>): AddRun
  {
    var askUser := Asked(req.username, UsernamePrompt);
    match Resolved(req.username, UsernamePrompt, input)
    case Err(e) => AddRun(NoToken, Some(e), askUser, [], [])
    case Ok(username) =>
      var askPassword := Asked(req.password, PasswordPrompt);
      match Resolved(req.password, PasswordPrompt, secret)
      case Err(e) => AddRun(NoToken, Some(e), askUser, askPassword, [])
      case Ok(password) =>
        var tokenInput := CreateTokenInput(req.name, req.scope, username, password, req.services);
        match reply(tokenInput)
        case Err(e) => AddRun(NoToken, Some(e), askUser, askPassword, [tokenInput])
        case Ok(resp) => AddRun(Token(resp.name, resp.id, resp.services, resp.accessToken), None, askUser, askPassword, [tokenInput])
  }

  /** The plain gatherer is asked for the username, once, exactly when it is
      missing; the secret gatherer is asked for the password, once, exactly
      when it is missing and the username came through; nothing else is
      asked. */
  lemma AsksOnlyForMissingFields(req: TokenRequest, input: string -> Result<string>, secret: string -> Result<string>,
                                 reply: CreateTokenInput -> Result<CreatedToken>)
    ensures var run := AddTokenRun(req, input, secret, reply);
            && (req.username == "" ==> run.inputPrompts == [UsernamePrompt])
            && (req.username != "" ==> run.inputPrompts == [])
            && (req.password == "" && Resolved(req.username, UsernamePrompt, input).Ok? ==>
                  run.secretPrompts == [PasswordPrompt])
            && (req.password != "" || Resolved(req.username, UsernamePrompt, input).Err? ==>
                  run.secretPrompts == [])
  {
  }

  /** A gatherer error comes back unchanged, with the zero token, and no
      token is requested. */
  lemma GathererErrorStops(req: TokenRequest, input: string -> Result<string>, secret: string -> Result<string>,
                           reply: CreateTokenInput -> Result<CreatedToken>)
    ensures var run := AddTokenRun(req, input, secret, reply);
            (req.username == "" && input(UsernamePrompt).Err?) ||
            (Resolved(req.username, UsernamePrompt, input).Ok? && req.password == "" && secret(PasswordPrompt).Err?)
            <==> run.created == []
    ensures var run := AddTokenRun(req, input, secret, reply);
            run.created == [] ==> run.token == NoToken && run.err.Some?
    ensures var run := AddTokenRun(req, input, secret, reply);
            req.username == "" && input(UsernamePrompt).Err? ==> run.err == Some(input(UsernamePrompt).error)
    ensures var run := AddTokenRun(req, input, secret, reply);
            Resolved(req.username, UsernamePrompt, input).Ok? && req.password == "" && secret(PasswordPrompt).Err? ==>
              run.err == Some(secret(PasswordPrompt).error)
  {
  }

  /** When every needed answer came back, the token is requested exactly
      once, with the request's name, scope and services and with each
      credential as supplied or else as answered. A create error comes back
      with the zero token; otherwise the four response fields are copied. */
  lemma CreatesOnceAndCopiesResponse(req: TokenRequest, input: string -> Result<string>, secret: string -> Result<string>,
                                     reply: CreateTokenInput -> Result<CreatedToken>)
    requires Resolved(req.username, UsernamePrompt, input).Ok?
    requires Resolved(req.password, PasswordPrompt, secret).Ok?
    ensures var run := AddTokenRun(req, input, secret, reply);
            var username := if req.username != "" then req.username else input(UsernamePrompt).value;
            var password := if req.password != "" then req.password else secret(PasswordPrompt).value;
            var tokenInput := CreateTokenInput(req.name, req.scope, username, password, req.services);
            && run.created == [tokenInput]
            && (reply(tokenInput).Err? ==> run.token == NoToken && run.err == Some(reply(tokenInput).error))
            && (reply(tokenInput).Ok? ==>
                  var resp := reply(tokenInput).value;
                  run.err == None && run.token == Token(resp.name, resp.id, resp.services, resp.accessToken))
  {
  }

  class TokenManager {
    const client: Creator
    var input: Gatherer
    var inputSecret: Gatherer

    /** Manager: the terminal's plain and secret readers are the defaults
        (passed in here), then the options are applied in order. */
    constructor (client: Creator, terminalInput: Gatherer, terminalSecret: Gatherer, options: seq<ManagerOption>)
      ensures this.client == client
      ensures Gatherers(input, inputSecret) == Configure(options, Gatherers(terminalInput, terminalSecret))
    {
      this.client := client;
      input, inputSecret := terminalInput, terminalSecret;
      new;
      var i := 0;
      while i < |options|
        invariant 0 <= i <= |options|
        invariant Gatherers(input, inputSecret) == Configure(options[..i], Gatherers(terminalInput, terminalSecret))
      {
        assert options[..i + 1][..i] == options[..i];
        match options[i] {
          case WithInput(g) => input := g;
          case WithSecretInput(g) => inputSecret := g;
        }
        i := i + 1;
      }
      assert options[..|options|] == options;
    }

    /** AddToken, as AddTokenRun describes: the token and error it returns,
        the prompts each gatherer records and the requests the creator
        records are the run's. When one gatherer serves as both, it records
        the username prompt before the password prompt. */
    method AddToken(req: TokenRequest) returns (token: Token, err: Option<Error>)
      modifies input, inputSecret, client
      ensures var run := AddTokenRun(req, input.answer, inputSecret.answer, client.reply);
              && token == run.token && err == run.err
              && client.requests == old(client.requests) + run.created
              && (input != inputSecret ==>
                    && input.prompts == old(input.prompts) + run.inputPrompts
                    && inputSecret.prompts == old(inputSecret.prompts) + run.secretPrompts)
              && (input == inputSecret ==>
                    input.prompts == old(input.prompts) + run.inputPrompts + run.secretPrompts)
    {
      var tokenInput := CreateTokenInput(req.name, req.scope, req.username, req.password, req.services);
      var username := SuppliedOrInteractive(req.username, UsernamePrompt, input);
      if username.Err? {
        return NoToken, Some(username.error);
      }
      tokenInput := tokenInput.(username := username.value);
      var password := SuppliedOrInteractive(req.password, PasswordPrompt, inputSecret);
      if password.Err? {
        return NoToken, Some(password.error);
      }
      tokenInput := tokenInput.(password := password.value);
      var resp := client.CreateToken(tokenInput);
      if resp.Err? {
        return NoToken, Some(resp.error);
      }
      token := Token(resp.value.name, resp.value.id, resp.value.services, resp.value.accessToken);
      err := None;
    }
  }
}
