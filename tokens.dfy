/** Token request assembly, older version: missing credentials are read from
    the terminal (the password and the 2FA token through its secret reader),
    a 2FA token is only asked for when the request requires one, and the
    token is created once through the API extension. The terminal and the
    API are stubs that answer from fixed functions and record every call. */
module Tokens {
  import opened Errors

  const UsernamePrompt: string := "Enter your Fastly username :"
  const PasswordPrompt: string := "Enter your Fastly password :"
  const TwoFAPrompt: string := "Enter your Fastly 2FA :"
  const ReadContext: string := "error reading value"

  datatype TokenRequest = TokenRequest(name: string, username: string, password: string, scope: string,
                                       twoFAToken: string, requireTwoFAToken: bool, services: seq<string>)

  datatype Token = Token(name: string, id: string, services: seq<string>, accessToken: string)

  /** The zero Token returned alongside every error. */
  const NoToken: Token := Token("", "", [], "")

  datatype CreateTokenInput = CreateTokenInput(name: string, password: string, twoFAToken: string,
                                               services: seq<string>, scope: string, username: string)

  /** The fields of a created token that AddToken copies. */
  datatype CreatedToken = CreatedToken(id: string, name: string, services: seq<string>, accessToken: string)

  /** One terminal read: which reader (secret: no echo), and the prompt. */
  datatype Read = Read(secret: bool, prompt: string)

  /** The terminal: a plain and a secret reader answering from fixed
      functions, recording every read in order. */
  class Terminal {
    const inputReply: string -> Result<string>
    const secretReply: string -> Result<string>
    var readLog: seq<Read>

    constructor (inputReply: string -> Result<string>, secretReply: string -> Result<string>)
      ensures this.inputReply == inputReply && this.secretReply == secretReply && readLog == []
    {
      this.inputReply := inputReply;
      this.secretReply := secretReply;
      readLog := [];
    }

    method GetInput(prompt: string) returns (r: Result<string>)
      modifies this
      ensures readLog == old(readLog) + [Read(false, prompt)] && r == inputReply(prompt)
    {
      readLog := readLog + [Read(false, prompt)];
      r := inputReply(prompt);
    }

    method GetInputSecret(prompt: string) returns (r: Result<string>)
      modifies this
      ensures readLog == old(readLog) + [Read(true, prompt)] && r == secretReply(prompt)
    {
      readLog := readLog + [Read(true, prompt)];
      r := secretReply(prompt);
    }
  }

  /** The token creation call of the API extension, answering from a fixed
      function and recording every request. */
  class TokenAPI {
    const reply: CreateTokenInput -> Result<CreatedToken>
    var requests: seq<CreateTokenInput>

    constructor (reply: CreateTokenInput -> Result<CreatedToken>)
      ensures this.reply == reply && requests == []
    {
      this.reply := reply;
      requests := [];
    }

    method CreateToken(input: CreateTokenInput) returns (r: Result<CreatedToken>)
      modifies this
      ensures requests == old(requests) + [input] && r == reply(input)
    {
      requests := requests + [input];
      r := reply(input);
    }
  }

  /** The value suppliedOrInteractive settles on, given the readers'
      answers. */
  function Resolved(input: string, prompt: string, secret: bool,
                    inputReply: string -> Result<string>, secretReply: string -> Result<string>): Result<string>
  {
    if input != "" then Ok(input)
    else
      match (if secret then secretReply(prompt) else inputReply(prompt))
      case Err(e) => Err(Wrapped(ReadContext, e))
      case Ok(value) => Ok(value)
  }

  /** The reader's answer to a read. */
  function Answer(r: Read, inputReply: string -> Result<string>, secretReply: string -> Result<string>): Result<string>
  {
    if r.secret then secretReply(r.prompt) else inputReply(r.prompt)
  }

  /** The read suppliedOrInteractive makes, if any. */
  function Reads(input: string, prompt: string, secret: bool): seq<Read>
  {
    if input == "" then [Read(secret, prompt)] else []
  }

  /** suppliedOrInteractive: a supplied value is used as it is, and nothing
      is read; an empty one is read once, with the secret reader when
      `secret` holds and the plain one otherwise, and a read error comes
      back wrapped. */
  method SuppliedOrInteractive(input: string, prompt: string, secret: bool, term: Terminal) returns (r: Result<string>)
    modifies term
    ensures input != "" ==> r == Ok(input) && term.readLog == old(term.readLog)
    ensures input == "" ==>
              var answer := if secret then term.secretReply(prompt) else term.inputReply(prompt);
              && term.readLog == old(term.readLog) + [Read(secret, prompt)]
              && (answer.Ok? ==> r == answer)
              && (answer.Err? ==> r == Err(Wrapped(ReadContext, answer.error)))
  {
    if input != "" {
      return Ok(input);
    }
    var answer;
    if secret {
      answer := term.GetInputSecret(prompt);
    } else {
      answer := term.GetInput(prompt);
    }
    if answer.Err? {
      return Err(Wrapped(ReadContext, answer.error));
    }
    return Ok(answer.value);
  }

  /** What one AddToken does: the token and error it returns, the terminal
      reads it makes and the create requests it sends, in order. */
  datatype AddRun = AddRun(token: Token, err: Option<Error>, asked: seq<Read>, created: seq<CreateTokenInput>)

  /** AddToken as a value: username (plain), password (secret), then, only
      when the request requires it, the 2FA token (secret); any read error
      ends the run with the zero token; then one create request. */
  function AddTokenRun(req: TokenRequest, inputReply: string -> Result<string>, secretReply: string -> Result<string>,
                       create: CreateTokenInput -> Result<CreatedToken>): AddRun
  {
    var asked := Reads(req.username, UsernamePrompt, false);
    match Resolved(req.username, UsernamePrompt, false, inputReply, secretReply)
    case Err(e) => AddRun(NoToken, Some(e), asked, [])
    case Ok(username) =>
      var asked := asked + Reads(req.password, PasswordPrompt, true);
      match Resolved(req.password, PasswordPrompt, true, inputReply, secretReply)
      case Err(e) => AddRun(NoToken, Some(e), asked, [])
      case Ok(password) =>
        var asked := asked + (if req.requireTwoFAToken then Reads(req.twoFAToken, TwoFAPrompt, true) else []);
        var twoFA := if req.requireTwoFAToken then Resolved(req.twoFAToken, TwoFAPrompt, true, inputReply, secretReply)
                     else Ok(req.twoFAToken);
        match twoFA
        case Err(e) => AddRun(NoToken, Some(e), asked, [])
        case Ok(token) =>
          var input := CreateTokenInput(req.name, password, token, req.services, req.scope, username);
          match create(input)
          case Err(e) => AddRun(NoToken, Some(e), asked, [input])
          case Ok(resp) => AddRun(Token(resp.name, resp.id, resp.services, resp.accessToken), None, asked, [input])
  }

  /** The 2FA token is read, with the secret reader, only when the request
      requires one and did not supply it, and then it is read as soon as the
      username and the password are at hand. A required token is sent as
      supplied or else as read; when none is required the request's own
      value is sent unchanged. */
  lemma TwoFAOnlyWhenRequired(req: TokenRequest, inputReply: string -> Result<string>,
                              secretReply: string -> Result<string>, create: CreateTokenInput -> Result<CreatedToken>)
    ensures var run := AddTokenRun(req, inputReply, secretReply, create);
            (Read(true, TwoFAPrompt) in run.asked) ==> req.requireTwoFAToken && req.twoFAToken == ""
    ensures var run := AddTokenRun(req, inputReply, secretReply, create);
            && req.requireTwoFAToken && req.twoFAToken == ""
            && Resolved(req.username, UsernamePrompt, false, inputReply, secretReply).Ok?
            && Resolved(req.password, PasswordPrompt, true, inputReply, secretReply).Ok?
            ==> |run.asked| > 0 && run.asked[|run.asked| - 1] == Read(true, TwoFAPrompt)
    ensures var run := AddTokenRun(req, inputReply, secretReply, create);
            !req.requireTwoFAToken && run.created != [] ==> run.created[0].twoFAToken == req.twoFAToken
    ensures var run := AddTokenRun(req, inputReply, secretReply, create);
            req.requireTwoFAToken && run.created != [] ==>
              && (req.twoFAToken != "" ==> run.created[0].twoFAToken == req.twoFAToken)
              && (req.twoFAToken == "" ==> secretReply(TwoFAPrompt) == Ok(run.created[0].twoFAToken))
  {
    var run := AddTokenRun(req, inputReply, secretReply, create);
    assert Read(true, TwoFAPrompt) != Read(true, PasswordPrompt);
    assert Read(true, TwoFAPrompt) != Read(false, UsernamePrompt);
  }

  /** The username is read with the plain reader and the password with the
      secret one, each only when missing; no more reads are made than there
      are missing fields, and all of them when the token is requested. */
  lemma ReadsMatchMissingFields(req: TokenRequest, inputReply: string -> Result<string>,
                                secretReply: string -> Result<string>, create: CreateTokenInput -> Result<CreatedToken>)
    ensures var run := AddTokenRun(req, inputReply, secretReply, create);
            var missing := (if req.username == "" then 1 else 0) + (if req.password == "" then 1 else 0) +
                           (if req.requireTwoFAToken && req.twoFAToken == "" then 1 else 0);
            && |run.asked| <= missing
            && (run.created != [] ==> |run.asked| == missing)
            && (req.username == "" ==> run.asked[0] == Read(false, UsernamePrompt))
            && (req.username != "" ==> Read(false, UsernamePrompt) !in run.asked)
            && (req.password != "" ==> Read(true, PasswordPrompt) !in run.asked)
            && (forall r :: r in run.asked ==> (r.secret <==> r.prompt != UsernamePrompt))
  {
  }

  /** When no token is requested, reading stopped at the first read that
      failed: every earlier read succeeded, and the failed read's error comes
      back wrapped. */
  lemma ReadsStopAtFirstFailure(req: TokenRequest, inputReply: string -> Result<string>,
                                secretReply: string -> Result<string>, create: CreateTokenInput -> Result<CreatedToken>)
    ensures var run := AddTokenRun(req, inputReply, secretReply, create);
            run.created == [] ==>
              && |run.asked| > 0
              && (forall i :: 0 <= i < |run.asked| - 1 ==> Answer(run.asked[i], inputReply, secretReply).Ok?)
              && Answer(run.asked[|run.asked| - 1], inputReply, secretReply).Err?
              && run.err == Some(Wrapped(ReadContext, Answer(run.asked[|run.asked| - 1], inputReply, secretReply).error))
  {
    var user := Resolved(req.username, UsernamePrompt, false, inputReply, secretReply);
    var password := Resolved(req.password, PasswordPrompt, true, inputReply, secretReply);
    var userReads := Reads(req.username, UsernamePrompt, false);
    var passwordReads := Reads(req.password, PasswordPrompt, true);
    if user.Ok? && password.Ok? && req.requireTwoFAToken {
      assert user.Ok? ==> forall r :: r in userReads ==> Answer(r, inputReply, secretReply).Ok?;
      assert password.Ok? ==> forall r :: r in passwordReads ==> Answer(r, inputReply, secretReply).Ok?;
    } else if user.Ok? && !req.requireTwoFAToken {
      assert forall r :: r in userReads ==> Answer(r, inputReply, secretReply).Ok?;
    }
  }

  /** Any read error, like a create error, comes back with the zero token,
      and a create error comes back unchanged;
      with every value at hand the token is created exactly once from the
      request's name, scope and services and the resolved credentials, and a
      successful response has its four fields copied. */
  lemma CreatesOnceAndCopiesResponse(req: TokenRequest, inputReply: string -> Result<string>,
                                     secretReply: string -> Result<string>, create: CreateTokenInput -> Result<CreatedToken>)
    ensures var run := AddTokenRun(req, inputReply, secretReply, create);
            && |run.created| <= 1
            && (run.err.Some? ==> run.token == NoToken)
            && (run.err == None <==> run.created != [] && create(run.created[0]).Ok?)
            && (run.created != [] && create(run.created[0]).Err? ==> run.err == Some(create(run.created[0]).error))
            && (run.created != [] ==>
                  var input := run.created[0];
                  && input.name == req.name && input.scope == req.scope && input.services == req.services
                  && Resolved(req.username, UsernamePrompt, false, inputReply, secretReply) == Ok(input.username)
                  && Resolved(req.password, PasswordPrompt, true, inputReply, secretReply) == Ok(input.password)
                  && (create(input).Ok? ==>
                        var resp := create(input).value;
                        run.token == Token(resp.name, resp.id, resp.services, resp.accessToken)))
  {
  }

  /** AddToken, as AddTokenRun describes: the token and error it returns,
      the reads it makes on the terminal and the requests it sends to the
      API are the run's. */
  method AddToken(req: TokenRequest, term: Terminal, api: TokenAPI) returns (token: Token, err: Option<Error>)
    modifies term, api
    ensures var run := AddTokenRun(req, term.inputReply, term.secretReply, api.reply);
            && token == run.token && err == run.err
            && term.readLog == old(term.readLog) + run.asked
            && api.requests == old(api.requests) + run.created
  {
    var tokenInput := CreateTokenInput(req.name, req.password, req.twoFAToken, req.services, req.scope, "");
    var username := SuppliedOrInteractive(req.username, UsernamePrompt, false, term);
    if username.Err? {
      return NoToken, Some(username.error);
    }
    tokenInput := tokenInput.(username := username.value);
    var password := SuppliedOrInteractive(req.password, PasswordPrompt, true, term);
    if password.Err? {
      return NoToken, Some(password.error);
    }
    tokenInput := tokenInput.(password := password.value);
    if req.requireTwoFAToken {
      var twoFA := SuppliedOrInteractive(req.twoFAToken, TwoFAPrompt, true, term);
      if twoFA.Err? {
        return NoToken, Some(twoFA.error);
      }
      tokenInput := tokenInput.(twoFAToken := twoFA.value);
    }
    var resp := api.CreateToken(tokenInput);
    if resp.Err? {
      return NoToken, Some(resp.error);
    }
    token := Token(resp.value.name, resp.value.id, resp.value.services, resp.value.accessToken);
    err := None;
  }
}
