/** Parsing the token scope given on the command line. The four scopes the
    API knows are "global", "purge_select", "purge_all" and "global:read";
    the command's flag defaults to "global". */
module TokenScopes {
  import opened Errors

  type TokenScope = string

  const GlobalScope: TokenScope := "global"
  const PurgeSelectScope: TokenScope := "purge_select"
  const PurgeAllScope: TokenScope := "purge_all"
  const GlobalReadScope: TokenScope := "global:read"

  /** The default value of the command's token-scope flag. */
  const DefaultScopeFlag: string := "global"

  predicate IsKnownScope(str: string)
  {
    str == GlobalScope || str == PurgeSelectScope || str == PurgeAllScope || str == GlobalReadScope
  }

  /** stringToTokenScope as written: each of the first three cases has an
      empty body and, as a Go switch does not fall through, leaves the switch
      for the error; only global:read is accepted. The scope is returned on
      both paths. */
  function StringToTokenScope(str: string): (r: (TokenScope, Option<Error>))
    ensures r.0 == str
    ensures r.1 == None <==> str == GlobalReadScope
    ensures r.1 != None ==> r.1 == Some(InvalidTokenScope(str))
  {
    var potential: TokenScope := str;
    if potential == GlobalScope then (potential, Some(InvalidTokenScope(str)))
    else if potential == PurgeSelectScope then (potential, Some(InvalidTokenScope(str)))
    else if potential == PurgeAllScope then (potential, Some(InvalidTokenScope(str)))
    else if potential == GlobalReadScope then (potential, None)
    else (potential, Some(InvalidTokenScope(str)))
  }

  /** The discrepancy: the command's own default scope, and every known
      scope but global:read, is refused. */
  lemma DefaultScopeIsRefused()
    ensures StringToTokenScope(DefaultScopeFlag).1 == Some(InvalidTokenScope(DefaultScopeFlag))
    ensures forall str :: IsKnownScope(str) && str != GlobalReadScope ==> StringToTokenScope(str).1.Some?
  {
  }

  /** The evidently intended check: each of the four known scopes is
      accepted, anything else refused, and the scope is returned either way. */
  function StringToTokenScopeIntended(str: string): (r: (TokenScope, Option<Error>))
    ensures r.0 == str
    ensures r.1 == None <==> IsKnownScope(str)
    ensures r.1 != None ==> r.1 == Some(InvalidTokenScope(str))
  {
    var potential: TokenScope := str;
    if potential == GlobalScope || potential == PurgeSelectScope || potential == PurgeAllScope
       || potential == GlobalReadScope
    then (potential, None)
    else (potential, Some(InvalidTokenScope(str)))
  }

  /** The intended check accepts the command's default scope and agrees with
      the written one wherever the written one accepts. */
  lemma IntendedAcceptsDefault()
    ensures StringToTokenScopeIntended(DefaultScopeFlag).1 == None
    ensures forall str :: StringToTokenScope(str).1 == None ==> StringToTokenScopeIntended(str).1 == None
  {
  }
}
