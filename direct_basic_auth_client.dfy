/**
 * The direct HTTP Basic authentication client: at initialisation it insists
 * on a non-blank realm, and before every credential extraction it writes the
 * Basic challenge (section 2 of RFC 7617) so that a 401 answer names the realm.
 */
module BasicAuth {
  import opened Wrappers
  import opened JavaStrings
  import opened Web

  const AUTHENTICATE_HEADER := "WWW-Authenticate"
  const DEFAULT_REALM_NAME := "authentication required"
  /** The message of the exception `internalInit` throws for a blank realm. */
  const REALM_NAME_BLANK_MESSAGE := "realmName cannot be blank"

  const CHALLENGE_PREFIX := "Basic realm=\""
  const CHALLENGE_SUFFIX := "\""

  /** The challenge header value; a null realm is rendered as `null`, as Java's string concatenation does. */
  function Challenge(realmName: Option<string>): string {
    CHALLENGE_PREFIX + JavaToString(realmName) + CHALLENGE_SUFFIX
  }

  /** Reads the realm back from a Basic challenge. */
  function RealmOf(challenge: string): Option<string> {
    if |CHALLENGE_PREFIX| + |CHALLENGE_SUFFIX| <= |challenge|
       && StartsWith(challenge, CHALLENGE_PREFIX) && EndsWith(challenge, CHALLENGE_SUFFIX)
    then Some(challenge[|CHALLENGE_PREFIX|..|challenge| - |CHALLENGE_SUFFIX|])
    else None
  }

  /**
   * The challenge carries the configured realm exactly, whatever characters it
   * holds; a null realm reads back as the text `null`.
   */
  lemma ChallengeRoundTrip(realmName: Option<string>)
    ensures RealmOf(Challenge(realmName)) == Some(JavaToString(realmName))
    ensures realmName.Some? ==> RealmOf(Challenge(realmName)) == Some(realmName.value)
  {
    var text := JavaToString(realmName);
    var c := Challenge(realmName);
    assert c[..|CHALLENGE_PREFIX|] == CHALLENGE_PREFIX;
    assert c[|c| - |CHALLENGE_SUFFIX|..] == CHALLENGE_SUFFIX;
    assert c[|CHALLENGE_PREFIX|..|c| - |CHALLENGE_SUFFIX|] == text;
  }

  /** The default realm passes the initialisation check. */
  lemma DefaultRealmIsNotBlank()
    ensures IsNotBlank(Some(DEFAULT_REALM_NAME))
  {
    TrimKeepsTrimmed(DEFAULT_REALM_NAME);
  }

  /** The credentials extractor a client is configured with. */
  datatype ExtractorChoice = BasicAuthExtractor | CustomExtractor(name: string)

  class DirectBasicAuthClient {
    var realmName: Option<string>
    var credentialsExtractor: Option<ExtractorChoice>

    constructor ()
      ensures realmName == Some(DEFAULT_REALM_NAME) && credentialsExtractor == None
    {
      realmName := Some(DEFAULT_REALM_NAME);
      credentialsExtractor := None;
    }

    function GetRealmName(): Option<string>
      reads this
    {
      realmName
    }

    method SetRealmName(realmName: Option<string>)
      modifies this
      ensures this.realmName == realmName && credentialsExtractor == old(credentialsExtractor)
    {
      this.realmName := realmName;
    }

    /**
     * `internalInit`: a blank realm throws and configures nothing; otherwise a
     * Basic-auth extractor becomes the default, kept only if none was configured.
     */
    method InternalInit() returns (outcome: Outcome)
      modifies this
      ensures IsBlank(realmName) ==>
                outcome == Fail(TechnicalError(REALM_NAME_BLANK_MESSAGE))
                && credentialsExtractor == old(credentialsExtractor)
      ensures IsNotBlank(realmName) ==>
                outcome == Pass
                && credentialsExtractor == Some(old(credentialsExtractor).GetOr(BasicAuthExtractor))
      ensures realmName == old(realmName)
    {
      if IsBlank(realmName) {
        return Fail(TechnicalError(REALM_NAME_BLANK_MESSAGE));
      }
      if credentialsExtractor.None? {
        credentialsExtractor := Some(BasicAuthExtractor);
      }
      outcome := Pass;
    }

    /** `addAuthenticateHeader`: the challenge naming the realm, overwriting any earlier one. */
    method AddAuthenticateHeader(context: WebContext)
      modifies context
      ensures context.responseHeaders == old(context.responseHeaders)[AUTHENTICATE_HEADER := Challenge(realmName)]
    {
      context.SetResponseHeader(AUTHENTICATE_HEADER, CHALLENGE_PREFIX + JavaToString(realmName) + CHALLENGE_SUFFIX);
    }

    /**
     * `retrieveCredentials`: writes the challenge, then returns what the
     * inherited extraction returns (`delegated`), so the header is set
     * whether or not credentials were found.
     */
    method RetrieveCredentials(context: WebContext, delegated: Option<Credentials>) returns (credentials: Option<Credentials>)
      modifies context
      ensures context.responseHeaders == old(context.responseHeaders)[AUTHENTICATE_HEADER := Challenge(realmName)]
      ensures credentials == delegated
    {
      AddAuthenticateHeader(context);
      credentials := delegated;
    }
  }
}
