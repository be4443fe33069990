/** The answers of the account service that the device flow trusts: the value types of
    ios/App/AccountSettingsDTO.swift. */
module AccountAnswers {
  import opened Options

  datatype Account = Account(githubID: Option<nat>, login: string)

  datatype Authentication = SignedOut | Unverified | VerifiedLogin(login: string) | Unsupported

  datatype AccountStatus = AccountStatus(
    schemaVersion: int, authState: string, account: Option<Account>, identityState: string)
  {
    function Authentication(): Authentication {
      if schemaVersion != 1 then Unsupported
      else if authState == "signed_out" && identityState == "unresolved" && account.None? then SignedOut
      else if authState == "unverified" && identityState == "unresolved" && account.None? then Unverified
      else if authState == "signed_in" && identityState == "verified_login_only"
              && account.Some? && account.value.githubID.None? && ValidLogin(account.value.login)
      then VerifiedLogin(account.value.login)
      else Unsupported
    }
  }

  predicate LoginCharacter(c: char) {
    'A' <= c <= 'Z' || 'a' <= c <= 'z' || '0' <= c <= '9' || c == '-'
  }

  predicate ValidLogin(login: string) {
    0 < |login| <= 39 && forall i | 0 <= i < |login| :: LoginCharacter(login[i])
  }

  predicate HexDigit(c: char) {
    '0' <= c <= '9' || 'a' <= c <= 'f'
  }

  // A version 4 UUID of the RFC 4122 variant, in its lower-case text form.
  predicate RandomUuid(s: string) {
    |s| == 36
    && (forall i | 0 <= i < 36 :: if i in {8, 13, 18, 23} then s[i] == '-' else HexDigit(s[i]))
    && s[14] == '4' && s[19] in {'8', '9', 'a', 'b'}
  }

  const VERIFICATION_URL := "https://github.com/login/device"

  datatype AccountAuthorization = AccountAuthorization(
    authorizationSessionID: string, userCode: string, verificationURL: string, expiresIn: int, interval: int)
  {
    predicate Valid() {
      RandomUuid(authorizationSessionID)
      && verificationURL == VERIFICATION_URL
      && 0 < |userCode| <= 64 && (forall i | 0 <= i < |userCode| :: LoginCharacter(userCode[i]))
      && 1 <= expiresIn <= 3600 && 1 <= interval <= expiresIn
    }
  }

  datatype PollResponse = PollResponse(status: string, slowDown: Option<bool>)

  // One settled request. `Thrown` is a transport error; a reply is raw data, seen here only through
  // what each decoder makes of it (None: that decoder throws). `state` is the account status nested
  // in a poll reply.
  datatype Answer =
    | Thrown
    | Reply(status: Option<AccountStatus>, authorization: Option<AccountAuthorization>,
            poll: Option<PollResponse>, state: Option<AccountStatus>, cancelled: Option<bool>)
}
