/**
 * User accounts: the email address check, the printable-character filter,
 * and the error selection and salted-hash comparison of `join`, `log_in` and
 * `get_account`. The database lookups and SHA-256 are function parameters.
 */
module Users {
  import opened Wrappers
  import opened Config
  import PyText

  datatype Account = Account(id: nat, emailAddress: string, password: string, salt: string)

  /** `hashlib.sha256(text.encode("utf-8")).hexdigest()`. */
  type Hash = string -> string

  /** The stored password: the hash of the password's hash followed by the salt. */
  function SaltedHash(sha: Hash, password: string, salt: string): string
  {
    sha(sha(password) + salt)
  }

  // ---------------------------------------------------------------------------
  // The email address
  // ---------------------------------------------------------------------------

  /** Membership in Python's `string.printable`. */
  predicate InStringPrintable(c: char)
  {
    (' ' <= c <= '~') || c == '\t' || c == '\n' || c == '\r' || c == '\U{0b}' || c == '\U{0c}'
  }

  /** The email filter of `join` and `log_in`: keep the characters in `string.printable`. */
  function PrintableOnly(s: string): (r: string)
    ensures forall c :: c in r ==> InStringPrintable(c)
  {
    PyText.Filter(s, InStringPrintable)
  }

  lemma PrintableOnlyFilter(s: string)
    ensures PyText.IsSubsequence(PrintableOnly(s), s)
    ensures PrintableOnly(PrintableOnly(s)) == PrintableOnly(s)
  {
    PyText.FilterIsSubsequence(s, InStringPrintable);
    PyText.FilterIdempotent(s, InStringPrintable);
  }

  /** The domain has a '.' that is neither its first nor its last character. */
  predicate HasInnerDot(d: string)
  {
    exists k :: 0 < k < |d| - 1 && d[k] == '.'
  }

  /** `User.email_valid`: non-empty, one '@' after a non-empty local part, an inner '.' in the domain. */
  function EmailValid(s: string): bool
  {
    match PyText.FindChar(s, '@')
    case None => false
    case Some(at) => at > 0 && '@' !in s[at + 1..] && HasInnerDot(s[at + 1..])
  }

  /** Full match of the address pattern: non-empty '@'-free runs around one '@' and a later '.'. */
  ghost predicate MatchesEmailPattern(s: string)
  {
    exists at, dot :: 0 < at && at + 1 < dot && dot + 1 < |s| && s[at] == '@' && s[dot] == '.'
      && '@' !in s[..at] && '@' !in s[at + 1..dot] && '@' !in s[dot + 1..]
  }

  lemma EmailValidMatchesPattern(s: string)
    ensures EmailValid(s) <==> MatchesEmailPattern(s)
    ensures s == "" ==> !EmailValid(s)
  {
    if EmailValid(s) {
      EmailValidHasPattern(s);
    }
    if MatchesEmailPattern(s) {
      var at, dot :| 0 < at && at + 1 < dot && dot + 1 < |s| && s[at] == '@' && s[dot] == '.'
        && '@' !in s[..at] && '@' !in s[at + 1..dot] && '@' !in s[dot + 1..];
      PatternIsEmailValid(s, at, dot);
    }
  }

  lemma EmailValidHasPattern(s: string)
    requires EmailValid(s)
    ensures MatchesEmailPattern(s)
  {
    var at := PyText.FindChar(s, '@').value;
    var d := s[at + 1..];
    var k :| 0 < k < |d| - 1 && d[k] == '.';
    var dot := at + 1 + k;
    assert s[dot] == '.';
    assert s[at + 1..dot] == d[..k];
    assert s[dot + 1..] == d[k + 1..];
    assert '@' !in d[..k] && '@' !in d[k + 1..] by {
      assert forall c :: c in d[..k] ==> c in d;
      assert forall c :: c in d[k + 1..] ==> c in d;
    }
  }

  lemma PatternIsEmailValid(s: string, at: nat, dot: nat)
    requires 0 < at && at + 1 < dot && dot + 1 < |s| && s[at] == '@' && s[dot] == '.'
    requires '@' !in s[..at] && '@' !in s[at + 1..dot] && '@' !in s[dot + 1..]
    ensures EmailValid(s)
  {
    var found := PyText.FindChar(s, '@');
    assert found == Some(at);
    var d := s[at + 1..];
    assert d == s[at + 1..dot] + ['.'] + s[dot + 1..];
    assert d[dot - at - 1] == '.';
  }

  // ---------------------------------------------------------------------------
  // join and log_in
  // ---------------------------------------------------------------------------

  /** The address `join` and `log_in` work with: the filtered text, or "" when absent. */
  function CleanEmail(email: Option<string>): string
  {
    if email.Some? && email.value != "" then PrintableOnly(email.value) else ""
  }

  predicate Missing(s: Option<string>)
  {
    s.None? || s.value == ""
  }

  /** A refusal: the response status, the `error_code` in its body, and the message. */
  datatype Refusal = Refusal(status: ResponseStatus, code: ResponseStatus, message: string)

  datatype JoinResult =
    | JoinRefused(refusal: Refusal)
    | Joined(emailAddress: string, password: string, salt: string)  // the row `User.create` stores

  function MissingParameter(emailMessage: string, emailMissing: bool): Refusal
  {
    Refusal(BadRequest, BadRequest, "Invalid or missing parameter"
      + (if emailMissing then emailMessage else ": 'password' must be a non-empty string."))
  }

  /** `join`: `existing` is `User.get_by_email`, `salt` what `generate_salt` returned. */
  function Join(email: Option<string>, password: Option<string>, existing: string -> Option<Account>,
                salt: string, sha: Hash): (r: JoinResult)
    ensures r.Joined? <==>
      CleanEmail(email) != "" && !Missing(password) && EmailValid(CleanEmail(email)) && existing(CleanEmail(email)).None?
    ensures r.Joined? ==>
      r.emailAddress == CleanEmail(email) && r.salt == salt && r.password == SaltedHash(sha, password.value, salt)
    ensures CleanEmail(email) == "" ==>
      r == JoinRefused(MissingParameter(": 'email_address' must be a non-empty string.", true))
    ensures CleanEmail(email) != "" && Missing(password) ==>
      r == JoinRefused(MissingParameter(": 'email_address' must be a non-empty string.", false))
    ensures CleanEmail(email) != "" && !Missing(password) && !EmailValid(CleanEmail(email)) ==>
      r == JoinRefused(Refusal(BadRequest, EmailFormatInvalid, "Email address format is invalid."))
    ensures (CleanEmail(email) != "" && !Missing(password) && EmailValid(CleanEmail(email))
             && existing(CleanEmail(email)).Some?) ==> r.JoinRefused? && r.refusal.code == EmailInUse
    ensures r.JoinRefused? ==> r.refusal.status == BadRequest
  {
    var e := CleanEmail(email);
    if e == "" || Missing(password) then
      JoinRefused(MissingParameter(": 'email_address' must be a non-empty string.", e == ""))
    else if !EmailValid(e) then
      JoinRefused(Refusal(BadRequest, EmailFormatInvalid, "Email address format is invalid."))
    else if existing(e).Some? then
      JoinRefused(Refusal(BadRequest, EmailInUse, "An account already exists for this email address."))
    else Joined(e, SaltedHash(sha, password.value, salt), salt)
  }

  datatype LogInResult = LogInRefused(refusal: Refusal) | LoggedIn(account: Account)

  /** `log_in`: `lookup` is `User.get_by_email`. */
  function LogIn(email: Option<string>, password: Option<string>, lookup: string -> Option<Account>,
                 sha: Hash): (r: LogInResult)
    ensures r.LoggedIn? <==>
      CleanEmail(email) != "" && !Missing(password) && lookup(CleanEmail(email)).Some?
      && SaltedHash(sha, password.value, lookup(CleanEmail(email)).value.salt) == lookup(CleanEmail(email)).value.password
    ensures r.LoggedIn? ==> lookup(CleanEmail(email)) == Some(r.account)
    ensures r.LogInRefused? ==> r.refusal.status == BadRequest
    ensures CleanEmail(email) == "" ==>
      r == LogInRefused(MissingParameter(": 'email_address' must be an ASCII non-empty string.", true))
    ensures CleanEmail(email) != "" && Missing(password) ==>
      r == LogInRefused(MissingParameter(": 'email_address' must be an ASCII non-empty string.", false))
    ensures r.LogInRefused? && CleanEmail(email) != "" && !Missing(password) ==>
      r.refusal == Refusal(BadRequest, CredentialsInvalid, "Entered email/password is incorrect.")
  {
    var e := CleanEmail(email);
    var wrong := Refusal(BadRequest, CredentialsInvalid, "Entered email/password is incorrect.");
    if e == "" || Missing(password) then
      LogInRefused(MissingParameter(": 'email_address' must be an ASCII non-empty string.", e == ""))
    else match lookup(e)
      case None => LogInRefused(wrong)
      case Some(account) =>
        if SaltedHash(sha, password.value, account.salt) == account.password then LoggedIn(account)
        else LogInRefused(wrong)
  }

  /**
   * Once `join` has stored its row, logging in with the same password
   * succeeds, whether the address is typed as before or as stored.
   */
  lemma JoinThenLogIn(email: Option<string>, password: Option<string>, existing: string -> Option<Account>,
                      salt: string, sha: Hash, id: nat, lookup: string -> Option<Account>)
    requires Join(email, password, existing, salt, sha).Joined?
    requires var j := Join(email, password, existing, salt, sha);
      lookup(j.emailAddress) == Some(Account(id, j.emailAddress, j.password, j.salt))
    ensures var j := Join(email, password, existing, salt, sha);
      && LogIn(email, password, lookup, sha) == LoggedIn(Account(id, j.emailAddress, j.password, j.salt))
      && LogIn(Some(j.emailAddress), password, lookup, sha) == LoggedIn(Account(id, j.emailAddress, j.password, j.salt))
  {
    var e := CleanEmail(email);
    PrintableOnlyFilter(email.value);
    assert CleanEmail(Some(e)) == e;
  }

  // ---------------------------------------------------------------------------
  // get_account
  // ---------------------------------------------------------------------------

  /** The `account_id` argument after parsing: absent, non-integer and non-positive ids are `None`. */
  function AccountIdArg(raw: Option<string>): (r: Option<nat>)
    ensures r.Some? ==> r.value > 0 && raw.Some? && PyText.ParseInt(raw.value) == Some(r.value as int)
    ensures raw.Some? && PyText.ParseInt(raw.value).Some? && PyText.ParseInt(raw.value).value > 0 ==>
      r == Some(PyText.ParseInt(raw.value).value as nat)
  {
    if Missing(raw) then None
    else match PyText.ParseInt(raw.value)
      case Some(n) => if n <= 0 then None else Some(n as nat)
      case None => None
  }

  const NoAccountKeyMessage: string :=
    "Invalid or missing parameter: 'email_address' must be a non-empty string or 'account_id' must be a positive, non-zero integer."

  datatype AccountLookup = LookupRefused(refusal: Refusal) | Found(account: Account)

  /** `get_account`: `byId` and `byEmail` are `User.get_by_id` and `User.get_by_email`. */
  function GetAccount(email: Option<string>, accountId: Option<string>,
                      byId: nat -> Option<Account>, byEmail: string -> Option<Account>): (r: AccountLookup)
    ensures Missing(email) && AccountIdArg(accountId).None? ==>
      r.LookupRefused? && r.refusal.status == BadRequest && r.refusal.code == BadRequest
    ensures AccountIdArg(accountId).Some? ==>
      r == (match byId(AccountIdArg(accountId).value)
            case Some(a) => Found(a)
            case None => LookupRefused(Refusal(NotFound, UserNotFound, "No user account exists for this ID.")))
    ensures !Missing(email) && AccountIdArg(accountId).None? && !EmailValid(email.value) ==>
      r == LookupRefused(Refusal(BadRequest, EmailFormatInvalid, "Email_address format is invalid."))
    ensures !Missing(email) && AccountIdArg(accountId).None? && EmailValid(email.value) ==>
      r == (match byEmail(email.value)
            case Some(a) => Found(a)
            case None => LookupRefused(Refusal(NotFound, UserNotFound, "No user account exists for this ID.")))
    ensures r.LookupRefused? && r.refusal.code == UserNotFound ==> r.refusal.status == NotFound
    ensures r.Found? ==> byId(AccountIdArg(accountId).GetOr(0)) == Some(r.account) || byEmail(email.GetOr("")) == Some(r.account)
  {
    var id := AccountIdArg(accountId);
    if Missing(email) && id.None? then
      LookupRefused(Refusal(BadRequest, BadRequest, NoAccountKeyMessage))
    else
      var found: Option<Option<Account>> :=
        if id.Some? then Some(byId(id.value))
        else if EmailValid(email.value) then Some(byEmail(email.value))
        else None;
      match found
      case None => LookupRefused(Refusal(BadRequest, EmailFormatInvalid, "Email_address format is invalid."))
      case Some(None) => LookupRefused(Refusal(NotFound, UserNotFound, "No user account exists for this ID."))
      case Some(Some(a)) => Found(a)
  }
}
