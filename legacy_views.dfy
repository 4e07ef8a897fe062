/**
 * The older signup and token views, api/views.py. Signup has no mismatch
 * pre-check: it hands the payload straight to `get_or_create`, whose
 * IntegrityError on a half-taken username/email pair is not caught. Token
 * exchange reads the code as an integer and checks its decimal text.
 *
 * The review, comment and title viewsets of api/views.py are the same code
 * as those of api/v1/views.py, and the older permission classes decide as
 * the newer ones do (LegacyPermissions), so `Views` models both.
 */
module LegacyViews {
  import opened Wrappers
  import opened UserModel
  import opened Requests
  import opened Catalog
  import opened Numerals
  import Serializers
  import LegacySerializers
  import Views

  const MAIL_SUBJECT: string := "Ваш код для входа в систему"
  const INVALID_CODE: string := "Неверный код подтверждения"

  /**
   * The older `SignUpView.post`: validates the payload, then gets or
   * creates the user. A username and email held by different rows make the
   * insert fail, and the uncaught database error is a 500.
   */
  method SignUp(store: Store, rules: Serializers.FieldRules, tokens: Views.TokenScheme, username: string, email: string)
    returns (r: Result<Views.SignUpData, ApiError>, mail: Option<Views.Mail>)
    requires store.Valid()
    modifies store`users, store`nextId
    ensures store.Valid()
    ensures LegacySerializers.SignUpErrors(rules, username, email) != {} ==>
      r == Err(FieldsInvalid(LegacySerializers.SignUpErrors(rules, username, email)))
    ensures (LegacySerializers.SignUpErrors(rules, username, email) == {} &&
             old(GetOrCreateCase(store.users, username, email)) == Conflict) ==> r == Err(ServerError)
    ensures r.Ok? <==> LegacySerializers.SignUpErrors(rules, username, email) == {} &&
                       old(GetOrCreateCase(store.users, username, email)) != Conflict
    ensures r.Err? ==> mail.None? && store.users == old(store.users) && store.nextId == old(store.nextId)
    ensures r.Ok? ==> r.value == Views.SignUpData(username, email)
    ensures r.Ok? && old(GetOrCreateCase(store.users, username, email)).Existing? ==> store.users == old(store.users)
    ensures r.Ok? && old(GetOrCreateCase(store.users, username, email)).Absent? ==>
      store.users == old(store.users)[old(store.nextId) := NewAccount(username, email)]
    ensures r.Ok? ==> exists id :: (id in store.users && store.users[id].username == username &&
      store.users[id].email == email && mail == Some(Views.Mail(email, MAIL_SUBJECT, tokens.makeToken(id, store.users[id]))))
  {
    mail := None;
    var fieldErrors := LegacySerializers.SignUpErrors(rules, username, email);
    if fieldErrors != {} {
      r := Err(FieldsInvalid(fieldErrors));
      return;
    }
    var got := store.GetOrCreateUser(username, email);
    if got.Err? {
      r := Err(ServerError);
      return;
    }
    var id := got.value.0;
    mail := Some(Views.Mail(email, MAIL_SUBJECT, tokens.makeToken(id, store.users[id])));
    r := Ok(Views.SignUpData(username, email));
  }

  /**
   * The older `VerifyCodeView.post`: validates the payload (the code must
   * be an integer), finds the user by username (404), and checks the
   * decimal text of the parsed integer (400) before issuing a token.
   */
  function VerifyCode(users: map<UserId, Account>, rules: Serializers.FieldRules, tokens: Views.TokenScheme,
                      username: string, code: string): (r: Result<string, ApiError>)
    requires UniqueUsernames(users)
    ensures LegacySerializers.TokenErrors(rules, username, code) != {} ==>
      r == Err(FieldsInvalid(LegacySerializers.TokenErrors(rules, username, code)))
    ensures r == Err(NotFound) <==>
      LegacySerializers.TokenErrors(rules, username, code) == {} && forall id :: id in users ==> users[id].username != username
    ensures r.Ok? <==> LegacySerializers.TokenErrors(rules, username, code) == {} &&
                       Views.CodeChecks(users, tokens, username, DecimalString(ParseInteger(code).value))
    ensures r.Ok? ==> exists id :: id in users && users[id].username == username && r.value == tokens.accessToken(id, users[id])
    ensures r.Err? && r.error.ValidationError? ==> r.error.errors == map[Views.CONFIRMATION_CODE := [INVALID_CODE]]
    ensures (LegacySerializers.TokenErrors(rules, username, code) == {} &&
             (exists id :: id in users && users[id].username == username) &&
             !Views.CodeChecks(users, tokens, username, DecimalString(ParseInteger(code).value))) ==>
      r == Err(ValidationError(map[Views.CONFIRMATION_CODE := [INVALID_CODE]]))
  {
    var fieldErrors := LegacySerializers.TokenErrors(rules, username, code);
    if fieldErrors != {} then Err(FieldsInvalid(fieldErrors))
    else match UserByUsername(users, username)
      case None => Err(NotFound)
      case Some(id) =>
        if tokens.checkToken(id, users[id], DecimalString(ParseInteger(code).value)) then Ok(tokens.accessToken(id, users[id]))
        else Err(ValidationError(map[Views.CONFIRMATION_CODE := [INVALID_CODE]]))
  }

  // ----- findings -----

  /** A row whose username is `username` and whose email is another address. */
  lemma SignUpConflictExample(rules: Serializers.FieldRules)
    ensures var users := map[0 := NewAccount("bob", "bob@example.com")];
      && UniqueUsernames(users) && UniqueEmails(users)
      && GetOrCreateCase(users, "bob", "new@example.com") == Conflict
      && Views.MismatchErrors(UserByUsername(users, "bob"), UserByEmail(users, "new@example.com"))
         == map["username" := [Views.USERNAME_MISMATCH]]
  {
    var users := map[0 := NewAccount("bob", "bob@example.com")];
    assert users[0].username == "bob";
  }

  /**
   * The older signup crashes exactly where the current one answers 400:
   * for every valid payload, the insert conflict of the older view is the
   * mismatch the current view reports.
   */
  lemma SignUpCrashIsV1Mismatch(users: map<UserId, Account>, rules: Serializers.FieldRules, username: string, email: string)
    requires UniqueUsernames(users) && UniqueEmails(users)
    ensures LegacySerializers.SignUpErrors(rules, username, email) == Serializers.SignUpErrors(rules, username, email)
    ensures GetOrCreateCase(users, username, email) == Conflict <==>
            Views.MismatchErrors(UserByUsername(users, username), UserByEmail(users, email)) != map[]
  {
    LegacySerializers.SignUpErrorsAgreeWithV1(rules, username, email);
    Views.ConflictIffLookupsDisagree(users, username, email);
  }

  /**
   * Django's token check only accepts text of the form `<timestamp>-<hash>`
   * with a non-empty timestamp: a `-` somewhere after the first character.
   */
  ghost predicate ChecksNeedTimestamp(tokens: Views.TokenScheme) {
    forall id, a, s :: tokens.checkToken(id, a, s) ==> LegacySerializers.HasInnerDash(s)
  }

  /** The two assumptions about the generator can hold together. */
  lemma TimestampSchemeExists()
    ensures var tokens := Views.TokenScheme((id: UserId, a: Account) => "1-code",
                                            (id: UserId, a: Account, s: string) => s == "1-code",
                                            (id: UserId, a: Account) => "token");
      Views.AcceptsOwnCodes(tokens) && ChecksNeedTimestamp(tokens)
  {
    var tokens := Views.TokenScheme((id: UserId, a: Account) => "1-code",
                                    (id: UserId, a: Account, s: string) => s == "1-code",
                                    (id: UserId, a: Account) => "token");
    assert "1-code"[1] == '-';
    assert LegacySerializers.HasInnerDash("1-code");
  }

  /**
   * With such a generator the older token exchange never issues a token:
   * the text it checks is `str(n)` for an integer `n`, which never holds a
   * `-` after its first character.
   */
  lemma LegacyVerifyCodeNeverIssues(users: map<UserId, Account>, rules: Serializers.FieldRules,
                                    tokens: Views.TokenScheme, username: string, code: string)
    requires UniqueUsernames(users) && ChecksNeedTimestamp(tokens)
    ensures !VerifyCode(users, rules, tokens, username, code).Ok?
  {
    if LegacySerializers.TokenErrors(rules, username, code) == {} {
      var text := DecimalString(ParseInteger(code).value);
      DecimalStringHasNoInnerDash(ParseInteger(code).value);
      assert !LegacySerializers.HasInnerDash(text);
      assert !Views.CodeChecks(users, tokens, username, text);
    }
  }

  /** The code the older signup mails is refused already by the token serializer's integer field. */
  lemma LegacyMailedCodeRefused(users: map<UserId, Account>, rules: Serializers.FieldRules,
                                tokens: Views.TokenScheme, id: UserId)
    requires UniqueUsernames(users) && id in users
    requires Views.AcceptsOwnCodes(tokens) && ChecksNeedTimestamp(tokens)
    ensures var code := tokens.makeToken(id, users[id]);
      "confirmation_code" in LegacySerializers.TokenErrors(rules, users[id].username, code)
  {
    var code := tokens.makeToken(id, users[id]);
    assert tokens.checkToken(id, users[id], code);
    LegacySerializers.InnerDashCodeRefused(rules, users[id].username, code);
  }
}
