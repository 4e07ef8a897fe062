/**
 * The older serializers, api/serializers.py. They differ from the current
 * ones in three places: the username validator is the older copy, the
 * token serializer reads `confirmation_code` as an integer, and
 * `ReviewSerializer.validate` looks the title up for every method. The
 * self-update serializer (read-only role) is the same as the current one.
 */
module LegacySerializers {
  import opened Wrappers
  import opened UserModel
  import opened Requests
  import opened Catalog
  import opened Numerals
  import Serializers
  import LegacyValidators

  /** The `username` CharField, with the older `validate_username`. */
  predicate UsernameFieldValid(rules: Serializers.FieldRules, u: string) {
    && u != ""
    && |u| <= rules.maxUsernameLength
    && Serializers.NoNullChars(u)
    && Serializers.UsernameCharsValid(rules, u)
    && LegacyValidators.ValidateUsername(u).Ok?
  }

  /** The two username fields accept exactly the same values. */
  lemma UsernameFieldAgreesWithV1(rules: Serializers.FieldRules, u: string)
    ensures UsernameFieldValid(rules, u) <==> Serializers.UsernameFieldValid(rules, u)
  {
    LegacyValidators.SameVerdictAsValidators(u);
  }

  /** `ConfirmationCodeSerializer`. */
  function SignUpErrors(rules: Serializers.FieldRules, username: string, email: string): (fields: set<string>)
    ensures "username" in fields <==> !UsernameFieldValid(rules, username)
    ensures "email" in fields <==> !Serializers.EmailFieldValid(rules, email)
    ensures fields <= {"username", "email"}
  {
    (if UsernameFieldValid(rules, username) then {} else {"username"}) +
    (if Serializers.EmailFieldValid(rules, email) then {} else {"email"})
  }

  /** Both signup serializers report the same fields for every payload. */
  lemma SignUpErrorsAgreeWithV1(rules: Serializers.FieldRules, username: string, email: string)
    ensures SignUpErrors(rules, username, email) == Serializers.SignUpErrors(rules, username, email)
  {
    UsernameFieldAgreesWithV1(rules, username);
    var older := SignUpErrors(rules, username, email);
    var newer := Serializers.SignUpErrors(rules, username, email);
    assert forall f :: f in older <==> f in newer;
  }

  /** `TokenSerializer`: the username field, and a `confirmation_code` IntegerField. */
  function TokenErrors(rules: Serializers.FieldRules, username: string, code: string): (fields: set<string>)
    ensures "username" in fields <==> !UsernameFieldValid(rules, username)
    ensures "confirmation_code" in fields <==> ParseInteger(code).None?
    ensures fields <= {"username", "confirmation_code"}
  {
    (if UsernameFieldValid(rules, username) then {} else {"username"}) +
    (if ParseInteger(code).Some? then {} else {"confirmation_code"})
  }

  /** `code` holds a `-` after its first character, as a `<timestamp>-<hash>` token does. */
  predicate HasInnerDash(code: string) {
    exists i :: 0 < i < |code| && code[i] == '-'
  }

  /** A code with a `-` after its first character is not an integer, so the field refuses it. */
  lemma InnerDashCodeRefused(rules: Serializers.FieldRules, username: string, code: string)
    requires HasInnerDash(code)
    ensures "confirmation_code" in TokenErrors(rules, username, code)
  {
    var i :| 0 < i < |code| && code[i] == '-';
    if |code| > 0 && (code[0] == '-' || code[0] == '+') {
      assert code[1..][i - 1] == '-';
      assert !IsDigit(code[1..][i - 1]);
    } else {
      assert !IsDigit(code[i]);
    }
  }

  /** The older serializer refuses the reserved name too. */
  lemma ReservedNameRefused(rules: Serializers.FieldRules, email: string, code: string)
    ensures "username" in SignUpErrors(rules, "me", email)
    ensures "username" in TokenErrors(rules, "me", code)
  {
  }

  const ONE_REVIEW_MESSAGE: string := "Можно оставить только один отзыв!"

  /**
   * The older `ReviewSerializer.validate`: the title in the URL must exist
   * whatever the method (404), and a POST must not repeat a review.
   */
  function ValidateReview(m: Method, author: UserId, titleId: Id, titles: map<Id, Title>,
                          reviews: map<Id, Review>, data: Serializers.ReviewInput)
    : (r: Result<Serializers.ReviewInput, ApiError>)
    ensures r.Ok? ==> r.value == data
    ensures titleId !in titles ==> r == Err(NotFound)
    ensures titleId in titles && m != POST ==> r.Ok?
    ensures m == POST ==> (r.Ok? <==> titleId in titles && !HasReviewBy(reviews, titleId, author))
    ensures r.Err? && titleId in titles ==>
      r.error == ValidationError(map[Serializers.NON_FIELD_ERRORS := [ONE_REVIEW_MESSAGE]])
  {
    if titleId !in titles then Err(NotFound)
    else if m == POST && HasReviewBy(reviews, titleId, author) then
      Err(ValidationError(map[Serializers.NON_FIELD_ERRORS := [ONE_REVIEW_MESSAGE]]))
    else Ok(data)
  }

  /**
   * The two revisions accept the same payloads on a POST and on any title
   * that exists; they part only on a non-POST request for a missing title,
   * which the viewset's own lookup has already answered with 404.
   */
  lemma ValidateReviewAgreesWithV1(m: Method, author: UserId, titleId: Id, titles: map<Id, Title>,
                                   reviews: map<Id, Review>, data: Serializers.ReviewInput)
    ensures m == POST || titleId in titles ==>
      (ValidateReview(m, author, titleId, titles, reviews, data).Ok? <==>
       Serializers.ValidateReview(m, author, titleId, titles, reviews, data).Ok?)
    ensures m != POST && titleId !in titles ==>
      ValidateReview(m, author, titleId, titles, reviews, data) == Err(NotFound) &&
      Serializers.ValidateReview(m, author, titleId, titles, reviews, data) == Ok(data)
  {
  }
}
