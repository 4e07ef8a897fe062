/**
 * The serializers of api/v1/serializers.py: field validation of the signup,
 * token, review, comment and self-update payloads, the review uniqueness
 * re-check of `ReviewSerializer.validate`, the slug resolution of
 * `TitleWriteSerializer`, the read-only role of `UpdateUserYamDbSerializer`,
 * and the integer rendering of a title's rating.
 */
module Serializers {
  import opened Wrappers
  import opened UserModel
  import opened Requests
  import opened Catalog
  import Validators

  /**
   * What the framework's field classes decide that the model takes as given:
   * the maximum lengths from the settings, the word-character class of
   * `UnicodeUsernameValidator`, and `EmailValidator`.
   */
  datatype FieldRules = FieldRules(
    maxUsernameLength: nat,
    maxEmailLength: nat,
    isWordChar: char -> bool,
    emailValid: string -> bool)

  /** `max_length` of `first_name` and `last_name` on Django's user model. */
  const NAME_MAX_LENGTH: nat := 150

  /** `max_length` of the user model's `email`, the EmailField default. */
  const MODEL_EMAIL_MAX_LENGTH: nat := 254

  /**
   * `ProhibitNullCharactersValidator`, which every CharField (and so every
   * EmailField) of the framework runs: the text holds no U+0000.
   */
  predicate NoNullChars(s: string) {
    forall i :: 0 <= i < |s| ==> s[i] != '\0'
  }

  /** `UnicodeUsernameValidator`: one or more word characters, `.`, `@`, `+` or `-`. */
  predicate UsernameCharsValid(rules: FieldRules, s: string) {
    |s| > 0 && forall i :: 0 <= i < |s| ==> rules.isWordChar(s[i]) || s[i] in ".@+-"
  }

  /** The `username` CharField of the signup and token serializers. */
  predicate UsernameFieldValid(rules: FieldRules, u: string) {
    && u != ""
    && |u| <= rules.maxUsernameLength
    && NoNullChars(u)
    && UsernameCharsValid(rules, u)
    && Validators.ValidateUsername(u).Ok?
  }

  /** An EmailField with the signup serializer's `max_length`. */
  predicate EmailFieldValid(rules: FieldRules, e: string) {
    e != "" && |e| <= rules.maxEmailLength && NoNullChars(e) && rules.emailValid(e)
  }

  /** The fields whose value fails its field's validation: `ConfirmationCodeSerializer`. */
  function SignUpErrors(rules: FieldRules, username: string, email: string): (fields: set<string>)
    ensures "username" in fields <==> !UsernameFieldValid(rules, username)
    ensures "email" in fields <==> !EmailFieldValid(rules, email)
    ensures fields <= {"username", "email"}
  {
    (if UsernameFieldValid(rules, username) then {} else {"username"}) +
    (if EmailFieldValid(rules, email) then {} else {"email"})
  }

  /** `TokenSerializer`: the username field as above, and a non-blank `confirmation_code` CharField. */
  function TokenErrors(rules: FieldRules, username: string, code: string): (fields: set<string>)
    ensures "username" in fields <==> !UsernameFieldValid(rules, username)
    ensures "confirmation_code" in fields <==> code == "" || exists i :: 0 <= i < |code| && code[i] == '\0'
    ensures fields <= {"username", "confirmation_code"}
  {
    (if UsernameFieldValid(rules, username) then {} else {"username"}) +
    (if code != "" && NoNullChars(code) then {} else {"confirmation_code"})
  }

  /** Both serializers refuse the reserved name, whatever the framework's own rules are. */
  lemma ReservedNameRefused(rules: FieldRules, email: string, code: string)
    ensures "username" in SignUpErrors(rules, Validators.RESERVED_USERNAME, email)
    ensures "username" in TokenErrors(rules, Validators.RESERVED_USERNAME, code)
  {
  }

  /** An accepted username is never longer than the configured maximum, and never the reserved name. */
  lemma AcceptedUsernameBounded(rules: FieldRules, username: string, email: string)
    requires SignUpErrors(rules, username, email) == {}
    ensures 0 < |username| <= rules.maxUsernameLength
    ensures username != Validators.RESERVED_USERNAME
    ensures EmailFieldValid(rules, email)
  {
    assert "username" !in SignUpErrors(rules, username, email);
    assert "email" !in SignUpErrors(rules, username, email);
    Validators.OnlyExactMeIsRefused();
  }

  // ----- reviews and comments -----

  /** The writable fields of a review payload; a field left out of a PATCH is `None`. */
  datatype ReviewInput = ReviewInput(text: Option<string>, score: Option<int>)

  /** A text field that must not be blank: the CharField a model TextField becomes. */
  predicate TextFieldValid(t: string) {
    t != "" && NoNullChars(t)
  }

  /**
   * Field validation of `ReviewSerializer`: `text` is a non-blank text, and
   * `score` carries the model field's bounds. A missing field is an error
   * unless the update is partial.
   */
  function ReviewFieldErrors(input: ReviewInput, partial: bool): (fields: set<string>)
    ensures "text" in fields <==>
      (if input.text.Some? then input.text.value == "" || '\0' in input.text.value else !partial)
    ensures "score" in fields <==> (if input.score.Some? then !ScoreInRange(input.score.value) else !partial)
    ensures fields <= {"text", "score"}
  {
    (if input.text.Some? then (if !TextFieldValid(input.text.value) then {"text"} else {})
     else if partial then {} else {"text"}) +
    (if input.score.Some? then (if ScoreInRange(input.score.value) then {} else {"score"})
     else if partial then {} else {"score"})
  }

  /** A full payload that passes field validation carries both fields, with the score in range. */
  lemma ValidFullReviewInput(input: ReviewInput)
    requires ReviewFieldErrors(input, false) == {}
    ensures input.text.Some? && input.text.value != "" && '\0' !in input.text.value
    ensures input.score.Some? && ScoreInRange(input.score.value)
  {
    assert "text" !in ReviewFieldErrors(input, false);
    assert "score" !in ReviewFieldErrors(input, false);
  }

  /** The message `validate` raises; the framework files it under `non_field_errors`. */
  const ONE_REVIEW_MESSAGE: string := "You can only leave one review!"
  const NON_FIELD_ERRORS: string := "non_field_errors"

  /**
   * `ReviewSerializer.validate`: requests other than POST pass untouched;
   * a POST needs the addressed title to exist (404 otherwise) and no review
   * of it by the requester yet.
   */
  function ValidateReview(m: Method, author: UserId, titleId: Id, titles: map<Id, Title>,
                          reviews: map<Id, Review>, data: ReviewInput): (r: Result<ReviewInput, ApiError>)
    ensures r.Ok? ==> r.value == data
    ensures m != POST ==> r.Ok?
    ensures m == POST ==> (r.Ok? <==> titleId in titles && !HasReviewBy(reviews, titleId, author))
    ensures r.Err? && titleId !in titles ==> r.error == NotFound
    ensures r.Err? && titleId in titles ==> r.error == ValidationError(map[NON_FIELD_ERRORS := [ONE_REVIEW_MESSAGE]])
  {
    if m != POST then Ok(data)
    else if titleId !in titles then Err(NotFound)
    else if HasReviewBy(reviews, titleId, author) then Err(ValidationError(map[NON_FIELD_ERRORS := [ONE_REVIEW_MESSAGE]]))
    else Ok(data)
  }

  /** A review that passed POST validation can be added without breaking the one-review rule. */
  lemma ValidatedReviewKeepsOneReviewPerAuthor(author: UserId, titleId: Id, titles: map<Id, Title>,
                                               reviews: map<Id, Review>, data: ReviewInput, k: Id, rv: Review)
    requires OneReviewPerAuthor(reviews) && k !in reviews
    requires ValidateReview(POST, author, titleId, titles, reviews, data).Ok?
    requires rv.title == titleId && rv.author == author
    ensures OneReviewPerAuthor(reviews[k := rv])
  {
    assert forall i :: i in reviews ==> !(reviews[i].title == titleId && reviews[i].author == author);
  }

  /** `CommentSerializer`: `text` is a non-blank text, required unless the update is partial. */
  function CommentFieldErrors(text: Option<string>, partial: bool): (fields: set<string>)
    ensures "text" in fields <==> (if text.Some? then text.value == "" || '\0' in text.value else !partial)
    ensures fields <= {"text"}
  {
    if text.Some? then (if !TextFieldValid(text.value) then {"text"} else {})
    else if partial then {} else {"text"}
  }

  // ----- titles -----

  /** `slug` names a row of `m`. */
  predicate SlugResolves(m: map<Id, Slugged>, slug: string) {
    exists id :: id in m && m[id].slug == slug
  }

  /** Every slug in `slugs` names a row of `m`. */
  predicate SlugsResolve(m: map<Id, Slugged>, slugs: seq<string>) {
    forall i :: 0 <= i < |slugs| ==> SlugResolves(m, slugs[i])
  }

  /** The rows of `m` whose slug is listed in `slugs`. */
  function RowsWithSlugs(m: map<Id, Slugged>, slugs: seq<string>): (ids: set<Id>)
    ensures forall id :: id in ids <==> id in m && m[id].slug in slugs
  {
    set id | id in m && m[id].slug in slugs
  }

  /**
   * The `category` and `genre` SlugRelatedFields of `TitleWriteSerializer`:
   * the category row with the given slug, and the genre rows with the listed
   * slugs; a slug that names no row fails its field.
   */
  function ResolveTitleRelations(categories: map<Id, Slugged>, genres: map<Id, Slugged>,
                                 categorySlug: string, genreSlugs: seq<string>): (r: Result<(Id, set<Id>), ApiError>)
    requires UniqueSlugs(categories) && UniqueSlugs(genres)
    ensures r.Ok? <==> SlugResolves(categories, categorySlug) && SlugsResolve(genres, genreSlugs)
    ensures r.Ok? ==> r.value.0 in categories && categories[r.value.0].slug == categorySlug
    ensures r.Ok? ==> forall g :: g in r.value.1 <==> g in genres && genres[g].slug in genreSlugs
    ensures r.Err? ==> r.error.FieldsInvalid? && r.error.fields != {} && r.error.fields <= {"category", "genre"}
    ensures r.Err? ==> ("category" in r.error.fields <==> !SlugResolves(categories, categorySlug))
    ensures r.Err? ==> ("genre" in r.error.fields <==> !SlugsResolve(genres, genreSlugs))
  {
    var category := BySlug(categories, categorySlug);
    if category.Some? && SlugsResolve(genres, genreSlugs) then
      Ok((category.value, RowsWithSlugs(genres, genreSlugs)))
    else
      Err(FieldsInvalid(
        (if category.Some? then {} else {"category"}) +
        (if SlugsResolve(genres, genreSlugs) then {} else {"genre"})))
  }

  /** The slugs of the resolved genre rows are exactly the slugs that were listed. */
  lemma ResolvedGenresMatchSlugs(categories: map<Id, Slugged>, genres: map<Id, Slugged>,
                                 categorySlug: string, genreSlugs: seq<string>)
    requires UniqueSlugs(categories) && UniqueSlugs(genres)
    requires ResolveTitleRelations(categories, genres, categorySlug, genreSlugs).Ok?
    ensures var ids := ResolveTitleRelations(categories, genres, categorySlug, genreSlugs).value.1;
      (set g | g in ids && g in genres :: genres[g].slug) == (set s | s in genreSlugs)
  {
    var ids := ResolveTitleRelations(categories, genres, categorySlug, genreSlugs).value.1;
    var shown := set g | g in ids && g in genres :: genres[g].slug;
    forall s | s in genreSlugs ensures s in shown {
      var i :| 0 <= i < |genreSlugs| && genreSlugs[i] == s;
      assert SlugResolves(genres, genreSlugs[i]);
      var g :| g in genres && genres[g].slug == s;
      assert g in ids;
    }
  }

  /**
   * `rating = IntegerField(...)` on the read serializer: the mean is sent as
   * `int(value)`, which truncates toward zero; a missing mean stays null.
   */
  function RatingField(mean: Option<real>): (shown: Option<int>)
    ensures shown.None? <==> mean.None?
    ensures shown.Some? && mean.value >= 0.0 ==> shown.value as real <= mean.value < shown.value as real + 1.0
    ensures shown.Some? && mean.value < 0.0 ==> shown.value as real - 1.0 < mean.value <= shown.value as real
  {
    if mean.None? then None
    else if mean.value >= 0.0 then Some(mean.value.Floor)
    else Some(-((-mean.value).Floor))
  }

  // ----- the current user's profile -----

  /** The writable fields of a PATCH on the current user; `role` may be sent but is read-only. */
  datatype ProfilePatch = ProfilePatch(
    username: Option<string>,
    email: Option<string>,
    firstName: Option<string>,
    lastName: Option<string>,
    bio: Option<string>,
    role: Option<string>)

  /**
   * The model fields as the model serializer checks a value sent for them:
   * username and email with their field rules and uniqueness against the
   * other rows, the names within their maximum length, and no U+0000 in any
   * of them (bio included). A field not sent is not checked.
   */
  predicate ProfileFieldValid(rules: FieldRules, users: map<UserId, Account>, self: UserId, field: string, p: ProfilePatch) {
    match field
    case "username" =>
      p.username.Some? ==>
        UsernameFieldValid(rules, p.username.value) &&
        forall j :: j in users && j != self ==> users[j].username != p.username.value
    case "email" =>
      p.email.Some? ==>
        p.email.value != "" && |p.email.value| <= MODEL_EMAIL_MAX_LENGTH && NoNullChars(p.email.value) &&
        rules.emailValid(p.email.value) &&
        forall j :: j in users && j != self ==> users[j].email != p.email.value
    case "first_name" => p.firstName.Some? ==> |p.firstName.value| <= NAME_MAX_LENGTH && NoNullChars(p.firstName.value)
    case "last_name" => p.lastName.Some? ==> |p.lastName.value| <= NAME_MAX_LENGTH && NoNullChars(p.lastName.value)
    case "bio" => p.bio.Some? ==> NoNullChars(p.bio.value)
    case _ => true
  }

  /** The fields of the profile serializer that the model checks. */
  const PROFILE_FIELDS: set<string> := {"username", "email", "first_name", "last_name", "bio"}

  /**
   * Partial validation of `UpdateUserYamDbSerializer`: the fields sent that
   * fail, checked against the other users of the table.
   */
  function ProfileErrors(rules: FieldRules, users: map<UserId, Account>, self: UserId, p: ProfilePatch): (fields: set<string>)
    ensures fields <= PROFILE_FIELDS
    ensures "username" in fields <==>
      (p.username.Some? &&
       (!UsernameFieldValid(rules, p.username.value) ||
        exists j :: j in users && j != self && users[j].username == p.username.value))
    ensures "email" in fields <==>
      (p.email.Some? &&
       (p.email.value == "" || |p.email.value| > MODEL_EMAIL_MAX_LENGTH || '\0' in p.email.value ||
        !rules.emailValid(p.email.value) ||
        exists j :: j in users && j != self && users[j].email == p.email.value))
    ensures "first_name" in fields <==>
      (p.firstName.Some? && (|p.firstName.value| > NAME_MAX_LENGTH || '\0' in p.firstName.value))
    ensures "last_name" in fields <==>
      (p.lastName.Some? && (|p.lastName.value| > NAME_MAX_LENGTH || '\0' in p.lastName.value))
    ensures "bio" in fields <==> p.bio.Some? && '\0' in p.bio.value
    ensures p == ProfilePatch(None, None, None, None, None, p.role) ==> fields == {}
  {
    set f | f in PROFILE_FIELDS && !ProfileFieldValid(rules, users, self, f, p)
  }

  function Patched(current: string, sent: Option<string>): string {
    if sent.Some? then sent.value else current
  }

  /**
   * `save()` of a validated partial update: each field sent replaces the
   * stored one, except `role`, which the serializer declares read-only.
   */
  function ApplyProfilePatch(a: Account, p: ProfilePatch): (b: Account)
    ensures b.role == a.role && b.isSuperuser == a.isSuperuser && b.isStaff == a.isStaff
    ensures b.confirmationCode == a.confirmationCode
    ensures p.username.Some? ==> b.username == p.username.value
    ensures p.username.None? ==> b.username == a.username
    ensures p.email.Some? ==> b.email == p.email.value
    ensures p.email.None? ==> b.email == a.email
    ensures p.firstName.Some? ==> b.firstName == p.firstName.value
    ensures p.firstName.None? ==> b.firstName == a.firstName
    ensures p.lastName.Some? ==> b.lastName == p.lastName.value
    ensures p.lastName.None? ==> b.lastName == a.lastName
    ensures p.bio.Some? ==> b.bio == p.bio.value
    ensures p.bio.None? ==> b.bio == a.bio
  {
    a.(username := Patched(a.username, p.username), email := Patched(a.email, p.email),
       firstName := Patched(a.firstName, p.firstName), lastName := Patched(a.lastName, p.lastName),
       bio := Patched(a.bio, p.bio))
  }

  /** A self-update never changes what the caller may do: the three role tests keep their value. */
  lemma SelfUpdateKeepsPrivileges(a: Account, p: ProfilePatch)
    ensures IsAdmin(ApplyProfilePatch(a, p)) == IsAdmin(a)
    ensures IsModerator(ApplyProfilePatch(a, p)) == IsModerator(a)
    ensures IsUser(ApplyProfilePatch(a, p)) == IsUser(a)
  {
  }

  /** Sending a role in the patch has no effect at all: the result is the one without it. */
  lemma RoleInPatchIgnored(a: Account, p: ProfilePatch)
    ensures ApplyProfilePatch(a, p) == ApplyProfilePatch(a, p.(role := None))
  {
  }

  /** Applying the same patch twice is the same as applying it once. */
  lemma ApplyProfilePatchIdempotent(a: Account, p: ProfilePatch)
    ensures ApplyProfilePatch(ApplyProfilePatch(a, p), p) == ApplyProfilePatch(a, p)
  {
  }
}
