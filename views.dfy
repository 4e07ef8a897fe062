/**
 * The views of api/v1/views.py: signup and token exchange over the user
 * table, the review and comment viewsets (their lookups under the title in
 * the URL and their create, partial update and destroy actions), the title
 * create and destroy actions, and the current user's profile.
 *
 * Every action first runs the viewset's permission classes, then the
 * serializer, then the store; a refusal is the framework's 401 for an
 * anonymous caller and 403 for an authenticated one.
 */
module Views {
  import opened Wrappers
  import opened UserModel
  import opened Requests
  import opened Catalog
  import opened Permissions
  import opened Serializers

  // ----- signup and token exchange -----

  /**
   * `default_token_generator` and `AccessToken.for_user`, taken as given:
   * a one-time code made for a user row, the check of such a code, and the
   * access token issued for a user row.
   */
  datatype TokenScheme = TokenScheme(
    makeToken: (UserId, Account) -> string,
    checkToken: (UserId, Account, string) -> bool,
    accessToken: (UserId, Account) -> string)

  /** The one thing the model assumes of the generator: a code made for a row checks for that row. */
  ghost predicate AcceptsOwnCodes(tokens: TokenScheme) {
    forall id, a :: tokens.checkToken(id, a, tokens.makeToken(id, a))
  }

  /** A message handed to the mail backend; delivery failures are silenced, so sending never fails. */
  datatype Mail = Mail(recipient: string, subject: string, body: string)

  const MAIL_SUBJECT: string := "Your login code"
  const EMAIL_MISMATCH: string := "The email field does not match username"
  const USERNAME_MISMATCH: string := "The username field does not match the email"
  const INVALID_CODE: string := "Invalid confirmation code"
  const CONFIRMATION_CODE: string := "confirmation_code"

  /** The validated signup payload, which is also the response body. */
  datatype SignUpData = SignUpData(username: string, email: string)

  /**
   * The signup pre-check: the user owning the username and the user owning
   * the email must be the same row, or both absent; otherwise each field
   * that points at a row of its own is reported.
   */
  function MismatchErrors(byUsername: Option<UserId>, byEmail: Option<UserId>): (errors: map<string, seq<string>>)
    ensures errors == map[] <==> byUsername == byEmail
    ensures "email" in errors <==> byUsername != byEmail && byEmail.Some?
    ensures "username" in errors <==> byUsername != byEmail && byUsername.Some?
    ensures "email" in errors ==> errors["email"] == [EMAIL_MISMATCH]
    ensures "username" in errors ==> errors["username"] == [USERNAME_MISMATCH]
    ensures errors.Keys <= {"username", "email"}
  {
    var errors :=
      if byUsername == byEmail then map[]
      else if byUsername.None? then map["email" := [EMAIL_MISMATCH]]
      else if byEmail.None? then map["username" := [USERNAME_MISMATCH]]
      else map["username" := [USERNAME_MISMATCH], "email" := [EMAIL_MISMATCH]];
    assert byUsername != byEmail ==> "email" in errors || "username" in errors;
    errors
  }

  /**
   * The pre-check refuses exactly the payloads on which `get_or_create`
   * would hit a unique constraint: the lookups disagree precisely when one
   * value belongs to a row that does not hold the other.
   */
  lemma ConflictIffLookupsDisagree(users: map<UserId, Account>, username: string, email: string)
    requires UniqueUsernames(users) && UniqueEmails(users)
    ensures GetOrCreateCase(users, username, email) == Conflict <==>
            UserByUsername(users, username) != UserByEmail(users, email)
  {
    var byName := UserByUsername(users, username);
    var byEmail := UserByEmail(users, email);
    if byName.Some? && byEmail.Some? && byName == byEmail {
      assert users[byName.value].username == username && users[byName.value].email == email;
    }
    if byName.Some? && users[byName.value].email == email {
      assert byEmail == byName;
    }
  }

  /**
   * `SignUpView.post`: validates the payload, refuses a username and email
   * owned by different rows, then gets or creates the user and mails it a
   * fresh code. The response echoes the payload, never the code.
   */
  method SignUp(store: Store, rules: FieldRules, tokens: TokenScheme, username: string, email: string)
    returns (r: Result<SignUpData, ApiError>, mail: Option<Mail>)
    requires store.Valid()
    modifies store`users, store`nextId
    ensures store.Valid()
    ensures SignUpErrors(rules, username, email) != {} ==> r == Err(FieldsInvalid(SignUpErrors(rules, username, email)))
    ensures SignUpErrors(rules, username, email) == {} ==>
      var errors := old(MismatchErrors(UserByUsername(store.users, username), UserByEmail(store.users, email)));
      errors != map[] ==> r == Err(ValidationError(errors))
    ensures r.Ok? <==> SignUpErrors(rules, username, email) == {} &&
                       old(UserByUsername(store.users, username) == UserByEmail(store.users, email))
    ensures r.Err? ==> mail.None? && store.users == old(store.users) && store.nextId == old(store.nextId)
    ensures r.Err? ==> r.error.FieldsInvalid? || r.error.ValidationError?
    ensures r.Ok? ==> r.value == SignUpData(username, email)
    ensures r.Ok? && old(UserByUsername(store.users, username)).Some? ==> store.users == old(store.users)
    ensures r.Ok? && old(UserByUsername(store.users, username)).None? ==>
      store.users == old(store.users)[old(store.nextId) := NewAccount(username, email)]
    ensures r.Ok? ==> exists id :: (id in store.users && store.users[id].username == username &&
      store.users[id].email == email && mail == Some(Mail(email, MAIL_SUBJECT, tokens.makeToken(id, store.users[id]))))
  {
    mail := None;
    var fieldErrors := SignUpErrors(rules, username, email);
    if fieldErrors != {} {
      r := Err(FieldsInvalid(fieldErrors));
      return;
    }
    var byUsername := UserByUsername(store.users, username);
    var byEmail := UserByEmail(store.users, email);
    var mismatch := MismatchErrors(byUsername, byEmail);
    if mismatch != map[] {
      r := Err(ValidationError(mismatch));
      return;
    }
    ConflictIffLookupsDisagree(store.users, username, email);
    var got := store.GetOrCreateUser(username, email);
    if got.Err? {
      assert false;
      r := Err(ServerError);
      return;
    }
    var id := got.value.0;
    mail := Some(Mail(email, MAIL_SUBJECT, tokens.makeToken(id, store.users[id])));
    r := Ok(SignUpData(username, email));
  }

  /** A user row named `username` whose code check passes for `code`. */
  ghost predicate CodeChecks(users: map<UserId, Account>, tokens: TokenScheme, username: string, code: string) {
    exists id :: id in users && users[id].username == username && tokens.checkToken(id, users[id], code)
  }

  /**
   * `VerifyCodeView.post`: validates the payload, finds the user by
   * username (404), checks the code (400) and issues an access token.
   * It changes nothing.
   */
  function VerifyCode(users: map<UserId, Account>, rules: FieldRules, tokens: TokenScheme,
                      username: string, code: string): (r: Result<string, ApiError>)
    requires UniqueUsernames(users)
    ensures TokenErrors(rules, username, code) != {} ==> r == Err(FieldsInvalid(TokenErrors(rules, username, code)))
    ensures r == Err(NotFound) <==>
      TokenErrors(rules, username, code) == {} && forall id :: id in users ==> users[id].username != username
    ensures r.Ok? <==> TokenErrors(rules, username, code) == {} && CodeChecks(users, tokens, username, code)
    ensures r.Ok? ==> exists id :: id in users && users[id].username == username && r.value == tokens.accessToken(id, users[id])
    ensures r.Err? && r.error.ValidationError? ==> r.error.errors == map[CONFIRMATION_CODE := [INVALID_CODE]]
    ensures (TokenErrors(rules, username, code) == {} && (exists id :: id in users && users[id].username == username) &&
             !CodeChecks(users, tokens, username, code)) ==>
      r == Err(ValidationError(map[CONFIRMATION_CODE := [INVALID_CODE]]))
  {
    var fieldErrors := TokenErrors(rules, username, code);
    if fieldErrors != {} then Err(FieldsInvalid(fieldErrors))
    else match UserByUsername(users, username)
      case None => Err(NotFound)
      case Some(id) =>
        if tokens.checkToken(id, users[id], code) then Ok(tokens.accessToken(id, users[id]))
        else Err(ValidationError(map[CONFIRMATION_CODE := [INVALID_CODE]]))
  }

  /** The code mailed to a user (well-formed as the token serializer wants it) buys that user's access token. */
  lemma MailedCodeIsAccepted(users: map<UserId, Account>, rules: FieldRules, tokens: TokenScheme, id: UserId)
    requires UniqueUsernames(users) && AcceptsOwnCodes(tokens) && id in users
    requires TokenErrors(rules, users[id].username, tokens.makeToken(id, users[id])) == {}
    ensures VerifyCode(users, rules, tokens, users[id].username, tokens.makeToken(id, users[id]))
            == Ok(tokens.accessToken(id, users[id]))
  {
    assert UserByUsername(users, users[id].username) == Some(id);
  }

  // ----- reviews and comments -----

  /** `ReviewViewSet.get_queryset`: the reviews of the title in the URL, 404 when there is no such title. */
  function TitleReviews(titles: map<Id, Title>, reviews: map<Id, Review>, titleId: Id): (r: Result<set<Id>, ApiError>)
    ensures r.Err? <==> titleId !in titles
    ensures r.Err? ==> r.error == NotFound
    ensures r.Ok? ==> forall k :: k in r.value <==> k in reviews && reviews[k].title == titleId
  {
    if titleId !in titles then Err(NotFound) else Ok(set k | k in reviews && reviews[k].title == titleId)
  }

  /** `get_object` on the review viewset: a review of the title in the URL, or 404. */
  function ReviewObject(titles: map<Id, Title>, reviews: map<Id, Review>, titleId: Id, reviewId: Id): (r: Result<Review, ApiError>)
    ensures r.Ok? <==> titleId in titles && reviewId in reviews && reviews[reviewId].title == titleId
    ensures r.Ok? ==> r.value == reviews[reviewId]
    ensures r.Err? ==> r.error == NotFound
  {
    match TitleReviews(titles, reviews, titleId)
    case Err(e) => Err(e)
    case Ok(ids) => if reviewId in ids then Ok(reviews[reviewId]) else Err(NotFound)
  }

  /** `CommentViewSet.get_review`: the review with that key, only if it belongs to the title in the URL. */
  function ReviewOfTitle(reviews: map<Id, Review>, titleId: Id, reviewId: Id): (r: Result<Id, ApiError>)
    ensures r.Ok? <==> reviewId in reviews && reviews[reviewId].title == titleId
    ensures r.Ok? ==> r.value == reviewId
    ensures r.Err? ==> r.error == NotFound
  {
    if reviewId in reviews && reviews[reviewId].title == titleId then Ok(reviewId) else Err(NotFound)
  }

  /** `CommentViewSet.get_queryset`: the comments under the review found by `get_review`. */
  function ReviewComments(reviews: map<Id, Review>, comments: map<Id, Comment>, titleId: Id, reviewId: Id)
    : (r: Result<set<Id>, ApiError>)
    ensures r.Err? <==> ReviewOfTitle(reviews, titleId, reviewId).Err?
    ensures r.Err? ==> r.error == NotFound
    ensures r.Ok? ==> forall c :: c in r.value <==> c in comments && comments[c].review == reviewId
  {
    match ReviewOfTitle(reviews, titleId, reviewId)
    case Err(e) => Err(e)
    case Ok(rid) => Ok(set c | c in comments && comments[c].review == rid)
  }

  /** `get_object` on the comment viewset: a comment under a review of the title in the URL, or 404. */
  function CommentObject(reviews: map<Id, Review>, comments: map<Id, Comment>, titleId: Id, reviewId: Id, commentId: Id)
    : (r: Result<Comment, ApiError>)
    ensures r.Ok? <==> reviewId in reviews && reviews[reviewId].title == titleId &&
                       commentId in comments && comments[commentId].review == reviewId
    ensures r.Ok? ==> r.value == comments[commentId]
    ensures r.Err? ==> r.error == NotFound
  {
    match ReviewComments(reviews, comments, titleId, reviewId)
    case Err(e) => Err(e)
    case Ok(ids) => if commentId in ids then Ok(comments[commentId]) else Err(NotFound)
  }

  /** Every comment the comment viewset lists sits under a review of the title in the URL. */
  lemma ListedCommentsBelongToTitle(reviews: map<Id, Review>, comments: map<Id, Comment>, titleId: Id, reviewId: Id, c: Id)
    requires ReviewComments(reviews, comments, titleId, reviewId).Ok?
    requires c in ReviewComments(reviews, comments, titleId, reviewId).value
    ensures c in comments && comments[c].review in reviews && reviews[comments[c].review].title == titleId
  {
  }

  /** DRF's `IsAuthenticatedOrReadOnly`, the comment viewset's second permission class. */
  predicate AuthenticatedOrReadOnly(m: Method, c: Caller) {
    IsSafe(m) || c.Authenticated?
  }

  /** The second permission class on comments adds nothing to the first one's collection check. */
  lemma CommentPermissionsCoincide(m: Method, c: Caller)
    ensures AuthenticatedOrReadOnly(m, c) == AuthorHasPermission(m, c)
  {
  }

  /** An authenticated caller is the user row the store holds under its key. */
  ghost predicate CallerKnown(store: Store, c: Caller)
    reads store
  {
    c.Authenticated? ==> c.id in store.users && store.users[c.id] == c.account
  }

  /**
   * `create` on the review viewset: the author is the requester and the
   * title is the one in the URL, whatever the payload says.
   */
  method CreateReview(store: Store, caller: Caller, titleId: Id, input: ReviewInput) returns (r: Result<Id, ApiError>)
    requires store.Valid() && CallerKnown(store, caller)
    modifies store`reviews, store`nextId
    ensures store.Valid()
    ensures caller.Anonymous? ==> r == Err(NotAuthenticated)
    ensures caller.Authenticated? && ReviewFieldErrors(input, false) != {} ==>
      r == Err(FieldsInvalid(ReviewFieldErrors(input, false)))
    ensures caller.Authenticated? && ReviewFieldErrors(input, false) == {} && r.Err? ==>
      ValidateReview(POST, caller.id, titleId, store.titles, old(store.reviews), input) == Err(r.error)
    ensures r.Ok? <==> caller.Authenticated? && ReviewFieldErrors(input, false) == {} &&
                       titleId in store.titles && !HasReviewBy(old(store.reviews), titleId, caller.id)
    ensures r.Err? ==> store.reviews == old(store.reviews) && store.nextId == old(store.nextId)
    ensures r.Ok? ==> store.reviews == old(store.reviews)[r.value := Review(titleId, caller.id, input.text.value, input.score.value)]
  {
    if !AuthorHasPermission(POST, caller) {
      return Err(Denial(caller));
    }
    var fieldErrors := ReviewFieldErrors(input, false);
    if fieldErrors != {} {
      return Err(FieldsInvalid(fieldErrors));
    }
    var validated := ValidateReview(POST, caller.id, titleId, store.titles, store.reviews, input);
    if validated.Err? {
      return Err(validated.error);
    }
    ValidFullReviewInput(input);
    var saved := store.InsertReview(titleId, caller.id, input.text.value, input.score.value);
    if saved.Err? {
      assert false;
      return Err(ServerError);
    }
    r := Ok(saved.value);
  }

  /**
   * `partial_update` on the review viewset: only text and score change,
   * and only for the author, a moderator or an admin; the one-review rule
   * is not re-checked since the title and author stay.
   */
  method PatchReview(store: Store, caller: Caller, titleId: Id, reviewId: Id, input: ReviewInput)
    returns (r: Result<Review, ApiError>)
    requires store.Valid() && CallerKnown(store, caller)
    modifies store`reviews
    ensures store.Valid()
    ensures caller.Anonymous? ==> r == Err(NotAuthenticated)
    ensures caller.Authenticated? && ReviewObject(store.titles, old(store.reviews), titleId, reviewId).Err? ==> r == Err(NotFound)
    ensures (caller.Authenticated? && ReviewObject(store.titles, old(store.reviews), titleId, reviewId).Ok? &&
             AuthorObjectPermission(PATCH, caller, old(store.reviews)[reviewId].author) != Allow) ==> r == Err(PermissionDenied)
    ensures (caller.Authenticated? && ReviewObject(store.titles, old(store.reviews), titleId, reviewId).Ok? &&
             AuthorObjectPermission(PATCH, caller, old(store.reviews)[reviewId].author) == Allow &&
             ReviewFieldErrors(input, true) != {}) ==> r == Err(FieldsInvalid(ReviewFieldErrors(input, true)))
    ensures r.Ok? <==> caller.Authenticated? && ReviewObject(store.titles, old(store.reviews), titleId, reviewId).Ok? &&
                       AuthorObjectPermission(PATCH, caller, old(store.reviews)[reviewId].author) == Allow &&
                       ReviewFieldErrors(input, true) == {}
    ensures r.Err? ==> store.reviews == old(store.reviews)
    ensures r.Ok? ==>
      var before := old(store.reviews)[reviewId];
      r.value == before.(text := Patched(before.text, input.text),
                         score := if input.score.Some? then input.score.value else before.score) &&
      store.reviews == old(store.reviews)[reviewId := r.value]
  {
    if !AuthorHasPermission(PATCH, caller) {
      return Err(Denial(caller));
    }
    var found := ReviewObject(store.titles, store.reviews, titleId, reviewId);
    if found.Err? {
      return Err(found.error);
    }
    var verdict := AuthorObjectPermission(PATCH, caller, found.value.author);
    if verdict == Raise {
      return Err(ServerError);
    }
    if verdict == Deny {
      return Err(Denial(caller));
    }
    var fieldErrors := ReviewFieldErrors(input, true);
    if fieldErrors != {} {
      return Err(FieldsInvalid(fieldErrors));
    }
    var before := found.value;
    var text := Patched(before.text, input.text);
    var score := if input.score.Some? then input.score.value else before.score;
    store.UpdateReview(reviewId, text, score);
    r := Ok(store.reviews[reviewId]);
  }

  /** `destroy` on the review viewset: the review and its comments go. */
  method DestroyReview(store: Store, caller: Caller, titleId: Id, reviewId: Id) returns (r: Result<(), ApiError>)
    requires store.Valid() && CallerKnown(store, caller)
    modifies store`reviews, store`comments
    ensures store.Valid()
    ensures caller.Anonymous? ==> r == Err(NotAuthenticated)
    ensures caller.Authenticated? && ReviewObject(store.titles, old(store.reviews), titleId, reviewId).Err? ==> r == Err(NotFound)
    ensures (caller.Authenticated? && ReviewObject(store.titles, old(store.reviews), titleId, reviewId).Ok? &&
             AuthorObjectPermission(DELETE, caller, old(store.reviews)[reviewId].author) != Allow) ==> r == Err(PermissionDenied)
    ensures r.Ok? <==> caller.Authenticated? && ReviewObject(store.titles, old(store.reviews), titleId, reviewId).Ok? &&
                       AuthorObjectPermission(DELETE, caller, old(store.reviews)[reviewId].author) == Allow
    ensures r.Err? ==> store.reviews == old(store.reviews) && store.comments == old(store.comments)
    ensures r.Ok? ==> store.reviews == old(store.reviews) - {reviewId} &&
                      store.comments == Where(old(store.comments), (c: Comment) => c.review != reviewId)
  {
    if !AuthorHasPermission(DELETE, caller) {
      return Err(Denial(caller));
    }
    var found := ReviewObject(store.titles, store.reviews, titleId, reviewId);
    if found.Err? {
      return Err(found.error);
    }
    var verdict := AuthorObjectPermission(DELETE, caller, found.value.author);
    if verdict == Raise {
      return Err(ServerError);
    }
    if verdict == Deny {
      return Err(Denial(caller));
    }
    var _ := store.DeleteReview(reviewId);
    r := Ok(());
  }

  /**
   * `create` on the comment viewset: the payload is validated before the
   * review is looked up; the author is the requester and the review the one
   * in the URL, provided it belongs to the title in the URL.
   */
  method CreateComment(store: Store, caller: Caller, titleId: Id, reviewId: Id, text: Option<string>)
    returns (r: Result<Id, ApiError>)
    requires store.Valid() && CallerKnown(store, caller)
    modifies store`comments, store`nextId
    ensures store.Valid()
    ensures caller.Anonymous? ==> r == Err(NotAuthenticated)
    ensures caller.Authenticated? && CommentFieldErrors(text, false) != {} ==> r == Err(FieldsInvalid(CommentFieldErrors(text, false)))
    ensures (caller.Authenticated? && CommentFieldErrors(text, false) == {} &&
             ReviewOfTitle(store.reviews, titleId, reviewId).Err?) ==> r == Err(NotFound)
    ensures r.Ok? <==> caller.Authenticated? && CommentFieldErrors(text, false) == {} &&
                       ReviewOfTitle(store.reviews, titleId, reviewId).Ok?
    ensures r.Err? ==> store.comments == old(store.comments) && store.nextId == old(store.nextId)
    ensures r.Ok? ==> store.comments == old(store.comments)[r.value := Comment(reviewId, caller.id, text.value)]
  {
    if !(AuthorHasPermission(POST, caller) && AuthenticatedOrReadOnly(POST, caller)) {
      return Err(Denial(caller));
    }
    var fieldErrors := CommentFieldErrors(text, false);
    if fieldErrors != {} {
      return Err(FieldsInvalid(fieldErrors));
    }
    var review := ReviewOfTitle(store.reviews, titleId, reviewId);
    if review.Err? {
      return Err(review.error);
    }
    var saved := store.InsertComment(review.value, caller.id, text.value);
    if saved.Err? {
      assert false;
      return Err(ServerError);
    }
    r := Ok(saved.value);
  }

  /** `partial_update` on the comment viewset: only the text changes, and only for the author, a moderator or an admin. */
  method PatchComment(store: Store, caller: Caller, titleId: Id, reviewId: Id, commentId: Id, text: Option<string>)
    returns (r: Result<Comment, ApiError>)
    requires store.Valid() && CallerKnown(store, caller)
    modifies store`comments
    ensures store.Valid()
    ensures caller.Anonymous? ==> r == Err(NotAuthenticated)
    ensures caller.Authenticated? && CommentObject(store.reviews, old(store.comments), titleId, reviewId, commentId).Err? ==>
      r == Err(NotFound)
    ensures (caller.Authenticated? && CommentObject(store.reviews, old(store.comments), titleId, reviewId, commentId).Ok? &&
             AuthorObjectPermission(PATCH, caller, old(store.comments)[commentId].author) != Allow) ==> r == Err(PermissionDenied)
    ensures (caller.Authenticated? && CommentObject(store.reviews, old(store.comments), titleId, reviewId, commentId).Ok? &&
             AuthorObjectPermission(PATCH, caller, old(store.comments)[commentId].author) == Allow &&
             CommentFieldErrors(text, true) != {}) ==> r == Err(FieldsInvalid(CommentFieldErrors(text, true)))
    ensures r.Ok? <==> caller.Authenticated? && CommentObject(store.reviews, old(store.comments), titleId, reviewId, commentId).Ok? &&
                       AuthorObjectPermission(PATCH, caller, old(store.comments)[commentId].author) == Allow &&
                       CommentFieldErrors(text, true) == {}
    ensures r.Err? ==> store.comments == old(store.comments)
    ensures r.Ok? ==>
      var before := old(store.comments)[commentId];
      r.value == before.(text := Patched(before.text, text)) && store.comments == old(store.comments)[commentId := r.value]
  {
    if !(AuthorHasPermission(PATCH, caller) && AuthenticatedOrReadOnly(PATCH, caller)) {
      return Err(Denial(caller));
    }
    var found := CommentObject(store.reviews, store.comments, titleId, reviewId, commentId);
    if found.Err? {
      return Err(found.error);
    }
    var verdict := AuthorObjectPermission(PATCH, caller, found.value.author);
    if verdict == Raise {
      return Err(ServerError);
    }
    if verdict == Deny {
      return Err(Denial(caller));
    }
    var fieldErrors := CommentFieldErrors(text, true);
    if fieldErrors != {} {
      return Err(FieldsInvalid(fieldErrors));
    }
    store.UpdateComment(commentId, Patched(found.value.text, text));
    r := Ok(store.comments[commentId]);
  }

  /** `destroy` on the comment viewset. */
  method DestroyComment(store: Store, caller: Caller, titleId: Id, reviewId: Id, commentId: Id) returns (r: Result<(), ApiError>)
    requires store.Valid() && CallerKnown(store, caller)
    modifies store`comments
    ensures store.Valid()
    ensures caller.Anonymous? ==> r == Err(NotAuthenticated)
    ensures caller.Authenticated? && CommentObject(store.reviews, old(store.comments), titleId, reviewId, commentId).Err? ==>
      r == Err(NotFound)
    ensures (caller.Authenticated? && CommentObject(store.reviews, old(store.comments), titleId, reviewId, commentId).Ok? &&
             AuthorObjectPermission(DELETE, caller, old(store.comments)[commentId].author) != Allow) ==> r == Err(PermissionDenied)
    ensures r.Ok? <==> caller.Authenticated? && CommentObject(store.reviews, old(store.comments), titleId, reviewId, commentId).Ok? &&
                       AuthorObjectPermission(DELETE, caller, old(store.comments)[commentId].author) == Allow
    ensures r.Err? ==> store.comments == old(store.comments)
    ensures r.Ok? ==> store.comments == old(store.comments) - {commentId}
  {
    if !(AuthorHasPermission(DELETE, caller) && AuthenticatedOrReadOnly(DELETE, caller)) {
      return Err(Denial(caller));
    }
    var found := CommentObject(store.reviews, store.comments, titleId, reviewId, commentId);
    if found.Err? {
      return Err(found.error);
    }
    var verdict := AuthorObjectPermission(DELETE, caller, found.value.author);
    if verdict == Raise {
      return Err(ServerError);
    }
    if verdict == Deny {
      return Err(Denial(caller));
    }
    var _ := store.DeleteComment(commentId);
    r := Ok(());
  }

  // ----- titles -----

  /** `create` on the title viewset: admins only; category and genres are given by slug. */
  method CreateTitle(store: Store, caller: Caller, name: string, year: int, description: string,
                     categorySlug: string, genreSlugs: seq<string>) returns (r: Result<Id, ApiError>)
    requires store.Valid() && CallerKnown(store, caller)
    modifies store`titles, store`genreTitles, store`nextId
    ensures store.Valid()
    ensures !AdminOrReadOnlyHasPermission(POST, caller) ==> r == Err(Denial(caller))
    ensures r.Ok? <==> AdminOrReadOnlyHasPermission(POST, caller) &&
                       ResolveTitleRelations(store.categories, store.genres, categorySlug, genreSlugs).Ok?
    ensures r.Err? ==> store.titles == old(store.titles) && store.genreTitles == old(store.genreTitles)
    ensures r.Ok? ==>
      var resolved := ResolveTitleRelations(store.categories, store.genres, categorySlug, genreSlugs).value;
      && store.titles == old(store.titles)[r.value := Title(name, year, description, Some(resolved.0))]
      && GenresOf(store.genreTitles, r.value) == resolved.1
  {
    if !AdminOrReadOnlyHasPermission(POST, caller) {
      return Err(Denial(caller));
    }
    var resolved := ResolveTitleRelations(store.categories, store.genres, categorySlug, genreSlugs);
    if resolved.Err? {
      return Err(resolved.error);
    }
    var saved := store.InsertTitle(name, year, description, Some(resolved.value.0), resolved.value.1);
    if saved.Err? {
      assert false;
      return Err(ServerError);
    }
    r := Ok(saved.value);
  }

  /** `destroy` on the title viewset: admins only; the cascade removes its links, reviews and their comments. */
  method DestroyTitle(store: Store, caller: Caller, titleId: Id) returns (r: Result<(), ApiError>)
    requires store.Valid() && CallerKnown(store, caller)
    modifies store`titles, store`genreTitles, store`reviews, store`comments
    ensures store.Valid()
    ensures !AdminOrReadOnlyHasPermission(DELETE, caller) ==> r == Err(Denial(caller))
    ensures AdminOrReadOnlyHasPermission(DELETE, caller) && titleId !in old(store.titles) ==> r == Err(NotFound)
    ensures r.Ok? <==> AdminOrReadOnlyHasPermission(DELETE, caller) && titleId in old(store.titles)
    ensures r.Err? ==> store.titles == old(store.titles) && store.reviews == old(store.reviews) &&
                       store.comments == old(store.comments) && store.genreTitles == old(store.genreTitles)
    ensures r.Ok? ==> store.titles == old(store.titles) - {titleId} &&
                      store.reviews == Where(old(store.reviews), (rv: Review) => rv.title != titleId) &&
                      store.comments == CommentsUnder(old(store.comments), store.reviews)
  {
    if !AdminOrReadOnlyHasPermission(DELETE, caller) {
      return Err(Denial(caller));
    }
    if titleId !in store.titles {
      return Err(NotFound);
    }
    var _ := store.DeleteTitle(titleId);
    r := Ok(());
  }

  // ----- the current user -----

  /**
   * `get_current_user_info`: any signed-in caller reads their own row
   * (GET) or partially updates it (PATCH); `role` is read-only, so the
   * update cannot change what the caller may do. Other methods get 405.
   */
  method CurrentUserInfo(store: Store, rules: FieldRules, caller: Caller, m: Method, patch: ProfilePatch)
    returns (r: Result<Account, ApiError>)
    requires store.Valid() && CallerKnown(store, caller)
    modifies store`users
    ensures store.Valid()
    ensures caller.Anonymous? ==> r == Err(NotAuthenticated)
    ensures caller.Authenticated? && m == GET ==> r == Ok(caller.account)
    ensures caller.Authenticated? && m != GET && m != PATCH ==> r == Err(MethodNotAllowed)
    ensures caller.Authenticated? && m == PATCH ==>
      var errors := ProfileErrors(rules, old(store.users), caller.id, patch);
      && (errors != {} ==> r == Err(FieldsInvalid(errors)))
      && (errors == {} ==> r == Ok(ApplyProfilePatch(caller.account, patch)))
    ensures r.Ok? && m == PATCH ==> store.users == old(store.users)[caller.id := r.value]
    ensures !(r.Ok? && m == PATCH) ==> store.users == old(store.users)
    ensures r.Ok? ==> r.value.role == caller.account.role && IsAdmin(r.value) == IsAdmin(caller.account)
  {
    if caller.Anonymous? {
      return Err(NotAuthenticated);
    }
    if m == GET {
      return Ok(caller.account);
    }
    if m != PATCH {
      return Err(MethodNotAllowed);
    }
    var errors := ProfileErrors(rules, store.users, caller.id, patch);
    if errors != {} {
      return Err(FieldsInvalid(errors));
    }
    var updated := ApplyProfilePatch(caller.account, patch);
    assert "username" !in errors && "email" !in errors;
    var saved := store.UpdateUser(caller.id, updated);
    if saved.Err? {
      assert false;
      return Err(ServerError);
    }
    r := Ok(updated);
  }
}
