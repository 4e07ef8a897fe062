# api_yamdb in Dafny

A model of the access-control, review and identity core of api_yamdb, a
Django REST backend for a catalog of works (titles, genres, categories)
with user reviews and comments. The model covers:

- the user model's role tests;
- both revisions of the permission classes;
- the catalog and user tables, as one store object whose invariant is the
  schema's constraints and whose deletes apply the schema's cascade rules;
- both revisions of the serializers and of the signup and token views;
- the review, comment and title actions;
- the current user's profile endpoint;
- the derived title rating.

Modules, one per source file, plus small helpers:

| module | file | models |
|---|---|---|
| `UserModel` | user_model.dfy | users/models.py |
| `Validators`, `LegacyValidators` | validators.dfy, legacy_validators.dfy | users/validators.py, api/validators.py |
| `Permissions`, `LegacyPermissions` | permissions.dfy, legacy_permissions.dfy | api/v1/permissions.py, api/permissions.py |
| `Catalog` | catalog.dfy | reviews/models.py with the user table (class `Store`) |
| `Serializers`, `LegacySerializers` | serializers.dfy, legacy_serializers.dfy | api/v1/serializers.py, api/serializers.py |
| `Views`, `LegacyViews`, `Ratings` | views.dfy, legacy_views.dfy, ratings.dfy | api/v1/views.py, api/views.py |
| `Requests`, `Wrappers`, `Numerals` | requests.dfy, wrappers.dfy, numerals.dfy | method and caller of a request, error responses, Option/Result, decimal text of integers |

How the model reads the framework:

- A request is reduced to its HTTP method, its caller (anonymous, or a user
  row with its key) and its payload.
- A permission check is a function of these.
- The object-level check of `IsAuthorModeratorAdminOrReadOnly` has a third
  outcome, `Raise`. It stands for the AttributeError Python raises when an
  anonymous caller reaches `request.user.is_admin`. The lemmas show that the
  collection-level check, which the framework runs first, never lets such a
  caller get there.
- Views are module-level methods in views.dfy and legacy_views.dfy that take
  the `Store` as a parameter. They run the permission classes, then the
  serializer, then the store operation, in the framework's order.
- A failed permission check is 401 for an anonymous caller and 403 for a
  signed-in one.
- Token generation and checking are the fields of a `TokenScheme` value,
  which the model takes as given.
- The model makes two assumptions about the scheme:
  - `Views.AcceptsOwnCodes`: a code made for a user row checks for that row.
  - `LegacyViews.ChecksNeedTimestamp`: the check accepts only text with a `-`
    after its first character. This is the `<timestamp>-<hash>` form of
    Django's `default_token_generator`.
  `LegacyViews.LegacyVerifyCodeNeverIssues`, `LegacyViews.LegacyMailedCodeRefused`
  and the second finding below rest on the second assumption.
  `LegacyViews.TimestampSchemeExists` shows that the two assumptions can hold
  together.
- A mail is returned as a value. Sending is silenced, so it never fails.

The title rating:

- The `Avg` annotation gives the exact mean of a title's scores: 8.0 for
  scores [8, 6, 10].
- Both read serializers declare `rating` as an IntegerField, so the mean is
  sent truncated to an integer: 8 for that example, and 7 for scores 8 and 7
  (`Ratings.RatingTruncationExample`).
- `settings.SCORE_MIN` and `settings.SCORE_MAX` come from the settings
  module, which is not part of this model. The model takes them as 1 and 10.

Other reading choices:

- The store hands out keys from one counter shared by every table.
- The user model's own `validate_username` is imported from
  api/v1/validators.py, which is not part of this model. The profile update
  uses the users/validators.py copy in its place.

## Model

| member | source | states |
|---|---|---|
| UserModel.RoleFromValue | api_yamdb/users/models.py:14-17 | a stored role value maps back to its choice exactly when it is one of admin, user, moderator |
| UserModel.RoleValueRoundTrip | api_yamdb/users/models.py:14-17 | every choice is recovered from its stored value (the values are distinct) |
| UserModel.NewAccount | api_yamdb/users/models.py:36-41 | a new row has the given username and email, role `user`, no staff or superuser flag, empty profile fields |
| UserModel.IsAdmin | api_yamdb/users/models.py:49-53 | `is_admin`: the role is admin, or the superuser or staff flag is set |
| UserModel.IsModerator | api_yamdb/users/models.py:55-57 | `is_moderator`: the role is moderator |
| UserModel.IsUser | api_yamdb/users/models.py:59-61 | `is_user`: the role is user |
| UserModel.ExactlyOneRoleTest | api_yamdb/users/models.py:49-61 | for a role among the choices exactly one of role==admin, is_moderator, is_user holds |
| UserModel.UnknownRolePassesNoRoleTest | api_yamdb/users/models.py:55-61 | a role outside the choices passes none of the three role tests |
| UserModel.ModeratorIsNotAdmin | api_yamdb/users/models.py:49-57 | a moderator without staff or superuser flag is not an admin |
| UserModel.SuperuserIsAdmin | api_yamdb/users/models.py:49-53 | the superuser flag alone makes `is_admin` true |
| UserModel.NewAccountIsPlainUser | api_yamdb/users/models.py:36-41 | a freshly created account is a plain user: not admin, not moderator |
| Validators.ValidateUsername | api_yamdb/users/validators.py:4-9 | accepted iff the value is not "me"; an accepted value comes back unchanged; the refusal carries the validator's message |
| Validators.OnlyExactMeIsRefused | api_yamdb/users/validators.py:5 | "Me", "ME", "me1" and "" are accepted: exact, case-sensitive match |
| Validators.ValidateUsernameIdempotent | api_yamdb/users/validators.py:4-9 | validating an accepted value again gives the same answer |
| LegacyValidators.ValidateUsername | api_yamdb/api/validators.py:4-9 | accepted iff the value is not "me", returned unchanged; the refusal carries the older message |
| LegacyValidators.SameVerdictAsValidators | api_yamdb/api/validators.py:4-9 | both copies accept and refuse exactly the same values |
| Permissions.AdminHasPermission | api_yamdb/api/v1/permissions.py:6-10 | IsAdmin's `has_permission`: an authenticated admin |
| Permissions.AuthorHasPermission | api_yamdb/api/v1/permissions.py:15-19 | the author class's `has_permission`: authenticated, or a safe method |
| Permissions.AuthorObjectPermission | api_yamdb/api/v1/permissions.py:21-27 | the author class's `has_object_permission`: allow for a safe method, an admin, a moderator or the author; raise where an anonymous caller reaches `is_admin`; deny otherwise |
| Permissions.AdminOrReadOnlyHasPermission | api_yamdb/api/v1/permissions.py:32-37 | IsAdminOrReadOnly's `has_permission`: a safe method, or an authenticated admin |
| Permissions.AdminPermissionCharacterised | api_yamdb/api/v1/permissions.py:6-10 | IsAdmin passes iff the caller is authenticated and an admin |
| Permissions.AuthorCollectionCheck | api_yamdb/api/v1/permissions.py:15-19 | the collection check passes for every safe method and for every authenticated caller, and fails for an anonymous unsafe request |
| Permissions.SafeObjectAccessAllowed | api_yamdb/api/v1/permissions.py:21-23 | the object check allows a safe method whoever asks |
| Permissions.StaffMayEditAnything | api_yamdb/api/v1/permissions.py:24-25 | admins and moderators pass the object check for any method on any object |
| Permissions.AuthorMayEditOwn | api_yamdb/api/v1/permissions.py:26 | an authenticated caller passes the object check on their own object |
| Permissions.PlainUserEditsOnlyOwn | api_yamdb/api/v1/permissions.py:24-26 | for an unsafe method a plain user with no flag passes iff they are the author, and is denied otherwise |
| Permissions.CollectionCheckIsNotEnough | api_yamdb/api/v1/permissions.py:15-27 | a plain non-author passes the collection check yet is denied at the object |
| Permissions.GuardedObjectCheckNeverRaises | api_yamdb/api/v1/permissions.py:15-27 | once the collection check passed, the object check never reaches the anonymous user's missing `is_admin` |
| Permissions.AdminOrReadOnlyCharacterised | api_yamdb/api/v1/permissions.py:30-37 | IsAdminOrReadOnly allows safe methods for all and unsafe ones iff IsAdmin passes |
| Permissions.AnonymousNeverMutates | api_yamdb/api/v1/permissions.py:6-36 | an anonymous caller fails `has_permission` of all three classes for every unsafe method |
| Permissions.AdminPassesAdminOrReadOnly | api_yamdb/api/v1/permissions.py:6-36 | whoever passes IsAdmin passes IsAdminOrReadOnly for every method |
| LegacyPermissions.AdminHasPermission | api_yamdb/api/permissions.py:6-11 | the older IsAdmin: authenticated, and admin or superuser |
| LegacyPermissions.AuthorHasPermission | api_yamdb/api/permissions.py:16-20 | the older author `has_permission`: authenticated, or a safe method |
| LegacyPermissions.AuthorObjectPermission | api_yamdb/api/permissions.py:22-28 | the older object check, with the same three outcomes as the newer one |
| LegacyPermissions.AdminOrReadOnlyHasPermission | api_yamdb/api/permissions.py:33-39 | the older IsAdminOrReadOnly: a safe method, or authenticated and admin or superuser |
| LegacyPermissions.AdminAgreesWithV1 | api_yamdb/api/permissions.py:6-11 | the older IsAdmin, with its extra `or is_superuser`, equals the newer one on every caller |
| LegacyPermissions.AdminOrReadOnlyAgreesWithV1 | api_yamdb/api/permissions.py:33-38 | the older IsAdminOrReadOnly (read as safe or (authenticated and (admin or superuser))) equals the newer one |
| LegacyPermissions.AuthorChecksAgreeWithV1 | api_yamdb/api/permissions.py:16-28 | both revisions of the author check agree at the collection and at the object level |
| LegacyPermissions.ObjectCheckAllowsExactly | api_yamdb/api/permissions.py:22-28 | the object check allows safe methods, admins, moderators and the author, and nobody else |
| LegacyPermissions.AnonymousNeverMutates | api_yamdb/api/permissions.py:6-38 | no older class lets an anonymous caller use an unsafe method |
| Catalog.UserByUsername | api_yamdb/users/models.py:23-31 | over unique usernames: the row holding the username, or none exactly when no row holds it |
| Catalog.UserByEmail | api_yamdb/users/models.py:19-22 | over unique emails: the row holding the email, or none exactly when no row holds it |
| Catalog.BySlug | api_yamdb/reviews/models.py:18-21 | over unique slugs: the row with the slug, or none exactly when no row has it |
| Catalog.HasReviewBy | api_yamdb/api/v1/serializers.py:94-96 | the `.exists()` query: some review of the title has that author |
| Catalog.GetOrCreateCase | api_yamdb/users/models.py:19-31 | get_or_create meets the row holding both values, or neither value taken, or a conflict where one value belongs to a row without the other |
| Catalog.GenresOfAdd | api_yamdb/reviews/models.py:84-95 | adding a join row for a title adds exactly its genre to that title's genres |
| Catalog.ClearCategory | api_yamdb/reviews/models.py:66-73 | SET_NULL: same titles, none left in the category, each either unchanged or with its category cleared |
| Catalog.Store.constructor | api_yamdb/reviews/models.py:9-177 | an empty store satisfies the schema invariant |
| Catalog.Store.GetOrCreateUser | api_yamdb/users/models.py:19-31 | returns the existing row, or inserts exactly one default row, or fails on the unique username/email, by GetOrCreateCase |
| Catalog.Store.UpdateUser | api_yamdb/users/models.py:19-31 | a save succeeds iff no other row holds the new username or email; uniqueness is kept |
| Catalog.Store.DeleteUser | api_yamdb/reviews/models.py:112-117 | deleting a user removes their reviews, their comments and the comments under their reviews (CASCADE), keeping every reference resolvable |
| Catalog.Store.InsertCategory | api_yamdb/reviews/models.py:18-21 | insert fails iff the slug is taken; slugs stay unique |
| Catalog.Store.InsertGenre | api_yamdb/reviews/models.py:18-21 | insert fails iff the slug is taken; slugs stay unique |
| Catalog.Store.DeleteCategory | api_yamdb/reviews/models.py:66-73 | deleting a category keeps every title and clears the category of those in it |
| Catalog.Store.DeleteGenre | api_yamdb/reviews/models.py:91-95 | deleting a genre removes only its join rows; every title's genres lose just that genre |
| Catalog.Store.InsertTitle | api_yamdb/reviews/models.py:46-95 | a missing category or genre is a foreign-key error; otherwise one title row and exactly the given genre set |
| Catalog.Store.LinkGenres | api_yamdb/reviews/models.py:60-65 | one join row per genre: the title's genres become exactly the given set, earlier rows untouched |
| Catalog.Store.DeleteTitle | api_yamdb/reviews/models.py:86-90 | deleting a title removes its join rows, its reviews and the comments under them (CASCADE) |
| Catalog.Store.InsertReview | api_yamdb/reviews/models.py:101-144 | foreign-key error for a missing title or author, unique error for a second review of the pair; otherwise one row; one-review-per-author and score bounds kept |
| Catalog.Store.UpdateReview | api_yamdb/reviews/models.py:109-130 | only text and score change; invariant kept |
| Catalog.Store.DeleteReview | api_yamdb/reviews/models.py:152-157 | deleting a review removes exactly its comments (CASCADE) |
| Catalog.Store.InsertComment | api_yamdb/reviews/models.py:150-166 | foreign-key error iff the review or author is missing; otherwise one row |
| Catalog.Store.UpdateComment | api_yamdb/reviews/models.py:158-160 | only the text changes |
| Catalog.Store.DeleteComment | api_yamdb/reviews/models.py:150-166 | exactly the comment goes |
| Serializers.SignUpErrors | api_yamdb/api/v1/serializers.py:115-124 | username refused iff blank, too long, holding U+0000 or other bad characters, or "me"; email refused iff blank, too long, holding U+0000 or malformed |
| Serializers.TokenErrors | api_yamdb/api/v1/serializers.py:131-140 | the username as in signup; the code refused iff blank or holding U+0000 |
| Serializers.ReservedNameRefused | api_yamdb/api/v1/serializers.py:117-140 | both serializers refuse "me" whatever the framework's field rules |
| Serializers.AcceptedUsernameBounded | api_yamdb/api/v1/serializers.py:117-124 | an accepted signup has a non-empty username within max length, not "me", and a valid email |
| Serializers.ReviewFieldErrors | api_yamdb/api/v1/serializers.py:73-82 | text refused iff blank or holding U+0000, score refused iff out of bounds, a missing field refused unless partial |
| Serializers.ValidFullReviewInput | api_yamdb/api/v1/serializers.py:73-82 | a full review payload that passes has both fields and an in-range score |
| Serializers.ValidateReview | api_yamdb/api/v1/serializers.py:84-100 | non-POST passes unchanged; a POST gets 404 for a missing title, the one-review error for a repeat, else passes unchanged |
| Serializers.ValidatedReviewKeepsOneReviewPerAuthor | api_yamdb/api/v1/serializers.py:94-99 | a review that passed POST validation can be added without breaking one-review-per-author |
| Serializers.CommentFieldErrors | api_yamdb/api/v1/serializers.py:103-112 | comment text refused iff blank or holding U+0000, or missing in a full update |
| Serializers.ResolveTitleRelations | api_yamdb/api/v1/serializers.py:52-60 | succeeds iff the category slug and every genre slug name rows; yields that category and exactly the genres with listed slugs; else names the failing fields |
| Serializers.ResolvedGenresMatchSlugs | api_yamdb/api/v1/serializers.py:56-60 | the slugs of the resolved genres are exactly the listed slugs |
| Serializers.RatingField | api_yamdb/api/v1/serializers.py:32 | the integer shown is the mean truncated toward zero; null stays null |
| Serializers.ProfileErrors | api_yamdb/api/v1/serializers.py:150-165 | a field sent is refused iff it fails its model field (length, U+0000, username and email rules) or another row already holds the username or email; an empty patch passes |
| Serializers.ApplyProfilePatch | api_yamdb/api/v1/serializers.py:164-165 | each of username, email, first_name, last_name and bio that is sent replaces the stored one and the others stay; role, privilege flags and code never change |
| Serializers.SelfUpdateKeepsPrivileges | api_yamdb/api/v1/serializers.py:164-165 | after a self-update is_admin, is_moderator and is_user are unchanged |
| Serializers.RoleInPatchIgnored | api_yamdb/api/v1/serializers.py:165 | a role in the patch has no effect at all |
| Serializers.ApplyProfilePatchIdempotent | api_yamdb/api/v1/serializers.py:164-165 | applying the same patch twice equals applying it once |
| LegacySerializers.UsernameFieldAgreesWithV1 | api_yamdb/api/serializers.py:102-108 | the older username field accepts exactly what the newer one does |
| LegacySerializers.SignUpErrors | api_yamdb/api/serializers.py:100-112 | username and email refused under the same conditions as the newer serializer |
| LegacySerializers.SignUpErrorsAgreeWithV1 | api_yamdb/api/serializers.py:100-116 | both signup serializers report the same fields for every payload |
| LegacySerializers.TokenErrors | api_yamdb/api/serializers.py:119-128 | the code is refused iff it does not parse as an integer |
| LegacySerializers.InnerDashCodeRefused | api_yamdb/api/serializers.py:128 | a code with a `-` after its first character is refused by the integer field |
| LegacySerializers.ReservedNameRefused | api_yamdb/api/serializers.py:102-127 | both older serializers refuse "me" |
| LegacySerializers.ValidateReview | api_yamdb/api/serializers.py:70-85 | 404 for a missing title whatever the method; the one-review error for a repeated POST; otherwise the data unchanged |
| LegacySerializers.ValidateReviewAgreesWithV1 | api_yamdb/api/serializers.py:70-85 | both revisions agree on POST and on existing titles; they differ only for non-POST on a missing title (404 against pass) |
| Numerals.NatDigits | api_yamdb/api/views.py:153 | `str(n)` of a natural number is a non-empty digit string without a leading zero |
| Numerals.ParseInteger | api_yamdb/api/serializers.py:128 | text parses iff it is an optional sign followed by one or more digits; the value is that of the digits, negated under `-` |
| Numerals.ParseSignedDigits | api_yamdb/api/serializers.py:128 | a digit string parses to its value bare or after `+`, and to its negation after `-` |
| Numerals.LeadingZeroIgnored | api_yamdb/api/serializers.py:128 | a leading zero does not change what a text parses to |
| Numerals.LeadingZeroValue | api_yamdb/api/serializers.py:128 | a leading zero adds nothing to a digit string's value |
| Numerals.DecimalString | api_yamdb/api/views.py:153 | `str(n)`: a minus sign for a negative number, then the digits of its magnitude |
| Numerals.DigitsRoundTrip | api_yamdb/api/views.py:153 | the digits of n denote n |
| Numerals.ParseDecimalRoundTrip | api_yamdb/api/views.py:153 | parsing `str(n)` gives back n |
| Numerals.DecimalStringHasNoInnerDash | api_yamdb/api/views.py:153 | `str(n)` never has a `-` after its first character |
| Views.MismatchErrors | api_yamdb/api/v1/views.py:135-152 | no error iff both lookups agree; `email` reported iff they differ and the email has an owner, `username` iff the username has one, with the view's messages |
| Views.ConflictIffLookupsDisagree | api_yamdb/api/v1/views.py:131-153 | the lookups disagree exactly when get_or_create would hit a unique constraint |
| Views.SignUp | api_yamdb/api/v1/views.py:125-162 | field errors, then the mismatch 400 with no change; otherwise the existing row is reused or exactly one row created, the code for that row is mailed, and the body echoes username and email, never the code; never a 500 |
| Views.VerifyCode | api_yamdb/api/v1/views.py:169-186 | field errors; 404 iff no row has the username; a token iff the code checks for that row, else the 400 message |
| Views.MailedCodeIsAccepted | api_yamdb/api/v1/views.py:153-186 | the mailed code, sent back with the username, buys that row's access token |
| Views.TitleReviews | api_yamdb/api/v1/views.py:84-91 | the reviews listed are exactly those of the title in the URL; 404 iff the title is missing |
| Views.ReviewObject | api_yamdb/api/v1/views.py:84-91 | a review is found iff it exists and belongs to the title in the URL |
| Views.ReviewOfTitle | api_yamdb/api/v1/views.py:106-111 | a comment's review is found iff its key matches and its title is the URL's title, else 404 |
| Views.ReviewComments | api_yamdb/api/v1/views.py:113-114 | the comments listed are exactly those under the review found by get_review |
| Views.CommentObject | api_yamdb/api/v1/views.py:106-114 | a comment is found iff it sits under a review that belongs to the URL's title |
| Views.ListedCommentsBelongToTitle | api_yamdb/api/v1/views.py:106-114 | every listed comment belongs, through its review, to the title in the URL |
| Views.AuthenticatedOrReadOnly | api_yamdb/api/v1/views.py:100-103 | DRF's `IsAuthenticatedOrReadOnly`: a safe method, or an authenticated caller |
| Views.CommentPermissionsCoincide | api_yamdb/api/v1/views.py:100-103 | the comment viewset's second permission class adds nothing to the first |
| Views.CreateReview | api_yamdb/api/v1/views.py:76-94 | 401 for anonymous; field errors; the validate() outcome; otherwise one review whose author is the requester and whose title is the URL's |
| Views.PatchReview | api_yamdb/api/v1/views.py:76-91 | 401 for anonymous; 404 outside the URL's title; 403 unless author, moderator or admin; then field errors of the partial payload; otherwise only text and score change |
| Views.DestroyReview | api_yamdb/api/v1/views.py:76-91 | 401 for anonymous; 404 outside the URL's title; 403 unless author, moderator or admin; otherwise the review and its comments go |
| Views.CreateComment | api_yamdb/api/v1/views.py:97-117 | payload checked before the review lookup; 404 unless the review belongs to the URL's title; the author is the requester |
| Views.PatchComment | api_yamdb/api/v1/views.py:97-114 | 401 for anonymous; 404 outside the URL's review and title; 403 unless author, moderator or admin; then field errors of the partial payload; otherwise only the text changes |
| Views.DestroyComment | api_yamdb/api/v1/views.py:97-114 | 401 for anonymous; 404 outside the URL's review and title; 403 unless author, moderator or admin; otherwise exactly the comment goes |
| Views.CreateTitle | api_yamdb/api/v1/views.py:59-73 | admins only; created iff all slugs resolve, with that category and exactly those genres |
| Views.DestroyTitle | api_yamdb/api/v1/views.py:59-68 | admins only; 404 for a missing title; the cascade removes its reviews and their comments |
| Views.CurrentUserInfo | api_yamdb/api/v1/views.py:202-219 | 401 for anonymous; GET returns the caller's row; PATCH refuses invalid fields or saves the patched row, role and admin status unchanged; other methods 405 |
| Ratings.Rating | api_yamdb/api/v1/views.py:64 | `Avg('reviews__score')`: the exact mean of the title's scores, null without reviews |
| Ratings.TotalsOverRemove | api_yamdb/api/v1/views.py:64 | the sum and count do not depend on the order the reviews are taken in |
| Ratings.TotalsOverFrame | api_yamdb/api/v1/views.py:64 | the totals only read the reviews they range over |
| Ratings.TotalsOverCount | api_yamdb/api/v1/views.py:64 | the count is the number of the title's reviews |
| Ratings.TotalsOverBounds | api_yamdb/api/v1/views.py:64 | with scores in bounds, the sum lies between count times each bound |
| Ratings.RatingAbsentIffNoReviews | api_yamdb/api/v1/views.py:64 | the rating is null exactly when no review belongs to the title |
| Ratings.RatingWithinScoreBounds | api_yamdb/api/v1/views.py:64 | a rating lies between the score bounds |
| Ratings.TotalsAfterInsert | api_yamdb/api/v1/views.py:64 | a new review adds its score to its own title's totals and to no other |
| Ratings.TotalsAfterDelete | api_yamdb/api/v1/views.py:64 | a deleted review takes its score out of its own title's totals only |
| Ratings.RatingExample | api_yamdb/api/views.py:64 | scores 8, 6, 10 rate the title 8.0, shown as 8 |
| Ratings.RatingTruncationExample | api_yamdb/api/serializers.py:32 | scores 8 and 7 average 7.5, shown as 7 |
| Ratings.ShownRatingWithinScoreBounds | api_yamdb/api/v1/serializers.py:32 | the integer shown for a rated title lies within the score bounds |
| LegacyViews.SignUp | api_yamdb/api/views.py:125-141 | validation first; then get_or_create: reuse or one new row, code mailed, payload echoed; a half-taken pair is a 500 |
| LegacyViews.VerifyCode | api_yamdb/api/views.py:148-162 | field errors (code must be an integer); 404 iff no row has the username; a token iff `str(int(code))` checks, else the 400 message |
| LegacyViews.SignUpConflictExample | api_yamdb/api/views.py:131 | with bob/bob@example.com stored, signing up bob/new@example.com is an insert conflict, and the newer view reports it on `username` |
| LegacyViews.SignUpCrashIsV1Mismatch | api_yamdb/api/views.py:130-131 | the older view crashes on exactly the valid payloads the newer one refuses with its mismatch 400 |
| LegacyViews.TimestampSchemeExists | api_yamdb/api/views.py:153 | a generator can accept its own codes and still require a `<timestamp>-<hash>` form |
| LegacyViews.LegacyVerifyCodeNeverIssues | api_yamdb/api/views.py:153 | with such a generator the older token exchange never issues a token, whatever the input |
| LegacyViews.LegacyMailedCodeRefused | api_yamdb/api/serializers.py:128 | the code the older signup mails is refused by the integer field |
| Requests.Denial | api_yamdb/api/v1/permissions.py:6-37 | a refused permission check is 401 for an anonymous caller, 403 for a signed-in one |

## Findings

| source | as written | input that shows it | evidently intended | confidence | as-written member | corrected member |
|---|---|---|---|---|---|---|
| api_yamdb/api/views.py:131 | signup calls `get_or_create(username, email)` with no pre-check; when the username belongs to a row with another email, the insert breaks the unique username and the IntegrityError is uncaught (500) | stored user bob / bob@example.com, signup bob / new@example.com | a 400 naming the mismatching field, as api/v1/views.py:131-152 does | high; not executed | LegacyViews.SignUpConflictExample | Views.SignUp |
| api_yamdb/api/views.py:153 with api_yamdb/api/serializers.py:128 | the code is read as an integer and `str(int)` is checked; Django's tokens are `<timestamp>-<hash>`, so the mailed code is refused by the integer field, and no integer's text can pass the check | any user and any code, e.g. the mailed code itself | check the code as text, as api/v1/views.py:174-177 with a CharField does | high; not executed | LegacyViews.LegacyVerifyCodeNeverIssues | Views.MailedCodeIsAccepted |

## Left out

- Time: the `pub_date` timestamps are left out; they are set from the clock.
- Token internals: the HMAC token generator and JWT issuing are the
  parameters of `TokenScheme`.
- Mail: the sender address and delivery are left out.
- Field rules: the maximum lengths from the settings, the Unicode
  word-character class and `EmailValidator` are the parameters of
  `FieldRules`.
- Field validation: CharField's whitespace trimming is not modelled. Strings
  are taken as already trimmed, and a missing field is treated like a blank
  one. The framework's own field error messages are reduced to the set of
  failing fields. The refusal of U+0000 that every CharField adds
  (`ProhibitNullCharactersValidator`) is modelled as `Serializers.NoNullChars`.
- Title field validation is not modelled: the length of `name`, and `year`
  with `validate_year` from reviews/validators.py, which is not part of
  this model.
- Numerals.ParseInteger: DRF's IntegerField also accepts surrounding
  whitespace, a trailing `.0` and digit-group underscores, and limits the
  length. The model accepts only an optional sign followed by digits. Every
  accepted text still becomes `str(n)` before the check, so the second
  finding does not depend on this.
- Views.VerifyCode: the source answers a failed check with a bare string
  under `confirmation_code`. The model carries it as a one-message list.
- Listing and filtering (`django_filters`, search, pagination) are not
  modelled, and neither are the category and genre viewsets.
- The title viewset's update action is not modelled. The store's category,
  genre and user operations model the data side of those endpoints.
- The admin-only user management viewset is not modelled beyond its
  permission class (IsAdmin).
- The rating a title shows right after it is created is not modelled.
  That title has no annotation, so the field falls back to its default 0.
- The legacy review, comment and title viewsets are not modelled apart.
  Their code is the same as that of api/v1/views.py, and
  `LegacyPermissions` proves their permission classes equal, so the `Views`
  members stand for both revisions. Both revisions share
  `UpdateUserYamDbSerializer` the same way.
- Concurrency: races on the unique constraints are not modelled. Every
  insert is an atomic check-then-insert.
- Floating point: `Avg` is kept as an exact rational mean.
