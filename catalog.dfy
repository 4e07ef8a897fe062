/**
 * The tables of reviews/models.py (with the user table of users/models.py)
 * as one store object. Its invariant `Valid` collects what the schema
 * declares: unique usernames, emails and slugs, one review per (title,
 * author), review scores within bounds, and every foreign key pointing at an
 * existing row. Inserts are atomic check-then-insert operations that refuse
 * with the database error a violated constraint raises; deletes apply the
 * declared `on_delete` rules (CASCADE, and SET_NULL for a title's category).
 */
module Catalog {
  import opened Wrappers
  import opened UserModel

  /** Primary key of a catalog row. */
  type Id = nat

  // Bounds of `Review.score` (settings.SCORE_MIN and settings.SCORE_MAX).
  const SCORE_MIN: int := 1
  const SCORE_MAX: int := 10

  /** `BaseModel`, the shape shared by Genre and Category. */
  datatype Slugged = Slugged(name: string, slug: string)

  /** A work; `category` is the nullable foreign key. */
  datatype Title = Title(name: string, year: int, description: string, category: Option<Id>)

  /** A row of the Title-Genre join table. */
  datatype GenreTitle = GenreTitle(title: Id, genre: Id)

  datatype Review = Review(title: Id, author: UserId, text: string, score: int)

  datatype Comment = Comment(review: Id, author: UserId, text: string)

  /** The IntegrityError kinds the store raises. */
  datatype DbError = UniqueViolation | ForeignKeyViolation

  predicate ScoreInRange(score: int) {
    SCORE_MIN <= score <= SCORE_MAX
  }

  ghost predicate KeysBelow<V>(m: map<nat, V>, bound: nat) {
    forall k :: k in m ==> k < bound
  }

  ghost predicate UniqueUsernames(users: map<UserId, Account>) {
    forall i, j :: i in users && j in users && users[i].username == users[j].username ==> i == j
  }

  ghost predicate UniqueEmails(users: map<UserId, Account>) {
    forall i, j :: i in users && j in users && users[i].email == users[j].email ==> i == j
  }

  ghost predicate UniqueSlugs(m: map<Id, Slugged>) {
    forall i, j :: i in m && j in m && m[i].slug == m[j].slug ==> i == j
  }

  /** The `unique_review` constraint on (title, author). */
  ghost predicate OneReviewPerAuthor(rs: map<Id, Review>) {
    forall i, j :: i in rs && j in rs && rs[i].title == rs[j].title && rs[i].author == rs[j].author ==> i == j
  }

  ghost predicate ScoresInRange(rs: map<Id, Review>) {
    forall i :: i in rs ==> ScoreInRange(rs[i].score)
  }

  /** The rows of `m` whose value satisfies `keep`, unchanged. */
  function Where<V>(m: map<Id, V>, keep: V -> bool): (r: map<Id, V>)
    ensures forall k :: k in r <==> k in m && keep(m[k])
    ensures forall k :: k in r ==> r[k] == m[k]
  {
    map k | k in m && keep(m[k]) :: m[k]
  }

  /** `filter(username=...).first()` over a table whose usernames are unique. */
  function UserByUsername(users: map<UserId, Account>, username: string): (r: Option<UserId>)
    requires UniqueUsernames(users)
    ensures r.Some? ==> r.value in users && users[r.value].username == username
    ensures r.None? <==> forall id :: id in users ==> users[id].username != username
  {
    if exists id :: id in users && users[id].username == username then
      var id :| id in users && users[id].username == username; Some(id)
    else None
  }

  /** `filter(email=...).first()` over a table whose emails are unique. */
  function UserByEmail(users: map<UserId, Account>, email: string): (r: Option<UserId>)
    requires UniqueEmails(users)
    ensures r.Some? ==> r.value in users && users[r.value].email == email
    ensures r.None? <==> forall id :: id in users ==> users[id].email != email
  {
    if exists id :: id in users && users[id].email == email then
      var id :| id in users && users[id].email == email; Some(id)
    else None
  }

  /** `get(slug=...)` on the genre or category table. */
  function BySlug(m: map<Id, Slugged>, slug: string): (r: Option<Id>)
    requires UniqueSlugs(m)
    ensures r.Some? ==> r.value in m && m[r.value].slug == slug
    ensures r.None? <==> forall id :: id in m ==> m[id].slug != slug
  {
    if exists id :: id in m && m[id].slug == slug then
      var id :| id in m && m[id].slug == slug; Some(id)
    else None
  }

  /** What `get_or_create(username=..., email=...)` meets in the user table. */
  datatype GetOrCreateOutcome = Existing(id: UserId) | Absent | Conflict

  /**
   * The row holding both values; or neither value taken, so a row can be
   * inserted; or a conflict, where one value belongs to a row that does not
   * hold the other and the insert breaks a unique constraint.
   */
  function GetOrCreateCase(users: map<UserId, Account>, username: string, email: string): (c: GetOrCreateOutcome)
    requires UniqueUsernames(users) && UniqueEmails(users)
    ensures c.Existing? ==> c.id in users && users[c.id].username == username && users[c.id].email == email
    ensures c.Absent? <==> forall id :: id in users ==> users[id].username != username && users[id].email != email
    ensures c.Conflict? <==>
      && (forall id :: id in users ==> !(users[id].username == username && users[id].email == email))
      && (exists id :: id in users && (users[id].username == username || users[id].email == email))
  {
    var byName := UserByUsername(users, username);
    if byName.Some? && users[byName.value].email == email then Existing(byName.value)
    else if byName.Some? || UserByEmail(users, email).Some? then Conflict
    else Absent
  }

  /** `Review.objects.filter(author=..., title=...).exists()` */
  predicate HasReviewBy(rs: map<Id, Review>, title: Id, author: UserId) {
    exists i :: i in rs && rs[i].title == title && rs[i].author == author
  }

  /** The genres linked to title `t`. */
  function GenresOf(links: map<Id, GenreTitle>, t: Id): set<Id> {
    set l | l in links && links[l].title == t :: links[l].genre
  }

  /** Adding a link for title `t` adds exactly its genre to the title's genres. */
  lemma GenresOfAdd(links: map<Id, GenreTitle>, k: Id, t: Id, g: Id)
    requires k !in links
    ensures GenresOf(links[k := GenreTitle(t, g)], t) == GenresOf(links, t) + {g}
  {
    var after := links[k := GenreTitle(t, g)];
    forall x | x in GenresOf(after, t) ensures x in GenresOf(links, t) + {g} {
      var l :| l in after && after[l].title == t && after[l].genre == x;
      if l != k {
        assert l in links && links[l].title == t;
      }
    }
    forall x | x in GenresOf(links, t) + {g} ensures x in GenresOf(after, t) {
      if x == g {
        assert after[k].title == t && after[k].genre == g;
      } else {
        var l :| l in links && links[l].title == t && links[l].genre == x;
        assert l in after && after[l] == links[l];
      }
    }
  }

  /** The comments whose review is among `rs`: what survives a cascade from the review table. */
  function CommentsUnder(cs: map<Id, Comment>, rs: map<Id, Review>): (r: map<Id, Comment>)
    ensures forall c :: c in r <==> c in cs && cs[c].review in rs
    ensures forall c :: c in r ==> r[c] == cs[c]
  {
    map c | c in cs && cs[c].review in rs :: cs[c]
  }

  /** Category deletion's SET_NULL: every title in category `c` loses its category. */
  function ClearCategory(ts: map<Id, Title>, c: Id): (r: map<Id, Title>)
    ensures r.Keys == ts.Keys
    ensures forall t :: t in r ==> r[t].category != Some(c)
    ensures forall t :: t in r ==> r[t] == ts[t] || (ts[t].category == Some(c) && r[t] == ts[t].(category := None))
  {
    map t | t in ts :: if ts[t].category == Some(c) then ts[t].(category := None) else ts[t]
  }

  /** The user table plus the catalog tables, with the schema's constraints as invariant. */
  class Store {
    var users: map<UserId, Account>
    var categories: map<Id, Slugged>
    var genres: map<Id, Slugged>
    var titles: map<Id, Title>
    var genreTitles: map<Id, GenreTitle>
    var reviews: map<Id, Review>
    var comments: map<Id, Comment>
    /** The next primary key the store hands out. */
    var nextId: nat

    /** Every key was handed out before `nextId`. */
    ghost predicate KeysIssued()
      reads this
    {
      && KeysBelow(users, nextId) && KeysBelow(categories, nextId) && KeysBelow(genres, nextId)
      && KeysBelow(titles, nextId) && KeysBelow(genreTitles, nextId)
      && KeysBelow(reviews, nextId) && KeysBelow(comments, nextId)
    }

    /** Every foreign key points at an existing row. */
    ghost predicate ReferencesResolve()
      reads this
    {
      && (forall t :: t in titles && titles[t].category.Some? ==> titles[t].category.value in categories)
      && (forall l :: l in genreTitles ==> genreTitles[l].title in titles && genreTitles[l].genre in genres)
      && (forall r :: r in reviews ==> reviews[r].title in titles && reviews[r].author in users)
      && (forall c :: c in comments ==> comments[c].review in reviews && comments[c].author in users)
    }

    ghost predicate Valid()
      reads this
    {
      && KeysIssued()
      && UniqueUsernames(users) && UniqueEmails(users)
      && UniqueSlugs(categories) && UniqueSlugs(genres)
      && OneReviewPerAuthor(reviews) && ScoresInRange(reviews)
      && ReferencesResolve()
    }

    constructor ()
      ensures Valid()
      ensures users == map[] && categories == map[] && genres == map[] && titles == map[]
      ensures genreTitles == map[] && reviews == map[] && comments == map[]
    {
      users, categories, genres, titles := map[], map[], map[], map[];
      genreTitles, reviews, comments := map[], map[], map[];
      nextId := 0;
    }

    // ----- users -----

    /**
     * `get_or_create(username=..., email=...)`: the row with both values if
     * there is one, otherwise a new row with defaults; the insert fails on the
     * unique username or email when either is already taken by another row.
     */
    method GetOrCreateUser(username: string, email: string) returns (r: Result<(UserId, bool), DbError>)
      requires Valid()
      modifies this`users, this`nextId
      ensures Valid()
      ensures var c := GetOrCreateCase(old(users), username, email);
        && (c.Existing? ==> r == Ok((c.id, false)) && users == old(users) && nextId == old(nextId))
        && (c.Conflict? ==> r == Err(UniqueViolation) && users == old(users) && nextId == old(nextId))
        && (c.Absent? ==> r == Ok((old(nextId), true)) && nextId == old(nextId) + 1 &&
                          users == old(users)[old(nextId) := NewAccount(username, email)])
    {
      var c := GetOrCreateCase(users, username, email);
      if c.Existing? {
        return Ok((c.id, false));
      }
      if c.Conflict? {
        return Err(UniqueViolation);
      }
      var id := nextId;
      users := users[id := NewAccount(username, email)];
      nextId := nextId + 1;
      r := Ok((id, true));
    }

    /** Saves a changed user row; another row already holding the username or email makes it fail. */
    method UpdateUser(id: UserId, a: Account) returns (r: Result<(), DbError>)
      requires Valid() && id in users
      modifies this`users
      ensures Valid()
      ensures r.Ok? <==> forall j :: j in old(users) && j != id ==>
        old(users)[j].username != a.username && old(users)[j].email != a.email
      ensures r.Ok? ==> users == old(users)[id := a]
      ensures r.Err? ==> r.error == UniqueViolation && users == old(users)
    {
      if exists j :: j in users && j != id && (users[j].username == a.username || users[j].email == a.email) {
        return Err(UniqueViolation);
      }
      users := users[id := a];
      r := Ok(());
    }

    /** Deleting a user cascades to their reviews and comments, and to the comments under those reviews. */
    method DeleteUser(id: UserId) returns (found: bool)
      requires Valid()
      modifies this`users, this`reviews, this`comments
      ensures Valid()
      ensures found == (id in old(users))
      ensures users == old(users) - {id}
      ensures !found ==> reviews == old(reviews) && comments == old(comments)
      ensures found ==> reviews == Where(old(reviews), (rv: Review) => rv.author != id)
      ensures found ==> comments == CommentsUnder(Where(old(comments), (c: Comment) => c.author != id), reviews)
      ensures forall r :: r in reviews ==> reviews[r].author != id
      ensures forall c :: c in comments ==> comments[c].author != id && reviews[comments[c].review].author != id
    {
      found := id in users;
      if !found {
        return;
      }
      users := users - {id};
      reviews := Where(reviews, (rv: Review) => rv.author != id);
      comments := CommentsUnder(Where(comments, (c: Comment) => c.author != id), reviews);
    }

    // ----- categories and genres -----

    method InsertCategory(name: string, slug: string) returns (r: Result<Id, DbError>)
      requires Valid()
      modifies this`categories, this`nextId
      ensures Valid()
      ensures r.Err? <==> BySlug(old(categories), slug).Some?
      ensures r.Err? ==> r.error == UniqueViolation && categories == old(categories) && nextId == old(nextId)
      ensures r.Ok? ==> (r.value == old(nextId) && nextId == old(nextId) + 1 &&
                         categories == old(categories)[r.value := Slugged(name, slug)])
    {
      if BySlug(categories, slug).Some? {
        return Err(UniqueViolation);
      }
      r := Ok(nextId);
      categories := categories[nextId := Slugged(name, slug)];
      nextId := nextId + 1;
    }

    method InsertGenre(name: string, slug: string) returns (r: Result<Id, DbError>)
      requires Valid()
      modifies this`genres, this`nextId
      ensures Valid()
      ensures r.Err? <==> BySlug(old(genres), slug).Some?
      ensures r.Err? ==> r.error == UniqueViolation && genres == old(genres) && nextId == old(nextId)
      ensures r.Ok? ==> (r.value == old(nextId) && nextId == old(nextId) + 1 &&
                         genres == old(genres)[r.value := Slugged(name, slug)])
    {
      if BySlug(genres, slug).Some? {
        return Err(UniqueViolation);
      }
      r := Ok(nextId);
      genres := genres[nextId := Slugged(name, slug)];
      nextId := nextId + 1;
    }

    /** Deleting a category keeps its titles and sets their category to null. */
    method DeleteCategory(id: Id) returns (found: bool)
      requires Valid()
      modifies this`categories, this`titles
      ensures Valid()
      ensures found == (id in old(categories))
      ensures categories == old(categories) - {id}
      ensures !found ==> titles == old(titles)
      ensures found ==> titles == ClearCategory(old(titles), id)
      ensures titles.Keys == old(titles).Keys
    {
      found := id in categories;
      if !found {
        return;
      }
      categories := categories - {id};
      titles := ClearCategory(titles, id);
    }

    /** Deleting a genre removes only its links; the titles stay. */
    method DeleteGenre(id: Id) returns (found: bool)
      requires Valid()
      modifies this`genres, this`genreTitles
      ensures Valid()
      ensures found == (id in old(genres))
      ensures genres == old(genres) - {id}
      ensures genreTitles == Where(old(genreTitles), (l: GenreTitle) => l.genre != id)
      ensures forall t :: GenresOf(genreTitles, t) == GenresOf(old(genreTitles), t) - {id}
    {
      found := id in genres;
      genres := genres - {id};
      genreTitles := Where(genreTitles, (l: GenreTitle) => l.genre != id);
    }

    // ----- titles -----

    /**
     * Inserts a title and then one link per genre (`title.genre.set(...)`).
     * A category or genre that does not exist violates a foreign key.
     */
    method InsertTitle(name: string, year: int, description: string, category: Option<Id>, genreIds: set<Id>)
      returns (r: Result<Id, DbError>)
      requires Valid()
      modifies this`titles, this`genreTitles, this`nextId
      ensures Valid()
      ensures r.Err? <==> (category.Some? && category.value !in categories) || !(genreIds <= genres.Keys)
      ensures r.Err? ==> (r.error == ForeignKeyViolation && titles == old(titles) &&
                          genreTitles == old(genreTitles) && nextId == old(nextId))
      ensures r.Ok? ==> r.value == old(nextId) && titles == old(titles)[r.value := Title(name, year, description, category)]
      ensures r.Ok? ==> GenresOf(genreTitles, r.value) == genreIds
      ensures r.Ok? ==> forall l :: l in old(genreTitles) ==> l in genreTitles && genreTitles[l] == old(genreTitles)[l]
      ensures r.Ok? ==> forall l :: l in genreTitles && l !in old(genreTitles) ==> genreTitles[l].title == r.value
    {
      if (category.Some? && category.value !in categories) || !(genreIds <= genres.Keys) {
        return Err(ForeignKeyViolation);
      }
      var id := InsertTitleRow(Title(name, year, description, category));
      LinkGenres(id, genreIds);
      r := Ok(id);
    }

    /** `title.genre.set(genreIds)` on a title that has no genre yet: one link per genre. */
    method LinkGenres(id: Id, genreIds: set<Id>)
      requires Valid() && id in titles && genreIds <= genres.Keys && GenresOf(genreTitles, id) == {}
      modifies this`genreTitles, this`nextId
      ensures Valid()
      ensures GenresOf(genreTitles, id) == genreIds
      ensures forall l :: l in old(genreTitles) ==> l in genreTitles && genreTitles[l] == old(genreTitles)[l]
      ensures forall l :: l in genreTitles && l !in old(genreTitles) ==> genreTitles[l].title == id
    {
      var todo := genreIds;
      while todo != {}
        invariant todo <= genreIds
        invariant Valid()
        invariant GenresOf(genreTitles, id) == genreIds - todo
        invariant forall l :: l in old(genreTitles) ==> l in genreTitles && genreTitles[l] == old(genreTitles)[l]
        invariant forall l :: l in genreTitles && l !in old(genreTitles) ==> genreTitles[l].title == id
        decreases todo
      {
        var g :| g in todo;
        var before := genreTitles;
        AddLink(id, g);
        GenresOfAdd(before, nextId - 1, id, g);
        todo := todo - {g};
      }
    }

    /** The insert into the title table alone, before any genre is linked. */
    method InsertTitleRow(t: Title) returns (id: Id)
      requires Valid() && (t.category.Some? ==> t.category.value in categories)
      modifies this`titles, this`nextId
      ensures Valid()
      ensures id == old(nextId) && nextId == old(nextId) + 1
      ensures titles == old(titles)[id := t]
      ensures GenresOf(genreTitles, id) == {}
    {
      id := nextId;
      titles := titles[id := t];
      nextId := nextId + 1;
    }

    /** One insert into the join table. */
    method AddLink(title: Id, genre: Id)
      requires Valid() && title in titles && genre in genres
      modifies this`genreTitles, this`nextId
      ensures Valid()
      ensures old(nextId) !in old(genreTitles) && nextId == old(nextId) + 1
      ensures genreTitles == old(genreTitles)[old(nextId) := GenreTitle(title, genre)]
    {
      genreTitles := genreTitles[nextId := GenreTitle(title, genre)];
      nextId := nextId + 1;
    }

    /** Deleting a title cascades to its genre links, its reviews and their comments. */
    method DeleteTitle(id: Id) returns (found: bool)
      requires Valid()
      modifies this`titles, this`genreTitles, this`reviews, this`comments
      ensures Valid()
      ensures found == (id in old(titles))
      ensures titles == old(titles) - {id}
      ensures genreTitles == Where(old(genreTitles), (l: GenreTitle) => l.title != id)
      ensures reviews == Where(old(reviews), (rv: Review) => rv.title != id)
      ensures comments == CommentsUnder(old(comments), reviews)
      ensures forall c :: c in old(comments) ==> (c in comments <==> old(reviews)[old(comments)[c].review].title != id)
    {
      found := id in titles;
      titles := titles - {id};
      genreTitles := Where(genreTitles, (l: GenreTitle) => l.title != id);
      reviews := Where(reviews, (rv: Review) => rv.title != id);
      comments := CommentsUnder(comments, reviews);
    }

    // ----- reviews -----

    /**
     * Saves a new review. The score validators are not database constraints:
     * callers (the review serializer) validate the score first. The database
     * enforces both foreign keys and `unique_review`.
     */
    method InsertReview(title: Id, author: UserId, text: string, score: int) returns (r: Result<Id, DbError>)
      requires Valid() && ScoreInRange(score)
      modifies this`reviews, this`nextId
      ensures Valid()
      ensures (title !in titles || author !in users) ==> r == Err(ForeignKeyViolation)
      ensures title in titles && author in users && HasReviewBy(old(reviews), title, author) ==> r == Err(UniqueViolation)
      ensures r.Err? ==> reviews == old(reviews) && nextId == old(nextId)
      ensures r.Ok? <==> title in titles && author in users && !HasReviewBy(old(reviews), title, author)
      ensures r.Ok? ==> (r.value == old(nextId) && nextId == old(nextId) + 1 &&
                         reviews == old(reviews)[r.value := Review(title, author, text, score)])
    {
      if title !in titles || author !in users {
        return Err(ForeignKeyViolation);
      }
      if HasReviewBy(reviews, title, author) {
        return Err(UniqueViolation);
      }
      r := Ok(nextId);
      reviews := reviews[nextId := Review(title, author, text, score)];
      nextId := nextId + 1;
    }

    /** Saves new text and score on an existing review; its title and author never change. */
    method UpdateReview(id: Id, text: string, score: int)
      requires Valid() && id in reviews && ScoreInRange(score)
      modifies this`reviews
      ensures Valid()
      ensures reviews == old(reviews)[id := old(reviews)[id].(text := text, score := score)]
    {
      reviews := reviews[id := reviews[id].(text := text, score := score)];
    }

    /** Deleting a review cascades to its comments. */
    method DeleteReview(id: Id) returns (found: bool)
      requires Valid()
      modifies this`reviews, this`comments
      ensures Valid()
      ensures found == (id in old(reviews))
      ensures reviews == old(reviews) - {id}
      ensures comments == Where(old(comments), (c: Comment) => c.review != id)
    {
      found := id in reviews;
      reviews := reviews - {id};
      comments := Where(comments, (c: Comment) => c.review != id);
    }

    // ----- comments -----

    method InsertComment(review: Id, author: UserId, text: string) returns (r: Result<Id, DbError>)
      requires Valid()
      modifies this`comments, this`nextId
      ensures Valid()
      ensures r.Err? <==> review !in reviews || author !in users
      ensures r.Err? ==> r.error == ForeignKeyViolation && comments == old(comments) && nextId == old(nextId)
      ensures r.Ok? ==> (r.value == old(nextId) && nextId == old(nextId) + 1 &&
                         comments == old(comments)[r.value := Comment(review, author, text)])
    {
      if review !in reviews || author !in users {
        return Err(ForeignKeyViolation);
      }
      r := Ok(nextId);
      comments := comments[nextId := Comment(review, author, text)];
      nextId := nextId + 1;
    }

    /** Saves new text on an existing comment; its review and author never change. */
    method UpdateComment(id: Id, text: string)
      requires Valid() && id in comments
      modifies this`comments
      ensures Valid()
      ensures comments == old(comments)[id := old(comments)[id].(text := text)]
    {
      comments := comments[id := comments[id].(text := text)];
    }

    method DeleteComment(id: Id) returns (found: bool)
      requires Valid()
      modifies this`comments
      ensures Valid()
      ensures found == (id in old(comments))
      ensures comments == old(comments) - {id}
    {
      found := id in comments;
      comments := comments - {id};
    }
  }
}
