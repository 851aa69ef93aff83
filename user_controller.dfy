/**
 * The user handlers: the paged listing, sign-up with its duplicate check,
 * and the password check used at login.  Hashing, comparison of a hash with
 * a password, and token generation are supplied as functions.
 */
module UserController {
  import opened Wrappers
  import opened ObjectIds
  import opened Documents
  import opened Aggregation
  import opened Database
  import opened Models
  import opened Paging

  // ----------------------------------------------------------------- GetUsers

  /**
   * The listing aggregation of GetUsers as written: the match stage, then
   * the listing projection applied to each user document, with no group
   * stage in between.
   */
  function UserListing(rows: seq<Row>, startIndex: int, recordPerPage: Positive): seq<Row>
  {
    ProjectAll(MatchAll(rows), ListingProjection("user_items", startIndex, recordPerPage))
  }

  /**
   * GetUsers: the parsed (or defaulted) parameters feed the aggregation; the
   * first result document is sent, and an empty result fails on indexing.
   */
  method GetUsers(db: Store, recordPerPageQuery: Option<int>, pageQuery: Option<int>, startIndexQuery: Option<int>)
    returns (resp: Response)
    ensures var recordPerPage: Positive :=
        if recordPerPageQuery.Some? && recordPerPageQuery.value >= 1 then recordPerPageQuery.value else DefaultRecordPerPage;
      var startIndex := if startIndexQuery.Some? then startIndexQuery.value else 0;
      var out := UserListing(db.State().user, startIndex, recordPerPage);
      && (out == [] ==> resp == Crash)
      && (out != [] ==> resp == Ok(Doc(out[0])))
  {
    var recordPerPage, page, startIndex := ListingParams(recordPerPageQuery, pageQuery, startIndexQuery);
    var allUsers := UserListing(db.State().user, startIndex, recordPerPage);
    if allUsers == [] {
      return Crash;
    }
    resp := Ok(Doc(allUsers[0]));
  }

  /** A document with neither total_count nor data projects to a null user_items alone. */
  lemma UserItemsOnly(row: Row, startIndex: int, recordPerPage: Positive)
    requires "total_count" !in row && "data" !in row
    ensures Project(row, ListingProjection("user_items", startIndex, recordPerPage)) == map["user_items" := Null]
  {
    var spec := ListingProjection("user_items", startIndex, recordPerPage);
    assert Eval(row, "user_items", spec[2].1) == Some(Null);
    assert spec[2..] == [spec[2]] && spec[2..][1..] == [];
    assert Computed(row, spec[2..]) == map["user_items" := Null];
    assert spec[1..][1..] == spec[2..];
    assert Computed(row, spec[1..]) == map["user_items" := Null];
    assert Computed(row, spec) == Computed(row, spec[1..]);
    assert ("_id", Exclude) in spec;
  }

  /**
   * So, over stored user documents, GetUsers as written yields one document
   * per user holding only a null user_items: neither the count nor the users.
   */
  lemma GetUsersAsWritten(users: seq<User>, rows: seq<Row>, startIndex: int, recordPerPage: Positive)
    requires |rows| == |users|
    requires forall i :: 0 <= i < |users| ==> rows[i] == UserDoc(users[i])
    ensures |UserListing(rows, startIndex, recordPerPage)| == |users|
    ensures forall i :: 0 <= i < |users| ==> UserListing(rows, startIndex, recordPerPage)[i] == map["user_items" := Null]
  {
    forall d | d in rows ensures "" !in d {
      var i :| 0 <= i < |rows| && rows[i] == d;
      assert d == UserDoc(users[i]);
    }
    MatchAllKeeps(rows);
    forall i | 0 <= i < |users|
      ensures UserListing(rows, startIndex, recordPerPage)[i] == map["user_items" := Null] {
      assert "total_count" !in rows[i] && "data" !in rows[i] by {
        assert rows[i] == UserDoc(users[i]);
      }
      UserItemsOnly(rows[i], startIndex, recordPerPage);
    }
  }

  /**
   * GetUsers as intended: the same one-bucket group as the food listing
   * before the projection, so the answer is the user count and the
   * requested page of users.
   */
  method CorrectedGetUsers(db: Store, recordPerPageQuery: Option<int>, pageQuery: Option<int>, startIndexQuery: Option<int>)
    returns (resp: Response)
    ensures MatchAll(db.State().user) == [] ==> resp == Crash
    ensures var m := MatchAll(db.State().user);
      var recordPerPage: Positive :=
        if recordPerPageQuery.Some? && recordPerPageQuery.value >= 1 then recordPerPageQuery.value else DefaultRecordPerPage;
      var startIndex := if startIndexQuery.Some? then startIndexQuery.value else 0;
      m != [] ==> resp == Ok(Doc(Page(m, "user_items", startIndex, recordPerPage)))
  {
    var recordPerPage, page, startIndex := ListingParams(recordPerPageQuery, pageQuery, startIndexQuery);
    var allUsers := Listing(db.State().user, "user_items", startIndex, recordPerPage);
    ListingShape(db.State().user, "user_items", startIndex, recordPerPage);
    if allUsers == [] {
      return Crash;
    }
    resp := Ok(Doc(allUsers[0]));
  }

  // ------------------------------------------------------------------- SignUp

  /** The phone number of the request is already stored (a nil phone matches a null one). */
  predicate PhoneTaken(s: DbState, user: User)
  {
    s.Count(UserColl, "phone", OptStr(user.phone)) > 0
  }

  /** The fields GenerateAllTokens dereferences are all set. */
  predicate HasNames(user: User)
  {
    user.email.Some? && user.firstName.Some? && user.lastName.Some?
  }

  /**
   * The user as stored: the password replaced by its hash, stamped, its hex
   * id as user_id, and the two tokens generated from email, names and id.
   */
  function StoredUser(user: User, id: ObjectId, now: int, hash: string -> string,
                      tokens: (string, string, string, string) -> (string, string)): (u: User)
    requires user.password.Some? && HasNames(user)
    ensures u.password == Some(hash(user.password.value))
    ensures u.id == id && u.userId == Hex(id) && u.createdAt == now && u.updatedAt == now
    ensures var t := tokens(user.email.value, user.firstName.value, user.lastName.value, Hex(id));
      u.token == Some(t.0) && u.refreshToken == Some(t.1)
    ensures u.email == user.email && u.phone == user.phone
    ensures u.firstName == user.firstName && u.lastName == user.lastName
  {
    var t := tokens(user.email.value, user.firstName.value, user.lastName.value, Hex(id));
    user.(password := Some(hash(user.password.value)), createdAt := now, updatedAt := now,
          id := id, userId := Hex(id), token := Some(t.0), refreshToken := Some(t.1))
  }

  /**
   * SignUp: a malformed or invalid user is refused before any store call; a
   * nil password fails at hashing; a taken phone number is refused (the
   * email count is computed and then overwritten); nil email or names fail
   * at token generation; otherwise the user is inserted.
   */
  method SignUp(db: Store, body: Result<User, string>, validate: User -> Option<string>, hash: string -> string,
                tokens: (string, string, string, string) -> (string, string), id: ObjectId, now: int)
    returns (resp: Response)
    modifies db
    ensures body.Failure? ==> resp == BadRequest(body.error)
    ensures body.Success? && validate(body.value).Some? ==> resp == BadRequest(validate(body.value).value)
    ensures body.Success? && validate(body.value).None? && body.value.password.None? ==> resp == Crash
    ensures body.Success? && validate(body.value).None? && body.value.password.Some? ==>
      (resp == ServerError("this email or phone number already exists") <==> PhoneTaken(old(db.State()), body.value))
    ensures body.Success? && validate(body.value).None? && body.value.password.Some? &&
            !PhoneTaken(old(db.State()), body.value) && !HasNames(body.value)
      ==> resp == Crash
    ensures resp.Ok? <==> body.Success? && validate(body.value).None? && body.value.password.Some?
                          && !PhoneTaken(old(db.State()), body.value) && HasNames(body.value)
    ensures resp.Ok? ==> resp.body == InsertedBody(id)
    ensures resp.Ok? ==> db.State() == old(db.State()).With(UserColl,
                            old(db.State()).user + [UserDoc(StoredUser(body.value, id, now, hash, tokens))])
    ensures !resp.Ok? ==> db.State() == old(db.State())
  {
    if body.Failure? {
      return BadRequest(body.error);
    }
    var user := body.value;
    var validationErr := validate(user);
    if validationErr.Some? {
      return BadRequest(validationErr.value);
    }
    var count := db.State().Count(UserColl, "email", OptStr(user.email));
    if user.password.None? {
      return Crash;
    }
    var password := hash(user.password.value);
    user := user.(password := Some(password));
    count := db.State().Count(UserColl, "phone", OptStr(user.phone));
    if count > 0 {
      return ServerError("this email or phone number already exists");
    }
    user := user.(createdAt := now, updatedAt := now);
    user := user.(id := id);
    user := user.(userId := Hex(user.id));
    if user.email.None? || user.firstName.None? || user.lastName.None? {
      return Crash;
    }
    var t := tokens(user.email.value, user.firstName.value, user.lastName.value, user.userId);
    user := user.(token := Some(t.0), refreshToken := Some(t.1));
    db.InsertOne(UserColl, UserDoc(user));
    resp := Ok(InsertedBody(id));
  }

  /**
   * Once a user is stored, every later sign-up with the same phone number
   * (nil included) is refused as a duplicate.
   */
  lemma SignedUpPhoneTaken(s: DbState, user: User, id: ObjectId, now: int, hash: string -> string,
                           tokens: (string, string, string, string) -> (string, string), other: User)
    requires user.password.Some? && HasNames(user)
    requires other.phone == user.phone
    ensures PhoneTaken(s.With(UserColl, s.user + [UserDoc(StoredUser(user, id, now, hash, tokens))]), other)
  {
    var s' := s.With(UserColl, s.user + [UserDoc(StoredUser(user, id, now, hash, tokens))]);
    assert FieldEquals(s'.user[|s.user|], "phone", OptStr(other.phone));
  }

  /** The stored document never holds the password as sent, only its hash. */
  lemma StoredPasswordIsHash(user: User, id: ObjectId, now: int, hash: string -> string,
                             tokens: (string, string, string, string) -> (string, string))
    requires user.password.Some? && HasNames(user)
    ensures UserDoc(StoredUser(user, id, now, hash, tokens))["password"] == Str(hash(user.password.value))
    ensures UserDoc(StoredUser(user, id, now, hash, tokens))["user_id"] == Str(Hex(id))
  {
  }

  // ----------------------------------------------------------- VerifyPassword

  /**
   * VerifyPassword(userPassword, providedPassword): compares the provided
   * (stored, hashed) password with the user's plain one and maps the outcome
   * to a flag and a message.
   */
  method VerifyPassword(userPassword: string, providedPassword: string, matches: (string, string) -> bool)
    returns (check: bool, msg: string)
    ensures check <==> matches(providedPassword, userPassword)
    ensures check ==> msg == ""
    ensures !check ==> msg == "login or password is incorrect"
  {
    var ok := matches(providedPassword, userPassword);
    check := true;
    msg := "";
    if !ok {
      msg := "login or password is incorrect";
      check := false;
    }
  }
}
