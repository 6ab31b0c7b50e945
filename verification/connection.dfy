/** Connection setup: `init_database` builds a MySQL connection URI from five
    user-supplied strings, asks the driver for a handle, and sorts a failure into
    one of three reported outcomes. The driver is the parameter `connect`. */
module Connection {
  import opened Wrappers
  import opened Text

  /** The five sidebar fields, all free text. */
  datatype Credentials = Credentials(
    user: string, password: string, host: string, port: string, database: string)

  /** The `orig` attribute of a SQLAlchemy error: the driver's own error. Only a
      MySQL Connector `ProgrammingError` carries the errno the script inspects. */
  datatype DriverError = MySqlProgrammingError(errno: int) | OtherDriverError

  /** What `SQLDatabase.from_uri` can raise, as far as the script distinguishes:
      a SQLAlchemy `ProgrammingError` wrapping a driver error, or anything else. */
  datatype ConnectException =
    | ProgrammingError(orig: DriverError)
    | OtherException

  /** One call of the driver: a handle, or an exception. */
  datatype Attempt<H> = Opened(handle: H) | Raised(exception: ConnectException)

  /** The three outcomes the script reports with `st.error`. */
  datatype ConnectError =
    | DatabaseNotFound(database: string)
    | ConnectionFailed
    | UnexpectedError

  /** MySQL server error ER_BAD_DB_ERROR, "Unknown database". */
  const UnknownDatabaseErrno: int := 1049

  const Scheme: string := "mysql+mysqlconnector://"

  /** The URI `init_database` hands to the driver: plain concatenation, no
      escaping and no validation of the parts. */
  function Uri(c: Credentials): (u: string)
    ensures StartsWith(u, Scheme)
    ensures |u| == |Scheme| + |c.user| + |c.password| + |c.host| + |c.port| + |c.database| + 4
  {
    Scheme + c.user + ":" + c.password + "@" + c.host + ":" + c.port + "/" + c.database
  }

  /** A reference inverse of `Uri`, used only to show that the concatenation
      loses nothing when no part contains the separator after it. It reads a URI
      back into its five parts by splitting at the first `:`, then the first
      `@`, the first `:` and the first `/`; `None` when the scheme or a
      separator is missing. It is not how the driver reads the URI: SQLAlchemy's
      URL parser, for one, also treats `?` as the start of query parameters. */
  function ParseUri(u: string): (r: Option<Credentials>)
    ensures r.Some? ==> Uri(r.value) == u
  {
    if !StartsWith(u, Scheme) then None
    else
      var rest := u[|Scheme|..];
      assert u == Scheme + rest;
      if ':' !in rest then None
      else
        var (user, rest1) := SplitFirst(rest, ':');
        if '@' !in rest1 then None
        else
          var (password, rest2) := SplitFirst(rest1, '@');
          if ':' !in rest2 then None
          else
            var (host, rest3) := SplitFirst(rest2, ':');
            if '/' !in rest3 then None
            else
              var (port, database) := SplitFirst(rest3, '/');
              var c := Credentials(user, password, host, port, database);
              JoinParts(u, rest, rest1, rest2, rest3, c);
              Some(c)
  }

  /** Reassembles the URI from the pieces `ParseUri` cut it into. */
  lemma JoinParts(u: string, rest: string, rest1: string, rest2: string, rest3: string, c: Credentials)
    requires u == Scheme + rest
    requires rest == c.user + ":" + rest1
    requires rest1 == c.password + "@" + rest2
    requires rest2 == c.host + ":" + rest3
    requires rest3 == c.port + "/" + c.database
    ensures Uri(c) == u
  {
  }

  /** The parts of a URI are recoverable when none of the first four contains
      the separator that follows it. */
  predicate SeparatorFree(c: Credentials) {
    ':' !in c.user && '@' !in c.password && ':' !in c.host && '/' !in c.port
  }

  /** Building a URI and reading it back gives the same credentials, provided
      no part contains its separator. */
  lemma ParseUriRoundTrip(c: Credentials)
    requires SeparatorFree(c)
    ensures ParseUri(Uri(c)) == Some(c)
  {
    var u := Uri(c);
    var rest3 := c.port + "/" + c.database;
    var rest2 := c.host + ":" + rest3;
    var rest1 := c.password + "@" + rest2;
    var rest := c.user + ":" + rest1;
    assert u == Scheme + rest;
    assert u[|Scheme|..] == rest;
    SplitFirstJoin(c.user, ':', rest1);
    SplitFirstJoin(c.password, '@', rest2);
    SplitFirstJoin(c.host, ':', rest3);
    SplitFirstJoin(c.port, '/', c.database);
  }

  /** Without escaping, different credentials can produce the same URI: an `@`
      and a `:` in the password are indistinguishable from the separators. */
  lemma UriIsAmbiguous()
    ensures var c1 := Credentials("root", "p@h:1", "db.local", "3306", "shop");
            var c2 := Credentials("root", "p", "h:1@db.local", "3306", "shop");
            c1 != c2 && Uri(c1) == Uri(c2)
  {
    var c1 := Credentials("root", "p@h:1", "db.local", "3306", "shop");
    var c2 := Credentials("root", "p", "h:1@db.local", "3306", "shop");
    assert c1.password != c2.password;
  }

  /** `init_database`: one driver call with `Uri(c)`. A handle is returned as is;
      a `ProgrammingError` whose original error is a MySQL `ProgrammingError`
      with errno 1049 names the missing database; any other `ProgrammingError`
      is a generic connect failure; anything else is unexpected. */
  function InitDatabase<H>(c: Credentials, connect: string -> Attempt<H>): (r: Result<H, ConnectError>)
    ensures r.Success? <==> connect(Uri(c)).Opened?
    ensures r.Success? ==> r.value == connect(Uri(c)).handle
    ensures (r == Failure(DatabaseNotFound(c.database))) <==>
            (connect(Uri(c)) == Raised(ProgrammingError(MySqlProgrammingError(UnknownDatabaseErrno))))
    ensures (r == Failure(ConnectionFailed)) <==>
            (&& connect(Uri(c)).Raised?
             && connect(Uri(c)).exception.ProgrammingError?
             && connect(Uri(c)).exception.orig != MySqlProgrammingError(UnknownDatabaseErrno))
    ensures r == Failure(UnexpectedError) <==> connect(Uri(c)) == Raised(OtherException)
  {
    match connect(Uri(c))
    case Opened(h) => Success(h)
    case Raised(ProgrammingError(orig)) =>
      if orig.MySqlProgrammingError? && orig.errno == UnknownDatabaseErrno then
        Failure(DatabaseNotFound(c.database))
      else
        Failure(ConnectionFailed)
    case Raised(OtherException) => Failure(UnexpectedError)
  }

  /** Whatever the driver raised, the caller gets `None`. */
  lemma FailureHasNoHandle<H>(c: Credentials, connect: string -> Attempt<H>)
    requires connect(Uri(c)).Raised?
    ensures InitDatabase(c, connect).ToOption() == None
  {
  }

  /** Only errno 1049 on a MySQL `ProgrammingError` is reported as a missing
      database; every other errno of that error is a generic connect failure. */
  lemma MissingDatabaseOnlyFor1049<H>(c: Credentials, connect: string -> Attempt<H>, errno: int)
    requires connect(Uri(c)) == Raised(ProgrammingError(MySqlProgrammingError(errno)))
    ensures InitDatabase(c, connect).Failure?
    ensures InitDatabase(c, connect).error.DatabaseNotFound? <==> errno == 1049
    ensures InitDatabase(c, connect).error.ConnectionFailed? <==> errno != 1049
  {
  }
}
