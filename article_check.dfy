/** The guard layer of the article feature: eight checks, each taking one
    boolean fact computed by the caller and either passing (returning `true`)
    or failing with a fixed message and HTTP status. A thrown
    `HttpException` is modelled as an `Err` result. */
module ArticleCheck {
  import opened Http

  /** A TypeScript `boolean | undefined`: `None` is `undefined`. */
  datatype Option<T> = None | Some(value: T)

  /** The message and status an `HttpException` carries. */
  datatype CheckError = CheckError(msg: string, status: Status)

  /** `Ok(v)`: the check returned `v`; `Err(e)`: it threw `e`. */
  datatype Result = Ok(value: bool) | Err(error: CheckError)

  const NotCreatedMsg: string := "Article not created"
  const NotUpdatedMsg: string := "Article not updated"
  const NotDeletedMsg: string := "Article not deleted"
  const AlreadyExistMsg: string := "Article with this slug already exist"
  const NotFoundMsg: string := "Article with this slug not found"
  const AlreadyFavoriteMsg: string := "This article is already in favorites"
  const NotFavoriteMsg: string := "This article is not in favorites"
  const NotAuthorMsg: string := "You are not the author of this article"

  /** JavaScript truthiness of a `boolean | undefined`: only `true` is truthy. */
  predicate Truthy(o: Option<bool>) {
    match o
    case None => false
    case Some(v) => v
  }

  /** Passes when the create operation reported success. */
  function IsCreated(b: bool): (r: Result)
    ensures r.Err? <==> !b
    ensures r.Ok? ==> r.value
    ensures r.Err? ==> r.error == CheckError(NotCreatedMsg, BadRequest)
  {
    if !b then Err(CheckError(NotCreatedMsg, BadRequest)) else Ok(true)
  }

  /** Passes when the update operation reported success. */
  function IsUpdated(b: bool): (r: Result)
    ensures r.Err? <==> !b
    ensures r.Ok? ==> r.value
    ensures r.Err? ==> r.error == CheckError(NotUpdatedMsg, BadRequest)
  {
    if !b then Err(CheckError(NotUpdatedMsg, BadRequest)) else Ok(true)
  }

  /** Fails when its argument is `true`: the polarity is the reverse of
      `IsCreated` and `IsUpdated`, kept as the source has it. */
  function IsDeleted(b: bool): (r: Result)
    ensures r.Err? <==> b
    ensures r.Ok? ==> r.value
    ensures r.Err? ==> r.error == CheckError(NotDeletedMsg, BadRequest)
  {
    if b then Err(CheckError(NotDeletedMsg, BadRequest)) else Ok(true)
  }

  /** Passes unless a lookup by slug found an article; an absent fact passes. */
  function IsNotExist(o: Option<bool>): (r: Result)
    ensures r.Err? <==> o == Some(true)
    ensures r.Ok? ==> r.value
    ensures r.Err? ==> r.error == CheckError(AlreadyExistMsg, BadRequest)
  {
    if Truthy(o) then Err(CheckError(AlreadyExistMsg, BadRequest)) else Ok(true)
  }

  /** Passes only when a lookup by slug found an article; an absent fact fails. */
  function IsExist(o: Option<bool>): (r: Result)
    ensures r.Err? <==> (o.None? || o == Some(false))
    ensures r.Ok? ==> r.value
    ensures r.Err? ==> r.error == CheckError(NotFoundMsg, BadRequest)
  {
    if !Truthy(o) then Err(CheckError(NotFoundMsg, BadRequest)) else Ok(true)
  }

  /** Passes unless the article is already among the user's favorites. */
  function IsInFavorites(b: bool): (r: Result)
    ensures r.Err? <==> b
    ensures r.Ok? ==> r.value
    ensures r.Err? ==> r.error == CheckError(AlreadyFavoriteMsg, BadRequest)
  {
    if b then Err(CheckError(AlreadyFavoriteMsg, BadRequest)) else Ok(true)
  }

  /** Passes only when the article is among the user's favorites. */
  function IsNotInFavorites(b: bool): (r: Result)
    ensures r.Err? <==> !b
    ensures r.Ok? ==> r.value
    ensures r.Err? ==> r.error == CheckError(NotFavoriteMsg, BadRequest)
  {
    if !b then Err(CheckError(NotFavoriteMsg, BadRequest)) else Ok(true)
  }

  /** Passes only when the requester is the article's author; the one check
      that fails with 403 Forbidden. */
  function IsAuthor(b: bool): (r: Result)
    ensures r.Err? <==> !b
    ensures r.Ok? ==> r.value
    ensures r.Err? ==> r.error == CheckError(NotAuthorMsg, Forbidden)
  {
    if !b then Err(CheckError(NotAuthorMsg, Forbidden)) else Ok(true)
  }

  /** One invocation of a check, with the argument it is given; the argument
      types follow the TypeScript signatures. */
  datatype Call =
    | Created(b: bool)
    | Updated(b: bool)
    | Deleted(b: bool)
    | NotExist(o: Option<bool>)
    | Exist(o: Option<bool>)
    | InFavorites(b: bool)
    | NotInFavorites(b: bool)
    | Author(b: bool)

  /** Invoking the named check of an `ArticleCheck` instance. The class has
      no fields, so the outcome depends on the call alone. */
  function Apply(c: Call): (r: Result)
    ensures r.Ok? ==> r.value
  {
    match c
    case Created(b) => IsCreated(b)
    case Updated(b) => IsUpdated(b)
    case Deleted(b) => IsDeleted(b)
    case NotExist(o) => IsNotExist(o)
    case Exist(o) => IsExist(o)
    case InFavorites(b) => IsInFavorites(b)
    case NotInFavorites(b) => IsNotInFavorites(b)
    case Author(b) => IsAuthor(b)
  }

  /** The truthiness of the fact a call passes. */
  predicate Fact(c: Call) {
    match c
    case NotExist(o) => Truthy(o)
    case Exist(o) => Truthy(o)
    case _ => c.b
  }

  /** The documented rule of each check, as a table independent of the
      guards: on which truthiness of its fact it fails, and with what. */
  datatype Rule = Rule(failsWhen: bool, error: CheckError)

  function Documented(c: Call): Rule {
    match c
    case Created(_) => Rule(false, CheckError(NotCreatedMsg, BadRequest))
    case Updated(_) => Rule(false, CheckError(NotUpdatedMsg, BadRequest))
    case Deleted(_) => Rule(true, CheckError(NotDeletedMsg, BadRequest))
    case NotExist(_) => Rule(true, CheckError(AlreadyExistMsg, BadRequest))
    case Exist(_) => Rule(false, CheckError(NotFoundMsg, BadRequest))
    case InFavorites(_) => Rule(true, CheckError(AlreadyFavoriteMsg, BadRequest))
    case NotInFavorites(_) => Rule(false, CheckError(NotFavoriteMsg, BadRequest))
    case Author(_) => Rule(false, CheckError(NotAuthorMsg, Forbidden))
  }

  /** Every check follows its documented rule: it fails exactly when the
      truthiness of its fact is the failing one, with the documented error,
      and otherwise returns `true`. */
  lemma ApplyFollowsRule(c: Call)
    ensures Apply(c).Err? <==> Fact(c) == Documented(c).failsWhen
    ensures Apply(c).Err? ==> Apply(c).error == Documented(c).error
    ensures Apply(c).Ok? ==> Apply(c) == Ok(true)
  {
  }

  /** For every fact, present or absent, exactly one of `isNotExist` and
      `isExist` passes. */
  lemma ExistenceChecksComplementary(o: Option<bool>)
    ensures IsNotExist(o).Ok? <==> !IsExist(o).Ok?
  {
  }

  /** For every fact exactly one of `isInFavorites` and `isNotInFavorites`
      passes. */
  lemma FavoriteChecksComplementary(b: bool)
    ensures IsInFavorites(b).Ok? <==> !IsNotInFavorites(b).Ok?
  {
  }

  /** `isAuthor` is the only check that fails with 403 Forbidden; every other
      failure is 400 Bad Request. */
  lemma OnlyAuthorIsForbidden(c: Call)
    requires Apply(c).Err?
    ensures Apply(c).error.status == Forbidden <==> c.Author?
    ensures Code(Apply(c).error.status) == (if c.Author? then 403 else 400)
  {
  }

  /** The index of a check in the table, used to say that two calls are to
      the same check. */
  function Kind(c: Call): (k: nat)
    ensures k < 8
  {
    match c
    case Created(_) => 0
    case Updated(_) => 1
    case Deleted(_) => 2
    case NotExist(_) => 3
    case Exist(_) => 4
    case InFavorites(_) => 5
    case NotInFavorites(_) => 6
    case Author(_) => 7
  }

  /** The eight messages are pairwise different, so the message of a failure
      tells which check raised it. */
  lemma MessageIdentifiesCheck(c: Call, d: Call)
    requires Apply(c).Err? && Apply(d).Err?
    requires Apply(c).error.msg == Apply(d).error.msg
    ensures Kind(c) == Kind(d)
  {
  }

  /** A failed check also tells what the fact was: each check fails on one
      truthiness only. */
  lemma ErrorDeterminesFact(c: Call)
    requires Apply(c).Err?
    ensures Fact(c) <==> c.Deleted? || c.NotExist? || c.InFavorites?
  {
  }
}
