# Article checks

A Dafny model of `ArticleCheck`, the guard layer of the article feature of a
Conduit-style blogging backend (NestJS). The service layer computes boolean
facts and passes them to these guards. Examples of facts: "a lookup by slug
found an article" and "the requester is the author". Each guard either
returns `true` or throws an `HttpException` with a fixed message and status.
The statuses are 400 Bad Request (section 15.5.1 of RFC 9110) and 403
Forbidden (section 15.5.4 of RFC 9110).

- `http.dfy` (module `Http`): the two statuses and their numeric codes.
- `article_check.dfy` (module `ArticleCheck`): the eight guards as pure
  functions. Each returns `Ok(true)`, or `Err(CheckError(msg, status))` where
  the source throws. The module also has `Call`, one invocation of a named
  guard with its argument, and `Apply`, which dispatches it. `Documented` is
  a table of the documented rules, kept apart from the guards: for each guard,
  the truthiness that makes it fail and the error it raises.
- `check_chain.dfy` (module `CheckChain`): a caller that asserts several facts
  in a row. The first guard that throws aborts the rest, and its exception
  is what the HTTP layer sees.

The source types the argument of `isNotExist` and `isExist` as
`boolean | undefined`. Here it is `Option<bool>`, and `None` (undefined) is
falsy, as in JavaScript. `isDeleted` is kept as written: it fails when its
argument is `true`.

The class has no fields. So each guard is a function of its argument: a
second call with the same input gives the same outcome and changes nothing.
Modelling the guards as Dafny functions captures this. `AssertAllTwice`
states the same thing for a chain of calls.

## Model

| member | source | states |
|---|---|---|
| Http.Code | src/article/article.check.ts:1-74 | a status maps to its code: Bad Request to 400, Forbidden to 403; both are 4xx client errors |
| Http.CodeInjective | src/article/article.check.ts:66-74 | two failures have the same code exactly when they have the same status, so 403 tells an authorization failure from a 400 precondition failure |
| ArticleCheck.IsCreated | src/article/article.check.ts:5-10 | fails exactly when the create did not succeed, with "Article not created" and 400; otherwise returns `true` |
| ArticleCheck.IsUpdated | src/article/article.check.ts:12-17 | fails exactly when the update did not succeed, with "Article not updated" and 400; otherwise returns `true` |
| ArticleCheck.IsDeleted | src/article/article.check.ts:19-24 | reversed polarity: fails exactly when its argument is `true`, with "Article not deleted" and 400; `false` yields `true` |
| ArticleCheck.IsNotExist | src/article/article.check.ts:26-34 | fails only on a present `true`, with "Article with this slug already exist" and 400; `false` and absent pass |
| ArticleCheck.IsExist | src/article/article.check.ts:36-44 | fails on a present `false` and on absent, with "Article with this slug not found" and 400; only `true` passes |
| ArticleCheck.IsInFavorites | src/article/article.check.ts:46-54 | fails exactly when the article is already a favorite, with "This article is already in favorites" and 400 |
| ArticleCheck.IsNotInFavorites | src/article/article.check.ts:56-64 | fails exactly when the article is not a favorite, with "This article is not in favorites" and 400 |
| ArticleCheck.IsAuthor | src/article/article.check.ts:66-74 | fails exactly when the requester is not the author, with "You are not the author of this article" and 403 |
| ArticleCheck.Apply | src/article/article.check.ts:9 | whichever guard is invoked, a guard that does not fail returns exactly `true`, never `false` |
| ArticleCheck.ApplyFollowsRule | src/article/article.check.ts:5-74 | every guard agrees with the table of documented rules: it fails exactly on the documented truthiness of its fact, with the documented message and status, and otherwise returns `true` |
| ArticleCheck.ExistenceChecksComplementary | src/article/article.check.ts:26-44 | for every fact, absent included, exactly one of `isNotExist` and `isExist` passes |
| ArticleCheck.FavoriteChecksComplementary | src/article/article.check.ts:46-64 | for every fact, exactly one of `isInFavorites` and `isNotInFavorites` passes |
| ArticleCheck.OnlyAuthorIsForbidden | src/article/article.check.ts:66-74 | a failing guard fails with Forbidden (403) exactly when it is `isAuthor`; every other failure is 400 |
| ArticleCheck.MessageIdentifiesCheck | src/article/article.check.ts:5-74 | the eight messages are pairwise different, so two failures with the same message come from the same guard |
| ArticleCheck.ErrorDeterminesFact | src/article/article.check.ts:5-74 | a failure reveals the fact: `isDeleted`, `isNotExist` and `isInFavorites` fail on a truthy fact, the other five on a falsy one |
| CheckChain.AssertAll | src/article/article.check.ts:5-74 | facts asserted in sequence pass exactly when every guard passes, and then the result is `true` |
| CheckChain.FirstFailureReported | src/article/article.check.ts:5-74 | a failing sequence reports the error of its first failing guard; every guard before it passed |
| CheckChain.AssertAllAppend | src/article/article.check.ts:5-74 | two sequences run back to back behave as one: the second runs only when the first passed |
| CheckChain.AssertAllTwice | src/article/article.check.ts:3-75 | the guards keep no state: asserting the same facts twice gives the outcome of asserting them once |
| CheckChain.ForbiddenOnlyFromAuthor | src/article/article.check.ts:66-74 | a sequence fails with Forbidden only if it contains an `isAuthor` call on `false` |

## Left out

- `src/article/article.controller.ts`: the routes are framework decorators, header, parameter and body extraction, and one awaited service call each. There is no logic of their own to model.
- `src/article/dto/articleBuildRequest.dto.ts`: a declarative schema. Its validation comes from decorator libraries.
- `parseQueryParams`: its source file is not part of this model.
- `ArticleService`, `AuthGuard`, persistence and token verification: not part of this model. The facts they compute are parameters here. The end-to-end request scenarios depend on them, so they are not modelled.
- The JSON body that the framework serializes from an `HttpException`, and asynchronous request handling. An exception is modelled as an `Err` value that carries its message and status.
