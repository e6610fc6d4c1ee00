# Role-based authorization and use-case services of a newsroom backend

This project models the core of a content-management backend for a newsroom,
in which staff roles moderate articles, comments and comment reports, and
proves properties of that model in Dafny. The model covers:

- **Role hierarchy and permission resolver.** `RolePermissions.GetFromRole`
  gives each role (User, Writter, Editor, Coord, Admin, Principal, Ceo) its
  permission list. Each list is the previous role's list followed by a fixed
  increment. The authorization guard `VerifyRoleHasPermission` is membership
  in that list. A separate reference table, `IntroducedAt`, names the lowest
  role that holds each permission. Guard correctness is proved against that
  table.
- **Repository contract.** `Repositories.Store` is a class over a map from id
  to entity, with `FindById`, `Save` (an upsert) and `Delete`. A storage
  failure is a flag the environment sets on the store: `findFails` for
  lookups, `writeFails` for writes. `StoreState` is the store's abstract value.
- **Use-case services.** Each service is a class holding its repositories.
  Its `Exec` method runs the source's short-circuit sequence of steps, whose
  order differs by service:
  - toggling visibility: find the actor, check InactivateComment, find the
    comment, flip `is_active`, save it;
  - deleting an article: find the actor, find the article, only then check
    DeleteArticle, delete it;
  - deleting a comment report or an article tag: check the caller's role (no
    actor lookup), find the target, delete it;
  - getting a user: one lookup, with no permission check and no write;
  - fetching comments: default the page and page size, run one read-only
    query, build the pagination envelope.

  The four mutating `Exec` methods (toggle and the three deletions) are proved
  equal to a pure outcome function: `ToggleOutcome`, `DeleteArticleOutcome`,
  `DeleteReportOutcome` or `DeleteTagOutcome`. It gives the result and the new
  entries of the store the call may change. `GetUser` and the fetch `Exec`
  change no stored data (the fetch `Exec` updates only the ghost record of the
  query it sent); their ensures state their answer directly in terms of the
  store. The lemmas about the outcome functions prove:
  - which error each missing piece or failing step produces;
  - nothing changes on any failure path;
  - for report and tag deletion, a refused role fails before any repository
    call; for toggling and deleting an article, a refused actor fails before
    any write;
  - toggling visibility is an involution;
  - tag deletion is idempotent, while report deletion is strict;
  - the scenarios of the services' tests, including the rows the fetch test
    reads back (`FetchTestScenario`).
- **Pagination.** `FetchManyCommentsWithAuthor` defaults the page size, clamps
  the page to at least 1, and gives the page count as the integer ceiling of
  items over page size. `CeilDiv` is characterised by its two bounds, and
  those bounds determine it uniquely.
- **Article recency.** `ArticlePolitics.ArticleIsRecent` is true while the
  whole-hour difference between now and the creation time is at most 48.
  Timestamps are integer seconds. Whole hours truncate toward zero, as
  chrono's `num_hours` does.
- **Error taxonomy.** `Errors.DomainError` has four kinds: Unauthorized,
  BadRequest, ResourceNotFound and InternalError. `UnauthorizedError` has the
  fixed code 401 and the message "Unauthorized.".

Decisions where the code leaves something open or admits more than one
reading:

- **`DeleteArticleTag` is reconstructed.** `delete_article_tag_service.rs:24`
  uses `RolePermissions::DeleteArticleTag`, but the enum in
  `src/util/get_user_role_permissions.rs:4-27` has no such variant. The tests
  of that file allow Ceo and refuse Principal. The model therefore adds the
  permission as a Ceo-only increment, after `DeleteTeamRole`.
- **A role-less actor is excluded by a precondition.** Toggling visibility and
  deleting an article read the actor's role with `role().unwrap()`, which
  panics when the user has no role. An alternative reading, that an absent
  role means no permissions, is not what the code does; the model follows the code.
  `ActorRolePresent` and `DeleteArticle.RoleReadable` require a role exactly
  when the unwrap would be reached. For deleting an article, that is only
  after both lookups have succeeded.
- **A missing comment is Unauthorized.** When toggling visibility, a missing
  comment gives Unauthorized rather than ResourceNotFound. The model follows
  the code.
- **Deleting an article checks the article before the permission.** The check
  for the article's existence comes before the permission check, so a missing
  article gives ResourceNotFound even to a role with no permissions. The
  model follows the code.
- **`Store.Delete` takes an id.** The source's delete takes the entity. The
  services pass the id of the entity they found, and under the
  `...KeyedById` invariants that id is the requested one.
- **The default page size is not fixed.** `DEFAULT_PER_PAGE` is declared in a
  file that is not part of this model. It is declared here without a value,
  in the range "at least 2". The service's test, where 2 items with the
  default page size give one page, needs that range.

## Model

| member | source | states |
|---|---|---|
| RolePermissions.GetFromRole | src/util/get_user_role_permissions.rs:30-49 | every permission in a role's list is introduced at or below that role, and the role's own increment is in it; the full characterisation is GuardMatchesTable, the growth along the order GetFromRolePrefix |
| RolePermissions.VerifyRoleHasPermission | src/util/get_user_role_permissions.rs:30-49 | membership in GetFromRole: a held permission is introduced at or below the role, and a role holds its own increment; both directions are GuardMatchesTable |
| RolePermissions.UserHasNoPermissions | src/util/get_user_role_permissions.rs:33-42 | User resolves to the empty list |
| RolePermissions.WritterPermissions | src/util/get_user_role_permissions.rs:34-43 | Writter resolves to exactly [CreateArticle] |
| RolePermissions.IncrementMembership | src/util/get_user_role_permissions.rs:34-39 | a permission is in a role's increment iff the reference table introduces it at that role |
| RolePermissions.GetFromRolePrefix | src/util/get_user_role_permissions.rs:33-49 | for any roles lo at or below hi, lo's list is a prefix of hi's list |
| RolePermissions.StrictGrowth | src/util/get_user_role_permissions.rs:34-39 | each role above User has a strictly longer list, of which the lower role's list is a proper prefix |
| RolePermissions.PermissionsMonotone | src/util/get_user_role_permissions.rs:35-39 | a permission held by a role is held by every role above it |
| RolePermissions.GuardMatchesTable | src/util/get_user_role_permissions.rs:30-49 | the guard holds iff the role ranks at or above the role introducing the permission (both directions) |
| RolePermissions.CoordModeratesComments | src/util/get_user_role_permissions.rs:35-36 | Coord holds InactivateComment and SolveReport; Editor lacks InactivateComment |
| RolePermissions.DeletionsFromPrincipal | src/util/get_user_role_permissions.rs:37-38 | DeleteArticle and DeleteReport are held exactly by Principal and above, so Admin and below lack them |
| RolePermissions.CeoOnlyPermissions | src/util/get_user_role_permissions.rs:39 | DeleteTeamRole, and the reconstructed DeleteArticleTag, are held iff the role is Ceo |
| RolePermissions.GetFromRoleNoDuplicates | src/util/get_user_role_permissions.rs:33-39 | no role's list contains a permission twice |
| Errors.NewUnauthorizedError | src/errors/unauthorized_error.rs:12-17 | a fresh error has code 401 and message "Unauthorized." |
| Errors.Display | src/errors/unauthorized_error.rs:33-36 | the rendered text is exactly the message |
| Errors.Code | src/errors/unauthorized_error.rs:19-21 | the stored code; on a fresh error 401 (NewUnauthorizedErrorObservations) |
| Errors.Message | src/errors/unauthorized_error.rs:23-25 | the stored message; on a fresh error "Unauthorized." (NewUnauthorizedErrorObservations) |
| Errors.NewUnauthorizedErrorObservations | src/errors/unauthorized_error.rs:12-25 | the getters of a fresh error report 401 and "Unauthorized.", and it renders as "Unauthorized." |
| ArticlePolitics.NumHours | src/domain/politics/article_politics.rs:10-11 | whole hours truncated toward zero: bounded by the duration from below and above on both signs |
| ArticlePolitics.ArticleIsRecent | src/domain/politics/article_politics.rs:7-13 | recent iff fewer than 49 × 3600 seconds separate creation from now |
| ArticlePolitics.RecentBoundary | src/domain/politics/article_politics.rs:8-13 | exactly 48 hours is recent, 49 hours is not |
| ArticlePolitics.FutureArticleIsRecent | src/domain/politics/article_politics.rs:10-13 | a creation time after now counts as recent |
| ArticlePolitics.RecencyDependsOnCreationOnly | src/domain/politics/article_politics.rs:7-11 | two articles with the same creation time are equally recent |
| ArticlePolitics.RecencyMonotone | src/domain/politics/article_politics.rs:10-13 | recent at t2 implies recent at every t1 ≤ t2 |
| Repositories.Lookup | src/domain/services/get_user_service.rs:58-71 | a lookup fails iff the store's lookups fail, else answers the entry under the id or nothing |
| Repositories.Store.constructor | src/domain/services/toggle_comment_visibility_service.rs:114-123 | a store starts with the given entries and failure flags |
| Repositories.Store.FindById | src/domain/services/toggle_comment_visibility_service.rs:143-157 | `find_by_id` answers Lookup of the current state |
| Repositories.Store.Save | src/domain/services/toggle_comment_visibility_service.rs:159-166 | `save` stores the entity under its id and returns it, or fails and changes nothing |
| Repositories.Store.Delete | src/domain/services/delete_comment_report_service.rs:132-147 | `delete` removes the entry under the id, or fails and changes nothing |
| Pagination.CeilDiv | src/domain/services/fetch_many_comments_with_author_service.rs:73 | the page count holds all items and one page fewer would not |
| Pagination.CeilDivUnique | src/domain/services/fetch_many_comments_with_author_service.rs:73 | any count with those two bounds is the ceiling |
| CommentUserArticleRepository.Matching | src/domain/services/fetch_many_comments_with_author_service.rs:120-126 | the listed rows are exactly the stored rows of the article that are active (or all, if inactive ones are included) |
| CommentUserArticleRepository.MatchingAppend | src/domain/services/fetch_many_comments_with_author_service.rs:120-126 | listing a concatenation lists each part in turn, so stored order and multiplicity are kept |
| CommentUserArticleRepository.MatchingOne | src/domain/services/fetch_many_comments_with_author_service.rs:122-126 | a single row is kept alone iff it is listed |
| CommentUserArticleRepository.PageOffset | src/domain/services/fetch_many_comments_with_author_service.rs:130 | page p skips exactly (p - 1) × page size rows, or all rows once that passes the end |
| CommentUserArticleRepository.PageWindow | src/domain/services/fetch_many_comments_with_author_service.rs:130-138 | a page is the rows after the offset, up to the page size |
| CommentUserArticleRepository.PagesArePrefix | src/domain/services/fetch_many_comments_with_author_service.rs:130-138 | pages 1 to k read in order are the first k × page size rows |
| CommentUserArticleRepository.PagesCoverAll | src/domain/services/fetch_many_comments_with_author_service.rs:73 | the total_pages pages read in order are exactly the listed rows |
| CommentUserArticleRepository.FindManyResponse | src/domain/services/fetch_many_comments_with_author_service.rs:117-141 | the query fails iff the store's lookups fail, and the total counts every listed row before paging |
| CommentUserArticleRepository.CommentStore.constructor | src/domain/services/fetch_many_comments_with_author_service.rs:93-113 | a comment store starts with the given rows and failure flag, and no recorded query |
| CommentUserArticleRepository.CommentStore.FindManyComments | src/domain/services/fetch_many_comments_with_author_service.rs:115-141 | `find_many_comments` answers FindManyResponse of the current state and records its arguments in the ghost field `lastRequest` |
| FetchManyCommentsWithAuthor.ItemsPerPage | src/domain/services/fetch_many_comments_with_author_service.rs:42 | an absent page size becomes DEFAULT_PER_PAGE; a given one is kept |
| FetchManyCommentsWithAuthor.CurrentPage | src/domain/services/fetch_many_comments_with_author_service.rs:40-47 | the page is at least 1; an absent or zero page becomes 1; any other page is kept |
| FetchManyCommentsWithAuthor.QueryFor | src/domain/services/fetch_many_comments_with_author_service.rs:49-54 | the query sent: defaulted page size and page, no query text; its use with include_inactive false is in Exec |
| FetchManyCommentsWithAuthor.Paginate | src/domain/services/fetch_many_comments_with_author_service.rs:68-74 | the envelope keeps the page and the item count, and its page count is the ceiling of items over page size |
| FetchManyCommentsWithAuthor.ZeroPageClampedExample | src/domain/services/fetch_many_comments_with_author_service.rs:44-73 | page 0 with 9 per page over 20 items gives page 1 of 3 |
| FetchManyCommentsWithAuthor.DefaultsExample | src/domain/services/fetch_many_comments_with_author_service.rs:146-155 | no page and no page size over 2 items gives page 1 of 1 |
| FetchManyCommentsWithAuthor.FetchTestScenario | src/domain/services/fetch_many_comments_with_author_service.rs:92-157 | two active comments and one inactive one, fetched with defaults, give exactly the two active ones in stored order on page 1 of 1 with 2 items |
| FetchManyCommentsWithAuthor.FetchManyArticleCommentsWithAuthorService.constructor | src/domain/services/fetch_many_comments_with_author_service.rs:33-37 | the service keeps the given repository |
| FetchManyCommentsWithAuthor.FetchManyArticleCommentsWithAuthorService.Exec | src/domain/services/fetch_many_comments_with_author_service.rs:39-76 | the repository's recorded request is exactly the article id, include_inactive false and QueryFor (defaulted size and page, query None); a repository error is InternalError; otherwise the data is the repository's sequence and the envelope is Paginate of the defaulted page, size and the repository's count |
| ToggleCommentVisibility.Toggled | src/domain/services/toggle_comment_visibility_service.rs:77-81 | the visibility flip; ToggledNegates states its meaning |
| ToggleCommentVisibility.ToggleOutcome | src/domain/services/toggle_comment_visibility_service.rs:36-96 | the outcome of one call; ToggleErrors, ToggleFailureChangesNothing, ToggleSuccess and ToggleInvolution state its meaning |
| ToggleCommentVisibility.ToggledNegates | src/domain/services/toggle_comment_visibility_service.rs:77-81 | toggling negates `is_active` and no other field changes |
| ToggleCommentVisibility.ToggleFailureChangesNothing | src/domain/services/toggle_comment_visibility_service.rs:36-95 | every failing call leaves the comment store unchanged |
| ToggleCommentVisibility.ToggleErrors | src/domain/services/toggle_comment_visibility_service.rs:36-95 | user lookup failure gives InternalError; absent user, missing permission and absent comment give Unauthorized; comment lookup or save failure gives InternalError; success iff none of these |
| ToggleCommentVisibility.ToggleUserLookupFailure | src/domain/services/toggle_comment_visibility_service.rs:37-46 | a failed user lookup gives InternalError whatever the comment store holds |
| ToggleCommentVisibility.EditorCannotToggle | src/domain/services/toggle_comment_visibility_service.rs:174-180 | an Editor is refused with Unauthorized and the comment store is untouched |
| ToggleCommentVisibility.ToggleSuccess | src/domain/services/toggle_comment_visibility_service.rs:75-86 | a success returns and stores the comment with `is_active` negated, under the same id |
| ToggleCommentVisibility.CoordDeactivatesComment | src/domain/services/toggle_comment_visibility_service.rs:182-187 | a Coord actor turns an active comment inactive |
| ToggleCommentVisibility.ToggleInvolution | src/domain/services/toggle_comment_visibility_service.rs:77-81 | a second toggle succeeds, returns the original comment and restores the original store |
| ToggleCommentVisibility.ToggleCommentVisibilityService.constructor | src/domain/services/toggle_comment_visibility_service.rs:26-34 | the service keeps the given repositories |
| ToggleCommentVisibility.ToggleCommentVisibilityService.Exec | src/domain/services/toggle_comment_visibility_service.rs:36-96 | the result and the new comment entries are ToggleOutcome of the stores' prior states |
| DeleteCommentReport.DeleteReportOutcome | src/domain/services/delete_comment_report_service.rs:30-68 | the outcome of one call; DeleteReportErrors, DeleteReportSuccess and DeleteReportTwiceIsBadRequest state its meaning |
| DeleteCommentReport.DeleteReportDeniedBeforeLookup | src/domain/services/delete_comment_report_service.rs:31-35 | a role without DeleteReport gets Unauthorized whatever the store holds or does, and nothing changes |
| DeleteCommentReport.DeleteReportErrors | src/domain/services/delete_comment_report_service.rs:30-68 | lookup failure gives InternalError, an absent report BadRequest, delete failure InternalError; failures change nothing; success iff none of these |
| DeleteCommentReport.DeleteReportSuccess | src/domain/services/delete_comment_report_service.rs:56-67 | a success removes the requested report and keeps every other report |
| DeleteCommentReport.DeleteReportTwiceIsBadRequest | src/domain/services/delete_comment_report_service.rs:50-52 | deleting the same report again gives BadRequest and changes nothing |
| DeleteCommentReport.PrincipalDeletesUserDoesNot | src/domain/services/delete_comment_report_service.rs:153-167 | Principal deletes an existing report; User is refused and the report remains |
| DeleteCommentReport.DeleteCommentReportService.constructor | src/domain/services/delete_comment_report_service.rs:24-28 | the service keeps the given repository |
| DeleteCommentReport.DeleteCommentReportService.Exec | src/domain/services/delete_comment_report_service.rs:30-68 | the result and the new report entries are DeleteReportOutcome of the store's prior state |
| DeleteArticle.DeleteArticleOutcome | src/domain/services/delete_article_service.rs:34-72 | the outcome of one call; DeleteArticleErrors, MissingArticleBeforePermission and DeleteArticleSuccess state its meaning |
| DeleteArticle.DeleteArticleErrors | src/domain/services/delete_article_service.rs:34-72 | user lookup failure gives InternalError, an absent user Unauthorized, article lookup failure InternalError, missing DeleteArticle Unauthorized, a failed delete InternalError; failures change nothing; success iff both are found, the role permits it and the delete succeeds |
| DeleteArticle.MissingArticleBeforePermission | src/domain/services/delete_article_service.rs:45-61 | a missing article gives ResourceNotFound before, and regardless of, the permission check |
| DeleteArticle.DeleteArticleDeniedKeepsStore | src/domain/services/delete_article_service.rs:56-61 | a role without DeleteArticle gets Unauthorized and nothing is deleted |
| DeleteArticle.DeleteArticleSuccess | src/domain/services/delete_article_service.rs:63-67 | a success removes exactly the requested article |
| DeleteArticle.PrincipalDeletesUserDoesNot | src/domain/services/delete_article_service.rs:154-162 | a Principal deletes an existing article; a User is refused and the article stays |
| DeleteArticle.DeleteArticleService.constructor | src/domain/services/delete_article_service.rs:27-32 | the service keeps the given repositories |
| DeleteArticle.DeleteArticleService.Exec | src/domain/services/delete_article_service.rs:34-72 | the result and the new article entries are DeleteArticleOutcome of the stores' prior states |
| DeleteArticleTag.DeleteTagOutcome | src/domain/services/delete_article_tag_service.rs:23-55 | the outcome of one call; DeleteTagErrors, DeleteAbsentTagIsNoOp and DeleteTagIdempotent state its meaning |
| DeleteArticleTag.DeleteTagDeniedBeforeLookup | src/domain/services/delete_article_tag_service.rs:24-28 | a role without DeleteArticleTag gets Unauthorized whatever the store holds or does, and nothing changes |
| DeleteArticleTag.DeleteTagErrors | src/domain/services/delete_article_tag_service.rs:23-55 | lookup failure and delete failure give InternalError; failures change nothing; success iff permitted, found-or-absent, and not a failed delete |
| DeleteArticleTag.DeleteAbsentTagIsNoOp | src/domain/services/delete_article_tag_service.rs:41-43 | deleting an absent tag changes nothing, and succeeds for a permitted role |
| DeleteArticleTag.DeleteTagSuccess | src/domain/services/delete_article_tag_service.rs:45-54 | a success leaves the store without the requested tag and with every other tag |
| DeleteArticleTag.DeleteTagIdempotent | src/domain/services/delete_article_tag_service.rs:39-54 | a second delete of the same tag succeeds and leaves the store as the first left it |
| DeleteArticleTag.CeoDeletesPrincipalDoesNot | src/domain/services/delete_article_tag_service.rs:65-95 | Ceo deletes the only tag and the store becomes empty; Principal is refused and the tag stays |
| DeleteArticleTag.DeleteArticleTagService.constructor | src/domain/services/delete_article_tag_service.rs:17-21 | the service keeps the given repository |
| DeleteArticleTag.DeleteArticleTagService.Exec | src/domain/services/delete_article_tag_service.rs:23-55 | the result and the new tag entries are DeleteTagOutcome of the store's prior state |
| GetUser.GetUserService.constructor | src/domain/services/get_user_service.rs:17-21 | the service keeps the given repository |
| GetUser.GetUserService.Exec | src/domain/services/get_user_service.rs:23-35 | fails iff the lookup fails, and then with InternalError; otherwise answers the user under the id, or nothing for an unknown id; checks no permission and changes no store |

## Left out

- All service factories, the server bootstrap, migrations, the generated ORM row types and the presenter module list are dependency wiring, not logic.
- Logging is a side effect only. `generate_service_internal_error` always yields InternalError, and every storage failure maps to InternalError.
- Async execution and the `Arc<Mutex<…>>` test doubles are left out. The services are sequential methods over in-memory stores.
- The SQL repository adapters are left out. `Store` and `CommentStore` are in-memory stand-ins, and a storage failure is a flag on the store. Unlike the test double of the comment query, `CommentStore` filters by article id and caps a page at the page size.
- `FetchManyArticleCommentsWithAuthorService.Exec` requires a page size other than 0. With page size 0 the source divides floats, and its `as u32` casts turn NaN into 0 and infinity into `u32::MAX`.
- `Pagination.CeilDiv` is exact integer ceiling division. The source computes through `f64`, which can round for item counts above 2^53, and saturates the page count at `u32::MAX`. Item counts are unbounded naturals rather than `u64`.
- `ArticlePolitics.ArticleIsRecent` works on whole seconds. Sub-second parts of chrono durations are not modelled.
- `Errors`: the other error types (`BadRequestError`, `ResourceNotFoundError`, `InternalError`) are not part of this model. They are kinds without code or message, because their definitions are not modelled here.
- The `DEFAULT_PER_PAGE` value and the `Role`, `User`, `Article`, `Comment`, `CommentReport` and `ArticleTag` entity files are not part of this model. The entities keep only the fields these services touch or the tests construct.
- UUID generation and password hashing are left out. Ids are opaque values and the password hash is an opaque string.
