/**
 * `DeleteArticleService::exec`: find the actor, find the article, and only then
 * require DeleteArticle of the actor's role before deleting the article.
 */
module DeleteArticle {
  import opened Wrappers
  import opened RolePermissions
  import opened Errors
  import opened Entities
  import opened Repositories
  import opened Orchestration

  datatype DeleteArticleParams = DeleteArticleParams(userId: Uuid, articleId: Uuid)

  /** Every article is stored under its own id. */
  predicate ArticlesKeyedById(m: map<Uuid, Article>)
  {
    forall k :: k in m ==> m[k].id == k
  }

  /**
   * The role is unwrapped only once both lookups have succeeded; a role-less
   * actor reaching that point makes the source panic.
   */
  predicate RoleReadable(users: StoreState<Uuid, User>, articles: StoreState<Uuid, Article>, params: DeleteArticleParams)
  {
    (!users.findFails && params.userId in users.entries && !articles.findFails && params.articleId in articles.entries)
      ==> users.entries[params.userId].role.Some?
  }

  /** What one call answers and leaves in the article store. */
  function DeleteArticleOutcome(users: StoreState<Uuid, User>, articles: StoreState<Uuid, Article>,
                                params: DeleteArticleParams): Outcome<(), Uuid, Article>
    requires RoleReadable(users, articles, params)
  {
    if users.findFails then Outcome(Err(InternalError), articles.entries)
    else if params.userId !in users.entries then Outcome(Err(UNAUTHORIZED), articles.entries)
    else if articles.findFails then Outcome(Err(InternalError), articles.entries)
    else if params.articleId !in articles.entries then Outcome(Err(ResourceNotFound), articles.entries)
    else
      var article := articles.entries[params.articleId];
      if !VerifyRoleHasPermission(users.entries[params.userId].role.value, DeleteArticle) then
        Outcome(Err(UNAUTHORIZED), articles.entries)
      else if articles.writeFails then Outcome(Err(InternalError), articles.entries)
      else Outcome(Ok(()), articles.entries - {article.id})
  }

  /** Which error each failing step produces, and that failures leave the store alone. */
  lemma DeleteArticleErrors(users: StoreState<Uuid, User>, articles: StoreState<Uuid, Article>,
                            params: DeleteArticleParams)
    requires RoleReadable(users, articles, params)
    ensures var o := DeleteArticleOutcome(users, articles, params);
      var found := !users.findFails && params.userId in users.entries
        && !articles.findFails && params.articleId in articles.entries;
      && (o.result.Err? ==> o.entries == articles.entries)
      && (users.findFails ==> o.result == Err(InternalError))
      && (!users.findFails && params.userId !in users.entries ==> o.result == Err(UNAUTHORIZED))
      && (!users.findFails && params.userId in users.entries && articles.findFails ==> o.result == Err(InternalError))
      && (found && !VerifyRoleHasPermission(users.entries[params.userId].role.value, DeleteArticle) ==>
            o.result == Err(UNAUTHORIZED))
      && (found && VerifyRoleHasPermission(users.entries[params.userId].role.value, DeleteArticle) && articles.writeFails ==>
            o.result == Err(InternalError))
      && (o.result.Ok? <==>
            found && VerifyRoleHasPermission(users.entries[params.userId].role.value, DeleteArticle) && !articles.writeFails)
  {
  }

  /** A missing article is reported as not found whatever the actor's role, even one with no permissions. */
  lemma MissingArticleBeforePermission(users: StoreState<Uuid, User>, articles: StoreState<Uuid, Article>,
                                       params: DeleteArticleParams)
    requires !users.findFails && params.userId in users.entries
    requires !articles.findFails && params.articleId !in articles.entries
    ensures DeleteArticleOutcome(users, articles, params) == Outcome(Err(ResourceNotFound), articles.entries)
  {
  }

  /** An actor without DeleteArticle is refused and nothing is deleted. */
  lemma DeleteArticleDeniedKeepsStore(users: StoreState<Uuid, User>, articles: StoreState<Uuid, Article>,
                                      params: DeleteArticleParams)
    requires !users.findFails && params.userId in users.entries
    requires !articles.findFails && params.articleId in articles.entries
    requires users.entries[params.userId].role.Some?
    requires !VerifyRoleHasPermission(users.entries[params.userId].role.value, DeleteArticle)
    ensures DeleteArticleOutcome(users, articles, params) == Outcome(Err(UNAUTHORIZED), articles.entries)
  {
  }

  /** A success removes exactly the requested article and keeps every other one. */
  lemma DeleteArticleSuccess(users: StoreState<Uuid, User>, articles: StoreState<Uuid, Article>,
                             params: DeleteArticleParams)
    requires RoleReadable(users, articles, params)
    requires ArticlesKeyedById(articles.entries)
    requires DeleteArticleOutcome(users, articles, params).result.Ok?
    ensures var o := DeleteArticleOutcome(users, articles, params);
      o.entries == articles.entries - {params.articleId}
  {
  }

  /** A Principal deletes an existing article; a plain User is refused and the article stays. */
  lemma PrincipalDeletesUserDoesNot(users: StoreState<Uuid, User>, articles: StoreState<Uuid, Article>,
                                    params: DeleteArticleParams)
    requires ArticlesKeyedById(articles.entries)
    requires !users.findFails && params.userId in users.entries
    requires !articles.findFails && !articles.writeFails && params.articleId in articles.entries
    ensures users.entries[params.userId].role == Some(Principal) ==>
      var o := DeleteArticleOutcome(users, articles, params);
      o.result == Ok(()) && params.articleId !in o.entries
    ensures users.entries[params.userId].role == Some(Role.User) ==>
      var o := DeleteArticleOutcome(users, articles, params);
      o.result == Err(UNAUTHORIZED) && params.articleId in o.entries
  {
    DeletionsFromPrincipal(Principal);
    DeletionsFromPrincipal(Role.User);
  }

  class DeleteArticleService {
    const userRepository: Store<Uuid, User>
    const articleRepository: Store<Uuid, Article>

    constructor (articleRepository: Store<Uuid, Article>, userRepository: Store<Uuid, User>)
      ensures this.articleRepository == articleRepository && this.userRepository == userRepository
    {
      this.articleRepository := articleRepository;
      this.userRepository := userRepository;
    }

    method Exec(params: DeleteArticleParams) returns (r: Result<(), DomainError>)
      requires RoleReadable(userRepository.State(), articleRepository.State(), params)
      modifies articleRepository`entries
      ensures Outcome(r, articleRepository.entries) ==
              DeleteArticleOutcome(old(userRepository.State()), old(articleRepository.State()), params)
    {
      var userOnDb := userRepository.FindById(params.userId);
      if userOnDb.Err? {
        return Err(InternalError);
      }
      if userOnDb.value.None? {
        return Err(UNAUTHORIZED);
      }

      var articleOnDb := articleRepository.FindById(params.articleId);
      if articleOnDb.Err? {
        return Err(InternalError);
      }
      if articleOnDb.value.None? {
        return Err(ResourceNotFound);
      }
      var article := articleOnDb.value.value;

      var userCanDelete := VerifyRoleHasPermission(userOnDb.value.value.role.value, DeleteArticle);
      if !userCanDelete {
        return Err(UNAUTHORIZED);
      }

      var response := articleRepository.Delete(article.id);
      if response.Ok? {
        return Ok(());
      } else {
        return Err(InternalError);
      }
    }
  }
}
