/**
 * `DeleteArticleTagService::exec`: require DeleteArticleTag of the caller's
 * role, find the tag, and delete it; an absent tag is already deleted.
 */
module DeleteArticleTag {
  import opened Wrappers
  import opened RolePermissions
  import opened Errors
  import opened Entities
  import opened Repositories
  import opened Orchestration

  datatype DeleteArticleTagParams = DeleteArticleTagParams(userRole: Role, tagId: i32)

  /** Every tag is stored under its own id. */
  predicate TagsKeyedById(m: map<i32, ArticleTag>)
  {
    forall k :: k in m ==> m[k].id == k
  }

  /** What one call answers and leaves in the tag store. */
  function DeleteTagOutcome(tags: StoreState<i32, ArticleTag>, params: DeleteArticleTagParams)
    : Outcome<(), i32, ArticleTag>
  {
    if !VerifyRoleHasPermission(params.userRole, DeleteArticleTag) then Outcome(Err(UNAUTHORIZED), tags.entries)
    else if tags.findFails then Outcome(Err(InternalError), tags.entries)
    else if params.tagId !in tags.entries then Outcome(Ok(()), tags.entries)
    else
      var tag := tags.entries[params.tagId];
      if tags.writeFails then Outcome(Err(InternalError), tags.entries)
      else Outcome(Ok(()), tags.entries - {tag.id})
  }

  /** A role without DeleteArticleTag is refused whatever the store holds or does. */
  lemma DeleteTagDeniedBeforeLookup(tags: StoreState<i32, ArticleTag>, params: DeleteArticleTagParams)
    requires !VerifyRoleHasPermission(params.userRole, DeleteArticleTag)
    ensures DeleteTagOutcome(tags, params) == Outcome(Err(UNAUTHORIZED), tags.entries)
  {
  }

  /** Which error each failing step produces, and that failures leave the store alone. */
  lemma DeleteTagErrors(tags: StoreState<i32, ArticleTag>, params: DeleteArticleTagParams)
    ensures var o := DeleteTagOutcome(tags, params);
      var permitted := VerifyRoleHasPermission(params.userRole, DeleteArticleTag);
      && (o.result.Err? ==> o.entries == tags.entries)
      && (permitted && tags.findFails ==> o.result == Err(InternalError))
      && (permitted && !tags.findFails && params.tagId in tags.entries && tags.writeFails ==> o.result == Err(InternalError))
      && (o.result.Ok? <==> permitted && !tags.findFails && (params.tagId !in tags.entries || !tags.writeFails))
  {
  }

  /** Deleting an absent tag succeeds and changes nothing. */
  lemma DeleteAbsentTagIsNoOp(tags: StoreState<i32, ArticleTag>, params: DeleteArticleTagParams)
    requires !tags.findFails && params.tagId !in tags.entries
    ensures DeleteTagOutcome(tags, params).entries == tags.entries
    ensures VerifyRoleHasPermission(params.userRole, DeleteArticleTag) ==> DeleteTagOutcome(tags, params).result == Ok(())
  {
  }

  /** A success leaves no tag under the requested id and keeps every other tag. */
  lemma DeleteTagSuccess(tags: StoreState<i32, ArticleTag>, params: DeleteArticleTagParams)
    requires TagsKeyedById(tags.entries)
    requires DeleteTagOutcome(tags, params).result.Ok?
    ensures DeleteTagOutcome(tags, params).entries == tags.entries - {params.tagId}
  {
    if params.tagId in tags.entries {
      assert tags.entries[params.tagId].id == params.tagId;
    } else {
      assert tags.entries - {params.tagId} == tags.entries;
    }
  }

  /** Deletion is idempotent: a second call succeeds and leaves the store as the first left it. */
  lemma DeleteTagIdempotent(tags: StoreState<i32, ArticleTag>, params: DeleteArticleTagParams)
    requires TagsKeyedById(tags.entries)
    requires DeleteTagOutcome(tags, params).result.Ok?
    ensures var first := DeleteTagOutcome(tags, params);
      DeleteTagOutcome(tags.(entries := first.entries), params) == first
  {
    DeleteTagSuccess(tags, params);
  }

  /** Ceo deletes the only tag and the store becomes empty; Principal is refused and the tag stays. */
  lemma CeoDeletesPrincipalDoesNot(tags: StoreState<i32, ArticleTag>, tag: ArticleTag)
    requires !tags.findFails && !tags.writeFails && tags.entries == map[tag.id := tag]
    ensures DeleteTagOutcome(tags, DeleteArticleTagParams(Ceo, tag.id)) == Outcome(Ok(()), map[])
    ensures DeleteTagOutcome(tags, DeleteArticleTagParams(Principal, tag.id)) == Outcome(Err(UNAUTHORIZED), tags.entries)
  {
    CeoOnlyPermissions(Ceo);
    CeoOnlyPermissions(Principal);
    assert tags.entries - {tag.id} == map[];
  }

  class DeleteArticleTagService {
    const articleTagRepository: Store<i32, ArticleTag>

    constructor (articleTagRepository: Store<i32, ArticleTag>)
      ensures this.articleTagRepository == articleTagRepository
    {
      this.articleTagRepository := articleTagRepository;
    }

    method Exec(params: DeleteArticleTagParams) returns (r: Result<(), DomainError>)
      modifies articleTagRepository`entries
      ensures Outcome(r, articleTagRepository.entries) == DeleteTagOutcome(old(articleTagRepository.State()), params)
    {
      var userCanDeleteArticleTag := VerifyRoleHasPermission(params.userRole, DeleteArticleTag);
      if !userCanDeleteArticleTag {
        return Err(UNAUTHORIZED);
      }

      var tag := articleTagRepository.FindById(params.tagId);
      if tag.Err? {
        return Err(InternalError);
      }
      if tag.value.None? {
        return Ok(());
      }

      var result := articleTagRepository.Delete(tag.value.value.id);
      if result.Err? {
        return Err(InternalError);
      }
      r := Ok(());
    }
  }
}
