/**
 * `ToggleCommentVisibilityService::exec`: find the actor, require
 * InactivateComment, find the comment, flip `is_active`, save it.
 */
module ToggleCommentVisibility {
  import opened Wrappers
  import opened RolePermissions
  import opened Errors
  import opened Entities
  import opened Repositories
  import opened Orchestration

  datatype ToggleCommentVisibilityParams = ToggleCommentVisibilityParams(userId: Uuid, commentId: Uuid)

  /** Every comment is stored under its own id. */
  predicate CommentsKeyedById(m: map<Uuid, Comment>)
  {
    forall k :: k in m ==> m[k].id == k
  }

  /** The visibility transition: an active comment becomes inactive and vice versa. */
  function Toggled(comment: Comment): Comment
  {
    if comment.isActive then comment.(isActive := false) else comment.(isActive := true)
  }

  /** What one call answers and leaves in the comment store. */
  function ToggleOutcome(users: StoreState<Uuid, User>, comments: StoreState<Uuid, Comment>,
                         params: ToggleCommentVisibilityParams): Outcome<Comment, Uuid, Comment>
    requires ActorRolePresent(users, params.userId)
  {
    if users.findFails then Outcome(Err(InternalError), comments.entries)
    else if params.userId !in users.entries then Outcome(Err(UNAUTHORIZED), comments.entries)
    else if !VerifyRoleHasPermission(users.entries[params.userId].role.value, InactivateComment) then
      Outcome(Err(UNAUTHORIZED), comments.entries)
    else if comments.findFails then Outcome(Err(InternalError), comments.entries)
    else if params.commentId !in comments.entries then Outcome(Err(UNAUTHORIZED), comments.entries)
    else
      var comment := Toggled(comments.entries[params.commentId]);
      if comments.writeFails then Outcome(Err(InternalError), comments.entries)
      else Outcome(Ok(comment), comments.entries[comment.id := comment])
  }

  /** Toggling negates `is_active` and changes nothing else. */
  lemma ToggledNegates(comment: Comment)
    ensures Toggled(comment).isActive == !comment.isActive
    ensures Toggled(comment).(isActive := comment.isActive) == comment
  {
  }

  /** Every failing call leaves the comment store as it was. */
  lemma ToggleFailureChangesNothing(users: StoreState<Uuid, User>, comments: StoreState<Uuid, Comment>,
                                    params: ToggleCommentVisibilityParams)
    requires ActorRolePresent(users, params.userId)
    ensures ToggleOutcome(users, comments, params).result.Err? ==>
            ToggleOutcome(users, comments, params).entries == comments.entries
  {
  }

  /** Which error each missing piece or failing step produces. */
  lemma ToggleErrors(users: StoreState<Uuid, User>, comments: StoreState<Uuid, Comment>,
                     params: ToggleCommentVisibilityParams)
    requires ActorRolePresent(users, params.userId)
    ensures var o := ToggleOutcome(users, comments, params);
      var permitted := !users.findFails && params.userId in users.entries
        && VerifyRoleHasPermission(users.entries[params.userId].role.value, InactivateComment);
      && (users.findFails ==> o.result == Err(InternalError))
      && (!users.findFails && params.userId !in users.entries ==> o.result == Err(UNAUTHORIZED))
      && (!users.findFails && params.userId in users.entries && !permitted ==> o.result == Err(UNAUTHORIZED))
      && (permitted && comments.findFails ==> o.result == Err(InternalError))
      && (permitted && !comments.findFails && params.commentId !in comments.entries ==> o.result == Err(UNAUTHORIZED))
      && (permitted && !comments.findFails && params.commentId in comments.entries && comments.writeFails ==>
            o.result == Err(InternalError))
      && (o.result.Ok? <==> permitted && !comments.findFails && params.commentId in comments.entries && !comments.writeFails)
  {
  }

  /** A storage error on the actor lookup is reported before the comment store is consulted. */
  lemma ToggleUserLookupFailure(users: StoreState<Uuid, User>, comments1: StoreState<Uuid, Comment>,
                                comments2: StoreState<Uuid, Comment>, params: ToggleCommentVisibilityParams)
    requires users.findFails
    ensures ToggleOutcome(users, comments1, params).result == ToggleOutcome(users, comments2, params).result == Err(InternalError)
  {
  }

  /** An Editor is refused and the comment keeps its visibility. */
  lemma EditorCannotToggle(users: StoreState<Uuid, User>, comments: StoreState<Uuid, Comment>,
                           params: ToggleCommentVisibilityParams)
    requires !users.findFails && params.userId in users.entries
    requires users.entries[params.userId].role == Some(Editor)
    ensures ToggleOutcome(users, comments, params) == Outcome(Err(UNAUTHORIZED), comments.entries)
  {
    CoordModeratesComments();
  }

  /** A success stores and returns the comment with `is_active` negated, under the same id. */
  lemma ToggleSuccess(users: StoreState<Uuid, User>, comments: StoreState<Uuid, Comment>,
                      params: ToggleCommentVisibilityParams)
    requires ActorRolePresent(users, params.userId)
    requires CommentsKeyedById(comments.entries)
    requires ToggleOutcome(users, comments, params).result.Ok?
    ensures var o := ToggleOutcome(users, comments, params);
      var before := comments.entries[params.commentId];
      && o.result.value == before.(isActive := !before.isActive)
      && o.entries == comments.entries[params.commentId := o.result.value]
      && CommentsKeyedById(o.entries)
  {
  }

  /** A Coord actor toggles an existing, active comment to inactive. */
  lemma CoordDeactivatesComment(users: StoreState<Uuid, User>, comments: StoreState<Uuid, Comment>,
                                params: ToggleCommentVisibilityParams)
    requires !users.findFails && params.userId in users.entries
    requires users.entries[params.userId].role == Some(Coord)
    requires !comments.findFails && !comments.writeFails
    requires params.commentId in comments.entries && comments.entries[params.commentId].isActive
    ensures var o := ToggleOutcome(users, comments, params);
      o.result.Ok? && !o.result.value.isActive
  {
    CoordModeratesComments();
  }

  /** Toggling twice restores the store, and the comment's original visibility. */
  lemma ToggleInvolution(users: StoreState<Uuid, User>, comments: StoreState<Uuid, Comment>,
                         params: ToggleCommentVisibilityParams)
    requires ActorRolePresent(users, params.userId)
    requires CommentsKeyedById(comments.entries)
    requires ToggleOutcome(users, comments, params).result.Ok?
    ensures var first := ToggleOutcome(users, comments, params);
      var second := ToggleOutcome(users, comments.(entries := first.entries), params);
      && second.result == Ok(comments.entries[params.commentId])
      && second.entries == comments.entries
  {
    var first := ToggleOutcome(users, comments, params);
    ToggleSuccess(users, comments, params);
    var after := comments.(entries := first.entries);
    ToggleSuccess(users, after, params);
    var original := comments.entries[params.commentId];
    assert Toggled(Toggled(original)) == original;
    assert first.entries[params.commentId := original] == comments.entries;
  }

  class ToggleCommentVisibilityService {
    const userRepository: Store<Uuid, User>
    const commentRepository: Store<Uuid, Comment>

    constructor (userRepository: Store<Uuid, User>, commentRepository: Store<Uuid, Comment>)
      ensures this.userRepository == userRepository && this.commentRepository == commentRepository
    {
      this.userRepository := userRepository;
      this.commentRepository := commentRepository;
    }

    method Exec(params: ToggleCommentVisibilityParams) returns (r: Result<Comment, DomainError>)
      requires ActorRolePresent(userRepository.State(), params.userId)
      modifies commentRepository`entries
      ensures Outcome(r, commentRepository.entries) ==
              ToggleOutcome(old(userRepository.State()), old(commentRepository.State()), params)
    {
      var userOnDb := userRepository.FindById(params.userId);
      if userOnDb.Err? {
        return Err(InternalError);
      }
      if userOnDb.value.None? {
        return Err(UNAUTHORIZED);
      }
      var user := userOnDb.value.value;

      var userCanToggleVisibility := VerifyRoleHasPermission(user.role.value, InactivateComment);
      if !userCanToggleVisibility {
        return Err(UNAUTHORIZED);
      }

      var comment := commentRepository.FindById(params.commentId);
      if comment.Err? {
        return Err(InternalError);
      }
      if comment.value.None? {
        return Err(UNAUTHORIZED);
      }
      var toggled := comment.value.value;
      if toggled.isActive {
        toggled := toggled.(isActive := false);
      } else {
        toggled := toggled.(isActive := true);
      }

      var result := commentRepository.Save(toggled.id, toggled);
      match result {
        case Ok(saved) => r := Ok(saved);
        case Err(_) => r := Err(InternalError);
      }
    }
  }
}
