/**
 * The role hierarchy and the permission resolver (`RolePermissions::get_from_role`).
 * Each role's permission list is the list of the role before it followed by a
 * fixed increment, so the lists grow along the order
 * User < Writter < Editor < Coord < Admin < Principal < Ceo.
 * The authorization guard (`verify_role_has_permission`) is membership in that list.
 */
module RolePermissions {

  /** The staff roles, in increasing order of privilege (spelling as in the source). */
  datatype Role = User | Writter | Editor | Coord | Admin | Principal | Ceo

  /**
   * The permission tags. `DeleteArticleTag` is used by the tag-deletion service
   * but is missing from the enum in src/util/get_user_role_permissions.rs; it is
   * reconstructed here as the last tag.
   */
  datatype Permission =
    | UpdateUser | ChangeUserPassword
    | CreateArticle | UpdateArticle | ApproveArticle | DisapproveArticle | DeleteArticle
    | InactivateComment | DeleteComment
    | SolveReport | DeleteReport
    | CreateNewTeamRole | UpdateTeamRole | DeleteTeamRole
    | CreateTeamUser | UpdateTeamUser | DeleteTeamUser
    | DeleteArticleTag

  /** Position of a role in the hierarchy. */
  function Rank(role: Role): (n: nat)
    ensures n <= 6
  {
    match role
    case User => 0
    case Writter => 1
    case Editor => 2
    case Coord => 3
    case Admin => 4
    case Principal => 5
    case Ceo => 6
  }

  /** The role immediately below `role`. */
  function Predecessor(role: Role): (p: Role)
    requires role != User
    ensures Rank(p) + 1 == Rank(role)
  {
    match role
    case Writter => User
    case Editor => Writter
    case Coord => Editor
    case Admin => Coord
    case Principal => Admin
    case Ceo => Principal
  }

  /** The permissions a role adds on top of the role below it. */
  function Increment(role: Role): seq<Permission>
  {
    match role
    case User => []
    case Writter => [CreateArticle]
    case Editor => [UpdateArticle, ApproveArticle]
    case Coord => [DisapproveArticle, InactivateComment, SolveReport]
    case Admin => [UpdateUser, DeleteComment, CreateTeamUser, UpdateTeamUser, DeleteTeamUser]
    case Principal => [ChangeUserPassword, DeleteArticle, DeleteReport, CreateNewTeamRole, UpdateTeamRole]
    case Ceo => [DeleteTeamRole, DeleteArticleTag]
  }

  /** The permission list of a role: the list of the role below, then the role's increment. */
  function GetFromRole(role: Role): (perms: seq<Permission>)
    ensures forall p :: p in perms ==> Rank(IntroducedAt(p)) <= Rank(role)
    ensures forall p :: IntroducedAt(p) == role ==> p in perms
    decreases Rank(role)
  {
    if role == User then [] else GetFromRole(Predecessor(role)) + Increment(role)
  }

  /** The authorization guard: does `role` hold `permission`? */
  predicate VerifyRoleHasPermission(role: Role, permission: Permission)
    ensures VerifyRoleHasPermission(role, permission) ==> Rank(IntroducedAt(permission)) <= Rank(role)
    ensures IntroducedAt(permission) == role ==> VerifyRoleHasPermission(role, permission)
  {
    permission in GetFromRole(role)
  }

  /** Reference table: the lowest role that holds each permission. */
  function IntroducedAt(permission: Permission): Role
  {
    match permission
    case CreateArticle => Writter
    case UpdateArticle | ApproveArticle => Editor
    case DisapproveArticle | InactivateComment | SolveReport => Coord
    case UpdateUser | DeleteComment | CreateTeamUser | UpdateTeamUser | DeleteTeamUser => Admin
    case ChangeUserPassword | DeleteArticle | DeleteReport | CreateNewTeamRole | UpdateTeamRole => Principal
    case DeleteTeamRole | DeleteArticleTag => Ceo
  }

  lemma UserHasNoPermissions()
    ensures GetFromRole(User) == []
  {
  }

  lemma WritterPermissions()
    ensures GetFromRole(Writter) == [CreateArticle]
  {
  }

  /** A permission is in a role's increment exactly when the reference table puts it there. */
  lemma IncrementMembership(role: Role, permission: Permission)
    ensures permission in Increment(role) <==> IntroducedAt(permission) == role
  {
  }

  /** Each role's list is a prefix of the list of every role at or above it. */
  lemma {:induction false} GetFromRolePrefix(lo: Role, hi: Role)
    requires Rank(lo) <= Rank(hi)
    ensures GetFromRole(lo) <= GetFromRole(hi)
    decreases Rank(hi)
  {
    if lo != hi {
      GetFromRolePrefix(lo, Predecessor(hi));
    }
  }

  /** Each role above User has strictly more permissions than the role below it. */
  lemma StrictGrowth(role: Role)
    requires role != User
    ensures GetFromRole(Predecessor(role)) < GetFromRole(role)
  {
  }

  /** Permissions are monotone along the hierarchy. */
  lemma PermissionsMonotone(lo: Role, hi: Role, permission: Permission)
    requires Rank(lo) <= Rank(hi)
    requires VerifyRoleHasPermission(lo, permission)
    ensures VerifyRoleHasPermission(hi, permission)
  {
    GetFromRolePrefix(lo, hi);
  }

  /** Guard correctness: a role holds a permission iff it is at or above the role that introduces it. */
  lemma {:induction false} GuardMatchesTable(role: Role, permission: Permission)
    ensures VerifyRoleHasPermission(role, permission) <==> Rank(IntroducedAt(permission)) <= Rank(role)
    decreases Rank(role)
  {
    IncrementMembership(role, permission);
    if role != User {
      GuardMatchesTable(Predecessor(role), permission);
      assert permission in GetFromRole(role) <==>
        permission in GetFromRole(Predecessor(role)) || permission in Increment(role);
    }
  }

  /** Coord is the first role that may inactivate comments and solve reports. */
  lemma CoordModeratesComments()
    ensures VerifyRoleHasPermission(Coord, InactivateComment)
    ensures VerifyRoleHasPermission(Coord, SolveReport)
    ensures !VerifyRoleHasPermission(Editor, InactivateComment)
  {
    GuardMatchesTable(Coord, InactivateComment);
    GuardMatchesTable(Coord, SolveReport);
    GuardMatchesTable(Editor, InactivateComment);
  }

  /** DeleteArticle and DeleteReport are held exactly by Principal and Ceo. */
  lemma DeletionsFromPrincipal(role: Role)
    ensures VerifyRoleHasPermission(role, DeleteArticle) <==> Rank(Principal) <= Rank(role)
    ensures VerifyRoleHasPermission(role, DeleteReport) <==> Rank(Principal) <= Rank(role)
  {
    GuardMatchesTable(role, DeleteArticle);
    GuardMatchesTable(role, DeleteReport);
  }

  /** DeleteTeamRole, and the reconstructed DeleteArticleTag, are held only by Ceo. */
  lemma CeoOnlyPermissions(role: Role)
    ensures VerifyRoleHasPermission(role, DeleteTeamRole) <==> role == Ceo
    ensures VerifyRoleHasPermission(role, DeleteArticleTag) <==> role == Ceo
  {
    GuardMatchesTable(role, DeleteTeamRole);
    GuardMatchesTable(role, DeleteArticleTag);
    assert Rank(IntroducedAt(DeleteTeamRole)) == Rank(IntroducedAt(DeleteArticleTag)) == 6;
    assert Rank(role) == 6 <==> role == Ceo;
  }

  predicate NoDuplicates(s: seq<Permission>)
  {
    forall i, j :: 0 <= i < j < |s| ==> s[i] != s[j]
  }

  /** No role's list repeats a permission: the increments are pairwise disjoint. */
  lemma {:induction false} GetFromRoleNoDuplicates(role: Role)
    ensures NoDuplicates(GetFromRole(role))
    decreases Rank(role)
  {
    if role != User {
      var below, inc := GetFromRole(Predecessor(role)), Increment(role);
      GetFromRoleNoDuplicates(Predecessor(role));
      forall i, j | 0 <= i < |below| && 0 <= j < |inc|
        ensures below[i] != inc[j]
      {
        GuardMatchesTable(Predecessor(role), below[i]);
        IncrementMembership(role, inc[j]);
      }
      assert GetFromRole(role) == below + inc;
    }
  }
}
