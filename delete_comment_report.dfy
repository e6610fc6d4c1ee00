/**
 * `DeleteCommentReportService::exec`: require DeleteReport of the staff role,
 * find the report, and delete it; an absent report is a bad request.
 */
module DeleteCommentReport {
  import opened Wrappers
  import opened RolePermissions
  import opened Errors
  import opened Entities
  import opened Repositories
  import opened Orchestration

  datatype DeleteCommentReportParams = DeleteCommentReportParams(staffRole: Role, comReportId: i32)

  /** Every report is stored under its own id. */
  predicate ReportsKeyedById(m: map<i32, CommentReport>)
  {
    forall k :: k in m ==> m[k].id == k
  }

  /** What one call answers and leaves in the report store. */
  function DeleteReportOutcome(reports: StoreState<i32, CommentReport>, params: DeleteCommentReportParams)
    : Outcome<(), i32, CommentReport>
  {
    if !VerifyRoleHasPermission(params.staffRole, DeleteReport) then Outcome(Err(UNAUTHORIZED), reports.entries)
    else if reports.findFails then Outcome(Err(InternalError), reports.entries)
    else if params.comReportId !in reports.entries then Outcome(Err(BadRequest), reports.entries)
    else
      var report := reports.entries[params.comReportId];
      if reports.writeFails then Outcome(Err(InternalError), reports.entries)
      else Outcome(Ok(()), reports.entries - {report.id})
  }

  /** A role without DeleteReport is refused whatever the store holds or does. */
  lemma DeleteReportDeniedBeforeLookup(reports: StoreState<i32, CommentReport>, params: DeleteCommentReportParams)
    requires !VerifyRoleHasPermission(params.staffRole, DeleteReport)
    ensures DeleteReportOutcome(reports, params) == Outcome(Err(UNAUTHORIZED), reports.entries)
  {
  }

  /** Which error each failing step produces, and that failures leave the store alone. */
  lemma DeleteReportErrors(reports: StoreState<i32, CommentReport>, params: DeleteCommentReportParams)
    ensures var o := DeleteReportOutcome(reports, params);
      var permitted := VerifyRoleHasPermission(params.staffRole, DeleteReport);
      && (o.result.Err? ==> o.entries == reports.entries)
      && (permitted && reports.findFails ==> o.result == Err(InternalError))
      && (permitted && !reports.findFails && params.comReportId !in reports.entries ==> o.result == Err(BadRequest))
      && (permitted && !reports.findFails && params.comReportId in reports.entries && reports.writeFails ==>
            o.result == Err(InternalError))
      && (o.result.Ok? <==> permitted && !reports.findFails && params.comReportId in reports.entries && !reports.writeFails)
  {
  }

  /** A success removes exactly the requested report and keeps every other one. */
  lemma DeleteReportSuccess(reports: StoreState<i32, CommentReport>, params: DeleteCommentReportParams)
    requires ReportsKeyedById(reports.entries)
    requires DeleteReportOutcome(reports, params).result.Ok?
    ensures var o := DeleteReportOutcome(reports, params);
      && params.comReportId !in o.entries
      && (forall k :: k in reports.entries && k != params.comReportId ==> k in o.entries && o.entries[k] == reports.entries[k])
      && o.entries.Keys == reports.entries.Keys - {params.comReportId}
  {
  }

  /** Deletion is strict: deleting the same report again is a bad request. */
  lemma DeleteReportTwiceIsBadRequest(reports: StoreState<i32, CommentReport>, params: DeleteCommentReportParams)
    requires ReportsKeyedById(reports.entries)
    requires DeleteReportOutcome(reports, params).result.Ok?
    ensures var first := DeleteReportOutcome(reports, params);
      DeleteReportOutcome(reports.(entries := first.entries), params) == Outcome(Err(BadRequest), first.entries)
  {
    DeleteReportSuccess(reports, params);
  }

  /** Principal may delete reports; User may not, and the report stays. */
  lemma PrincipalDeletesUserDoesNot(reports: StoreState<i32, CommentReport>, id: i32)
    requires ReportsKeyedById(reports.entries)
    requires !reports.findFails && !reports.writeFails && id in reports.entries
    ensures var o := DeleteReportOutcome(reports, DeleteCommentReportParams(Principal, id));
      o.result == Ok(()) && id !in o.entries
    ensures var o := DeleteReportOutcome(reports, DeleteCommentReportParams(Role.User, id));
      o.result.Err? && id in o.entries
  {
    DeletionsFromPrincipal(Principal);
    DeletionsFromPrincipal(Role.User);
  }

  class DeleteCommentReportService {
    const commentReportRepository: Store<i32, CommentReport>

    constructor (commentReportRepository: Store<i32, CommentReport>)
      ensures this.commentReportRepository == commentReportRepository
    {
      this.commentReportRepository := commentReportRepository;
    }

    method Exec(params: DeleteCommentReportParams) returns (r: Result<(), DomainError>)
      modifies commentReportRepository`entries
      ensures Outcome(r, commentReportRepository.entries) ==
              DeleteReportOutcome(old(commentReportRepository.State()), params)
    {
      var staffCanDelete := VerifyRoleHasPermission(params.staffRole, DeleteReport);
      if !staffCanDelete {
        return Err(UNAUTHORIZED);
      }

      var commReport := commentReportRepository.FindById(params.comReportId);
      if commReport.Err? {
        return Err(InternalError);
      }
      if commReport.value.None? {
        return Err(BadRequest);
      }
      var report := commReport.value.value;

      var result := commentReportRepository.Delete(report.id);
      if result.Err? {
        return Err(InternalError);
      }
      r := Ok(());
    }
  }
}
