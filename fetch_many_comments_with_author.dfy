/**
 * `FetchManyArticleCommentsWithAuthorService::exec`: default the page size and
 * the page, query the active comments of an article, and wrap them with the
 * pagination envelope.
 */
module FetchManyCommentsWithAuthor {
  import opened Wrappers
  import opened Errors
  import opened Entities
  import opened Pagination
  import opened CommentUserArticleRepository

  datatype FetchManyArticleCommentsWithAuthorParams =
    FetchManyArticleCommentsWithAuthorParams(page: Option<u32>, perPage: Option<u32>)

  datatype FetchManyCommentsWithAuthorResponse =
    FetchManyCommentsWithAuthorResponse(pagination: PaginationResponse, data: seq<CommentWithAuthor>)

  const DEFAULT_PAGE: u32 := 1

  /** The page size asked for, or the default when none is given. */
  function ItemsPerPage(perPage: Option<u32>): (n: u32)
    ensures perPage.None? ==> n == DEFAULT_PER_PAGE
    ensures perPage.Some? ==> n == perPage.value
  {
    if perPage.Some? then perPage.value else DEFAULT_PER_PAGE
  }

  /** The page asked for, clamped to at least 1; 1 when none is given. */
  function CurrentPage(page: Option<u32>): (p: u32)
    ensures p >= 1
    ensures page.Some? && page.value >= 1 ==> p == page.value
    ensures page.None? || page.value == 0 ==> p == DEFAULT_PAGE
  {
    if page.Some? then
      var requested := page.value;
      if requested <= 0 then DEFAULT_PAGE else requested
    else DEFAULT_PAGE
  }

  /** The envelope: the page served, the item count and the page count. */
  function Paginate(page: u32, itemsPerPage: u32, totalItems: nat): (r: PaginationResponse)
    requires itemsPerPage > 0
    ensures r.currentPage == page && r.totalItems == totalItems
    ensures r.totalPages * itemsPerPage as int >= totalItems
    ensures r.totalPages > 0 ==> (r.totalPages - 1) * itemsPerPage as int < totalItems
  {
    PaginationResponse(page, totalItems, CeilDiv(totalItems, itemsPerPage as int))
  }

  /** The query the service sends: defaulted page size and page, no search text. */
  function QueryFor(params: FetchManyArticleCommentsWithAuthorParams): PaginationParameters
  {
    PaginationParameters(ItemsPerPage(params.perPage), CurrentPage(params.page), None)
  }

  /** Page 0 of 9 items over 20 items is served as page 1 of 3. */
  lemma ZeroPageClampedExample()
    ensures Paginate(CurrentPage(Some(0)), ItemsPerPage(Some(9)), 20) == PaginationResponse(1, 20, 3)
  {
    CeilDivUnique(20, 9, 3);
  }

  /** Two items with no page and no page size fit on one page. */
  lemma DefaultsExample()
    ensures Paginate(CurrentPage(None), ItemsPerPage(None), 2) == PaginationResponse(1, 2, 1)
  {
    CeilDivUnique(2, DEFAULT_PER_PAGE as int, 1);
  }

  /**
   * Two active comments and one inactive comment on an article, fetched with no
   * page and no page size: the data is the two active ones in stored order,
   * on page 1 of 1, with 2 items in all.
   */
  lemma FetchTestScenario(articleId: Uuid, c1: CommentWithAuthor, c2: CommentWithAuthor, c3: CommentWithAuthor)
    requires c1.articleId == c2.articleId == c3.articleId == Some(articleId)
    requires c1.isActive && c2.isActive && !c3.isActive
    ensures var params := FetchManyArticleCommentsWithAuthorParams(None, None);
      var response := FindManyResponse(CommentFeed([c1, c2, c3], false), articleId, false, QueryFor(params));
      && response == Ok(FindManyCommentsWithAuthorResponse([c1, c2], 2))
      && Paginate(CurrentPage(params.page), ItemsPerPage(params.perPage), response.value.totalItems)
         == PaginationResponse(1, 2, 1)
  {
    MatchingAppend([c1], [c2, c3], articleId, false);
    MatchingAppend([c2], [c3], articleId, false);
    MatchingOne(c1, articleId, false);
    MatchingOne(c2, articleId, false);
    MatchingOne(c3, articleId, false);
    assert [c1, c2, c3] == [c1] + ([c2] + [c3]);
    assert Matching([c1, c2, c3], articleId, false) == [c1, c2];
    assert PageOffset(1, DEFAULT_PER_PAGE, 2) == 0;
    assert PageWindow([c1, c2], 1, DEFAULT_PER_PAGE) == [c1, c2];
    DefaultsExample();
  }

  class FetchManyArticleCommentsWithAuthorService {
    const articleCommentRepository: CommentStore

    constructor (articleCommentRepository: CommentStore)
      ensures this.articleCommentRepository == articleCommentRepository
    {
      this.articleCommentRepository := articleCommentRepository;
    }

    method Exec(articleId: Uuid, params: FetchManyArticleCommentsWithAuthorParams)
      returns (r: Result<FetchManyCommentsWithAuthorResponse, DomainError>)
      requires params.perPage != Some(0)
      modifies articleCommentRepository`lastRequest
      ensures articleCommentRepository.lastRequest == Some(FindManyRequest(articleId, false, QueryFor(params)))
      ensures var response := FindManyResponse(articleCommentRepository.State(), articleId, false, QueryFor(params));
        && (r.Err? <==> response.Err?)
        && (r.Err? ==> r.error == InternalError)
        && (r.Ok? ==> r.value.data == response.value.comments)
        && (r.Ok? ==>
              r.value.pagination == Paginate(CurrentPage(params.page), ItemsPerPage(params.perPage), response.value.totalItems))
    {
      var itemsPerPage := if params.perPage.Some? then params.perPage.value else DEFAULT_PER_PAGE;
      var page := if params.page.Some? then
        (var paramsPage := params.page.value; if paramsPage <= 0 then DEFAULT_PAGE else paramsPage)
      else DEFAULT_PAGE;

      var response := articleCommentRepository.FindManyComments(articleId, false,
        PaginationParameters(itemsPerPage, page, None));

      if response.Err? {
        return Err(InternalError);
      }

      var FindManyCommentsWithAuthorResponse(comments, totalItems) := response.value;
      r := Ok(FetchManyCommentsWithAuthorResponse(
        PaginationResponse(page, totalItems, CeilDiv(totalItems, itemsPerPage as int)),
        comments));
    }
  }
}
