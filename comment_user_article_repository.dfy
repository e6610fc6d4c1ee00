/**
 * The paginated comment query the fetch service depends on
 * (`find_many_comments(article_id, include_inactive, params)`). The SQL adapter
 * is outside this model; this in-memory store filters the article's comments
 * (active ones only, unless inactive ones are asked for), counts them, and
 * returns the requested page of them in stored order.
 */
module CommentUserArticleRepository {
  import opened Wrappers
  import opened Entities
  import opened Pagination
  import opened Repositories

  /** `FindManyCommentsWithAuthorResponse(comments, total_items)`. */
  datatype FindManyCommentsWithAuthorResponse =
    FindManyCommentsWithAuthorResponse(comments: seq<CommentWithAuthor>, totalItems: nat)

  /** The abstract state of the comment store. */
  datatype CommentFeed = CommentFeed(rows: seq<CommentWithAuthor>, findFails: bool)

  predicate Listed(c: CommentWithAuthor, articleId: Uuid, includeInactive: bool)
  {
    c.articleId == Some(articleId) && (includeInactive || c.isActive)
  }

  /** The listed rows, in stored order. */
  function Matching(rows: seq<CommentWithAuthor>, articleId: Uuid, includeInactive: bool): (m: seq<CommentWithAuthor>)
    ensures |m| <= |rows|
    ensures forall c :: c in m <==> c in rows && Listed(c, articleId, includeInactive)
  {
    if rows == [] then []
    else
      var rest := Matching(rows[1..], articleId, includeInactive);
      if Listed(rows[0], articleId, includeInactive) then [rows[0]] + rest else rest
  }

  /** The page `page` (counted from 1) of `itemsPerPage` items of `s`. */
  function PageWindow(s: seq<CommentWithAuthor>, page: u32, itemsPerPage: u32): (w: seq<CommentWithAuthor>)
    ensures var offset := PageOffset(page, itemsPerPage, |s|);
      && |w| == (if offset + itemsPerPage as int <= |s| then itemsPerPage as int else |s| - offset)
      && forall i :: 0 <= i < |w| ==> w[i] == s[offset + i]
  {
    var offset := PageOffset(page, itemsPerPage, |s|);
    var end := if offset + itemsPerPage as int <= |s| then offset + itemsPerPage as int else |s|;
    s[offset..end]
  }

  /** The rows before page `page`: (page - 1) pages' worth, or all rows once the pages run out. */
  function PageOffset(page: u32, itemsPerPage: u32, length: nat): (offset: nat)
    ensures offset <= length
    ensures page >= 1 && (page as int - 1) * itemsPerPage as int <= length ==>
      offset == (page as int - 1) * itemsPerPage as int
    ensures page >= 1 && (page as int - 1) * itemsPerPage as int > length ==> offset == length
    ensures page == 0 ==> offset == 0
  {
    var skip := if page >= 1 then (page as int - 1) * itemsPerPage as int else 0;
    if skip <= length then skip else length
  }

  /** Listing keeps stored order: the listed rows of a concatenation are the concatenation of the listed rows. */
  lemma {:induction false} MatchingAppend(a: seq<CommentWithAuthor>, b: seq<CommentWithAuthor>, articleId: Uuid, includeInactive: bool)
    ensures Matching(a + b, articleId, includeInactive) == Matching(a, articleId, includeInactive) + Matching(b, articleId, includeInactive)
    decreases |a|
  {
    if a == [] {
      assert a + b == b;
    } else {
      assert (a + b)[1..] == a[1..] + b;
      MatchingAppend(a[1..], b, articleId, includeInactive);
    }
  }

  /** A single row is listed alone or dropped. */
  lemma MatchingOne(c: CommentWithAuthor, articleId: Uuid, includeInactive: bool)
    ensures Matching([c], articleId, includeInactive) == if Listed(c, articleId, includeInactive) then [c] else []
  {
    assert [c][1..] == [];
  }

  /** Pages 1 to `k`, one after the other. */
  function Pages(s: seq<CommentWithAuthor>, itemsPerPage: u32, k: nat): seq<CommentWithAuthor>
    requires k < 0x1_0000_0000
  {
    if k == 0 then [] else Pages(s, itemsPerPage, k - 1) + PageWindow(s, k as u32, itemsPerPage)
  }

  /** Pages 1 to `k` are the first `k * itemsPerPage` rows (or all of them). */
  lemma {:induction false} PagesArePrefix(s: seq<CommentWithAuthor>, itemsPerPage: u32, k: nat)
    requires itemsPerPage > 0 && k < 0x1_0000_0000
    ensures Pages(s, itemsPerPage, k) == s[..if k * itemsPerPage as int <= |s| then k * itemsPerPage as int else |s|]
  {
    if k > 0 {
      PagesArePrefix(s, itemsPerPage, k - 1);
      var n := itemsPerPage as int;
      assert k * n == (k - 1) * n + n;
      var before := if (k - 1) * n <= |s| then (k - 1) * n else |s|;
      var after := if k * n <= |s| then k * n else |s|;
      var w := PageWindow(s, k as u32, itemsPerPage);
      assert PageOffset(k as u32, itemsPerPage, |s|) == before;
      assert w == s[before..after];
      assert s[..before] + s[before..after] == s[..after];
    }
  }

  /** The `total_pages` pages, read in order, hold every row exactly once and in order. */
  lemma PagesCoverAll(s: seq<CommentWithAuthor>, itemsPerPage: u32)
    requires itemsPerPage > 0 && CeilDiv(|s|, itemsPerPage as int) < 0x1_0000_0000
    ensures Pages(s, itemsPerPage, CeilDiv(|s|, itemsPerPage as int)) == s
  {
    PagesArePrefix(s, itemsPerPage, CeilDiv(|s|, itemsPerPage as int));
  }

  /** What `find_many_comments` answers in a given state. */
  function FindManyResponse(feed: CommentFeed, articleId: Uuid, includeInactive: bool, params: PaginationParameters)
    : (r: Result<FindManyCommentsWithAuthorResponse, StorageError>)
    ensures r.Err? <==> feed.findFails
    ensures r.Ok? ==> r.value.totalItems == |Matching(feed.rows, articleId, includeInactive)|
  {
    if feed.findFails then Err(StorageError)
    else
      var matching := Matching(feed.rows, articleId, includeInactive);
      Ok(FindManyCommentsWithAuthorResponse(PageWindow(matching, params.page, params.itemsPerPage), |matching|))
  }

  /** The arguments of one `find_many_comments` call. */
  datatype FindManyRequest = FindManyRequest(articleId: Uuid, includeInactive: bool, params: PaginationParameters)

  class CommentStore {
    var rows: seq<CommentWithAuthor>
    var findFails: bool
    /** The arguments of the latest query, so that callers' contracts can state what they asked for. */
    ghost var lastRequest: Option<FindManyRequest>

    constructor (rows: seq<CommentWithAuthor>, findFails: bool)
      ensures this.rows == rows && this.findFails == findFails && lastRequest == None
    {
      this.rows := rows;
      this.findFails := findFails;
      lastRequest := None;
    }

    function State(): CommentFeed
      reads this
    {
      CommentFeed(rows, findFails)
    }

    method FindManyComments(articleId: Uuid, includeInactive: bool, params: PaginationParameters)
      returns (r: Result<FindManyCommentsWithAuthorResponse, StorageError>)
      modifies this`lastRequest
      ensures r == FindManyResponse(State(), articleId, includeInactive, params)
      ensures lastRequest == Some(FindManyRequest(articleId, includeInactive, params))
    {
      lastRequest := Some(FindManyRequest(articleId, includeInactive, params));
      if findFails {
        r := Err(StorageError);
      } else {
        var matching := Matching(rows, articleId, includeInactive);
        r := Ok(FindManyCommentsWithAuthorResponse(PageWindow(matching, params.page, params.itemsPerPage), |matching|));
      }
    }
  }
}
