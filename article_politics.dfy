/**
 * `ArticlePolitics::article_is_recent`: an article stays recent while fewer than
 * 49 whole hours have passed since it was created.
 */
module ArticlePolitics {
  import opened Entities

  const SECONDS_PER_HOUR: int := 3600
  const HOURS_TIL_NO_LONGER_RECENT: int := 48

  /** Whole hours in a signed duration of `seconds`, truncated toward zero (chrono's `num_hours`). */
  function NumHours(seconds: int): (h: int)
    ensures seconds >= 0 ==> h >= 0 && h * SECONDS_PER_HOUR <= seconds < (h + 1) * SECONDS_PER_HOUR
    ensures seconds < 0 ==> h <= 0 && (h - 1) * SECONDS_PER_HOUR < seconds <= h * SECONDS_PER_HOUR
  {
    if seconds >= 0 then seconds / SECONDS_PER_HOUR else -((-seconds) / SECONDS_PER_HOUR)
  }

  /** Recent exactly when less than 49 hours (in seconds) separate creation from now. */
  predicate ArticleIsRecent(article: Article, now: Timestamp)
    ensures ArticleIsRecent(article, now) <==>
            now - article.createdAt < (HOURS_TIL_NO_LONGER_RECENT + 1) * SECONDS_PER_HOUR
  {
    var d := now - article.createdAt;
    assert d >= 0 && NumHours(d) <= HOURS_TIL_NO_LONGER_RECENT ==> d < (NumHours(d) + 1) * SECONDS_PER_HOUR;
    NumHours(d) <= HOURS_TIL_NO_LONGER_RECENT
  }

  /** Exactly 48 hours old is still recent; 49 hours old is not. */
  lemma RecentBoundary(article: Article)
    ensures ArticleIsRecent(article, article.createdAt + 48 * SECONDS_PER_HOUR)
    ensures !ArticleIsRecent(article, article.createdAt + 49 * SECONDS_PER_HOUR)
  {
  }

  /** An article created after `now` (a negative difference) counts as recent. */
  lemma FutureArticleIsRecent(article: Article, now: Timestamp)
    requires now < article.createdAt
    ensures ArticleIsRecent(article, now)
  {
  }

  /** Only the creation time matters, not the rest of the article. */
  lemma RecencyDependsOnCreationOnly(a1: Article, a2: Article, now: Timestamp)
    requires a1.createdAt == a2.createdAt
    ensures ArticleIsRecent(a1, now) == ArticleIsRecent(a2, now)
  {
  }

  /** Recency is monotone in time: recent at `t2` means recent at every earlier `t1`. */
  lemma RecencyMonotone(article: Article, t1: Timestamp, t2: Timestamp)
    requires t1 <= t2
    requires ArticleIsRecent(article, t2)
    ensures ArticleIsRecent(article, t1)
  {
  }
}
