/** The domain entities the services read and write, held by value. */
module Entities {
  import opened Wrappers
  import opened RolePermissions

  /** Seconds since the epoch. */
  type Timestamp = int

  /** An opaque identifier (the source uses UUIDs). */
  datatype Uuid = Uuid(value: nat)

  /** A 32-bit signed integer id, as used for comment reports and article tags. */
  newtype i32 = x: int | -0x8000_0000 <= x < 0x8000_0000

  datatype User = User(
    id: Uuid,
    name: string,
    passwordHash: string,
    createdAt: Timestamp,
    lastPasswordChange: Option<Timestamp>,
    role: Option<Role>)

  datatype Article = Article(
    id: Uuid,
    authorId: Uuid,
    title: string,
    content: string,
    coverUrl: string,
    createdAt: Timestamp)

  datatype Comment = Comment(
    id: Uuid,
    authorId: Uuid,
    articleId: Option<Uuid>,
    content: string,
    isActive: bool,
    createdAt: Timestamp)

  datatype CommentReport = CommentReport(
    id: i32,
    commentId: Uuid,
    userId: Uuid,
    content: string,
    solvedBy: Option<Uuid>,
    createdAt: Timestamp)

  datatype ArticleTag = ArticleTag(id: i32, value: string)

  /** A comment joined with its author, as returned by the paginated comment query. */
  datatype CommentWithAuthor = CommentWithAuthor(
    id: Uuid,
    articleId: Option<Uuid>,
    content: string,
    isActive: bool,
    createdAt: Timestamp,
    author: User)
}
