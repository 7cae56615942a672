/**
 * The social media content record shared by the autopost engine and the
 * content generation job, with the id types of its columns.
 */
module SocialMediaContent {
  type AccountId = int
  type CategoryId = int
  type ContentId = int

  /** A social_media_contents row, with the columns the engine, its trace and the rewrite writer read. */
  datatype Content = Content(id: ContentId, accountId: AccountId, categoryId: CategoryId, title: string)
}
