/**
 * The database records the portal reads and writes: tenants (churches),
 * memberships (church users), sermons and the content generated for them.
 * Timestamps and identifiers are opaque strings; a JSON column is kept as
 * its text.
 */
module Records {
  import opened Wrappers

  /** A tenant. `notion_page_url` is optional. */
  datatype Church = Church(
    id: string,
    name: string,
    slug: string,
    contact_email: string,
    notion_page_url: Option<string>,
    created_at: string,
    updated_at: string)

  /** The role a member holds in their church. */
  datatype Role = Admin | Editor | Viewer

  /** A membership linking a signed-in account to a church; the joined church is optional. */
  datatype ChurchUser = ChurchUser(
    id: string,
    church_id: string,
    user_id: string,
    role: Role,
    created_at: string,
    church: Option<Church>)

  /** How far the external workflow has got with a sermon's derived content. */
  datatype ProcessingStatus = Pending | Processing | Completed | Failed

  /** The content generated for one sermon. */
  datatype SermonContent = SermonContent(
    id: string,
    sermon_id: string,
    full_blog_post: Option<string>,
    meta_tags: Option<string>,
    video_schema_json: Option<string>,
    social_captions: Option<string>,
    discussion_questions: Option<string>,
    processing_status: ProcessingStatus,
    created_at: string,
    updated_at: string)

  /** A sermon of one church, joined with its content row when there is one. */
  datatype Sermon = Sermon(
    id: string,
    church_id: string,
    title: string,
    speaker_name: string,
    sermon_date: string,
    youtube_url: string,
    series_name: Option<string>,
    created_at: string,
    updated_at: string,
    sermon_content: Option<SermonContent>)
}
