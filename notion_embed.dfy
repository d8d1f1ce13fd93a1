/** The content viewer: the church's document page in a frame, or a placeholder when none is configured. */
module NotionEmbed {
  import opened Wrappers
  import opened Js
  import opened Records

  /** The placeholder, or a frame with a matching "Open in Notion" link. */
  datatype EmbedView = Placeholder | Frame(iframeSrc: string, linkHref: string)

  /** `churchUser?.church?.notion_page_url`. */
  function PageUrl(churchUser: Option<ChurchUser>): (u: Option<string>)
    ensures u.Some? ==> churchUser.Some? && churchUser.value.church.Some?
    ensures u.Some? ==> u == churchUser.value.church.value.notion_page_url
    ensures churchUser.Some? && churchUser.value.church.Some? ==> u == churchUser.value.church.value.notion_page_url
  {
    if churchUser.Some? && churchUser.value.church.Some? then churchUser.value.church.value.notion_page_url else None
  }

  /** The viewer: a frame exactly when the URL is a non-empty string; frame and link both point at it. */
  function Embed(churchUser: Option<ChurchUser>): (v: EmbedView)
    ensures v.Frame? <==> Present(PageUrl(churchUser))
    ensures v.Frame? ==> v.iframeSrc == PageUrl(churchUser).value && v.linkHref == v.iframeSrc
    ensures churchUser.None? ==> v == Placeholder
    ensures churchUser.Some? && churchUser.value.church.None? ==> v == Placeholder
  {
    var url := PageUrl(churchUser);
    if Present(url) then Frame(url.value, url.value) else Placeholder
  }

  /** The decision depends on the church's URL only: not on the member's role or anything else of the membership. */
  lemma EmbedDependsOnlyOnUrl(a: ChurchUser, b: ChurchUser)
    requires PageUrl(Some(a)) == PageUrl(Some(b))
    ensures Embed(Some(a)) == Embed(Some(b))
  {
  }
}
