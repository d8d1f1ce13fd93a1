/** The sermon list: one card per sermon, a status badge for sermons with content, and an empty-state notice. */
module SermonList {
  import opened Wrappers
  import opened Js
  import opened Records

  /** The badge colours. */
  datatype BadgeColor = Green | Yellow | Red | Gray

  /** `getStatusColor`: completed is green, processing yellow, failed red, anything else gray. */
  function StatusColor(status: ProcessingStatus): (c: BadgeColor)
    ensures c == Green <==> status == Completed
    ensures c == Yellow <==> status == Processing
    ensures c == Red <==> status == Failed
    ensures c == Gray <==> status == Pending
  {
    match status
    case Completed => Green
    case Processing => Yellow
    case Failed => Red
    case _ => Gray
  }

  /** The style classes of each colour, one string per colour. */
  function ColorClasses(c: BadgeColor): (r: string)
    ensures r == "bg-green-100 text-green-800" <==> c == Green
    ensures r == "bg-yellow-100 text-yellow-800" <==> c == Yellow
    ensures r == "bg-red-100 text-red-800" <==> c == Red
    ensures r == "bg-gray-100 text-gray-800" <==> c == Gray
  {
    match c
    case Green => "bg-green-100 text-green-800"
    case Yellow => "bg-yellow-100 text-yellow-800"
    case Red => "bg-red-100 text-red-800"
    case Gray => "bg-gray-100 text-gray-800"
  }

  /** The status as the badge spells it. */
  function StatusText(status: ProcessingStatus): (r: string)
    ensures r == "pending" <==> status == Pending
    ensures r == "processing" <==> status == Processing
    ensures r == "completed" <==> status == Completed
    ensures r == "failed" <==> status == Failed
  {
    match status
    case Pending => "pending"
    case Processing => "processing"
    case Completed => "completed"
    case Failed => "failed"
  }

  /** A status badge: the status text in its colour. */
  datatype Badge = Badge(text: string, color: BadgeColor)

  /** The badge of a sermon: present exactly when the sermon has a content row. */
  function SermonBadge(s: Sermon): (b: Option<Badge>)
    ensures b.Some? <==> s.sermon_content.Some?
    ensures b.Some? ==> b.value == Badge(StatusText(s.sermon_content.value.processing_status),
                                         StatusColor(s.sermon_content.value.processing_status))
  {
    if s.sermon_content.Some? then
      var st := s.sermon_content.value.processing_status;
      Some(Badge(StatusText(st), StatusColor(st)))
    else None
  }

  /** One sermon's card; "Edit" hands over the sermon, "Delete" its id. */
  datatype Card = Card(
    title: string,
    badge: Option<Badge>,
    speaker: string,
    seriesName: Option<string>,
    videoHref: string,
    editTarget: Sermon,
    deleteTarget: string)

  /** The card of a sermon: the series shows only when it is a non-empty string; the video link is the sermon's URL. */
  function RenderCard(s: Sermon): (c: Card)
    ensures c.title == s.title && c.speaker == s.speaker_name && c.videoHref == s.youtube_url
    ensures c.badge == SermonBadge(s)
    ensures c.seriesName.Some? <==> Present(s.series_name)
    ensures c.seriesName.Some? ==> c.seriesName == s.series_name
    ensures c.editTarget == s && c.deleteTarget == s.id
  {
    Card(s.title, SermonBadge(s), s.speaker_name,
         if Present(s.series_name) then s.series_name else None,
         s.youtube_url, s, s.id)
  }

  /** `sermons.map(...)`: one card per sermon, in the list's order. */
  function Cards(sermons: seq<Sermon>): (r: seq<Card>)
    ensures |r| == |sermons|
    ensures forall i :: 0 <= i < |sermons| ==> r[i] == RenderCard(sermons[i])
  {
    if |sermons| == 0 then [] else [RenderCard(sermons[0])] + Cards(sermons[1..])
  }

  /** The list: its cards, and whether the empty-state notice shows. */
  datatype ListView = ListView(cards: seq<Card>, emptyNotice: bool)

  function RenderList(sermons: seq<Sermon>): (v: ListView)
    ensures v.cards == Cards(sermons)
    ensures v.emptyNotice <==> |v.cards| == 0
    ensures v.emptyNotice <==> |sermons| == 0
  {
    ListView(Cards(sermons), |sermons| == 0)
  }
}
