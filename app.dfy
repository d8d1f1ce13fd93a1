/**
 * The application shell: the two route guards, the route table, and the
 * home page with its sermon intake form, which posts one request to the
 * content-generation webhook.
 */
module App {
  import opened Wrappers
  import opened Js
  import opened Records
  import AuthHook
  import NotionEmbed

  /** A signed-in account of the auth provider; only its metadata is consulted. */
  datatype User = User(id: string, email: Option<string>, user_metadata: map<string, JsValue>)

  /** `user?.user_metadata?.is_admin` is truthy. */
  predicate IsAdmin(user: Option<User>)
    // No account, no flag, or a falsy flag (`false`, `0`, `""`, `null`) is not an admin.
    ensures IsAdmin(user) ==> user.Some? && "is_admin" in user.value.user_metadata
    ensures user.Some? && "is_admin" in user.value.user_metadata ==>
              (IsAdmin(user) <==> Truthy(user.value.user_metadata["is_admin"]))
  {
    user.Some? && "is_admin" in user.value.user_metadata && Truthy(user.value.user_metadata["is_admin"])
  }

  /** What a guard renders: a progress text, an error text, its children, or a redirect. */
  datatype GuardView = FetchingChurchUser | AccountError(message: string) | Admit | Redirect(to: string)

  /** The `Protected` guard: loading first, then a (non-empty) fetch error, then the presence of an account. */
  function Protected(loading: bool, fetchError: Option<string>, user: Option<User>): (v: GuardView)
    ensures v == FetchingChurchUser <==> loading
    ensures v.AccountError? <==> !loading && Present(fetchError)
    ensures v.AccountError? ==> v.message == fetchError.value
    ensures v == Admit <==> !loading && !Present(fetchError) && user.Some?
    ensures v.Redirect? <==> !loading && !Present(fetchError) && user.None?
    ensures v.Redirect? ==> v.to == "/login"
  {
    if loading then FetchingChurchUser
    else if Present(fetchError) then AccountError(fetchError.value)
    else if user.Some? then Admit
    else Redirect("/login")
  }

  /** The `AdminRoute` guard: only an account flagged as admin gets through; everyone else goes home. */
  function AdminRoute(user: Option<User>): (v: GuardView)
    ensures v == Admit <==> IsAdmin(user)
    ensures v != Admit ==> v == Redirect("/")
  {
    if IsAdmin(user) then Admit else Redirect("/")
  }

  /** What the application shows for a path. */
  datatype Screen =
    | LoginPage
    | FetchingScreen
    | AccountErrorScreen(message: string)
    | RedirectTo(path: string)
    | HomePage
    | AdminPortalPage

  /** A guard's view, with `inner` standing for its children. */
  function Guarded(v: GuardView, inner: Screen): (s: Screen)
    ensures v == Admit ==> s == inner
    ensures v == FetchingChurchUser ==> s == FetchingScreen
    ensures v.AccountError? ==> s == AccountErrorScreen(v.message)
    ensures v.Redirect? ==> s == RedirectTo(v.to)
  {
    match v
    case FetchingChurchUser => FetchingScreen
    case AccountError(m) => AccountErrorScreen(m)
    case Admit => inner
    case Redirect(p) => RedirectTo(p)
  }

  /** The route table: `/login` is open, `/admin` sits behind both guards, every other path behind `Protected`. */
  function Route(path: string, loading: bool, fetchError: Option<string>, user: Option<User>): (s: Screen)
    ensures path == "/login" ==> s == LoginPage
    ensures path != "/login" && loading ==> s == FetchingScreen
    ensures path != "/login" && !loading && Present(fetchError) ==> s == AccountErrorScreen(fetchError.value)
    ensures path != "/login" && !loading && !Present(fetchError) && user.None? ==> s == RedirectTo("/login")
    ensures s == AdminPortalPage <==> path == "/admin" && !loading && !Present(fetchError) && IsAdmin(user)
    ensures s == HomePage <==> path != "/login" && path != "/admin" && !loading && !Present(fetchError) && user.Some?
    ensures path == "/admin" && !loading && !Present(fetchError) && user.Some? && !IsAdmin(user) ==> s == RedirectTo("/")
  {
    if path == "/login" then LoginPage
    else if path == "/admin" then Guarded(Protected(loading, fetchError, user), Guarded(AdminRoute(user), AdminPortalPage))
    else Guarded(Protected(loading, fetchError, user), HomePage)
  }

  /** Once a configured membership lookup has settled, no protected path is stuck on the progress text. */
  lemma RouteAfterLookup(path: string, outcome: AuthHook.LookupOutcome, user: Option<User>)
    requires path != "/login"
    ensures var s := AuthHook.Settle(outcome);
      Route(path, s.loading, s.fetchError, user) != FetchingScreen
    ensures outcome.Returned? && outcome.error.None? && outcome.data.None? ==>
      var s := AuthHook.Settle(outcome);
      Route(path, s.loading, s.fetchError, user) == AccountErrorScreen(AuthHook.NoChurchMessage)
  {
  }

  /**
   * A returned lookup error with an empty message leaves an empty (falsy)
   * fetch error: `Protected` admits a signed-in account, and the home page
   * then finds no church.
   */
  lemma EmptyLookupErrorFallsThrough(code: string, data: Option<ChurchUser>, user: User, tab: Tab)
    requires code != AuthHook.NoRowsCode
    ensures var s := AuthHook.Settle(AuthHook.Returned(Some(AuthHook.QueryError(code, "")), data));
      Route("/", s.loading, s.fetchError, Some(user)) == HomePage &&
      HomeScreen(CurrentChurch(s.churchUser), Some(user), tab) == NoChurchAssigned
  {
  }

  /**
   * As written, the lookup selects the membership row alone, so even a
   * successful lookup carries no church: the home page shows only the
   * no-church notice, so the intake form is never shown, and the viewer
   * shows only its placeholder. Even a submission of the form would not be
   * sent.
   */
  lemma AsWrittenLookupFindsNoChurch(row: ChurchUser, church: Church, user: Option<User>, tab: Tab,
                                     form: IntakeForm, webhookUrl: Option<string>, timestamp: string)
    ensures var s := AuthHook.Settle(AuthHook.Returned(None, Some(AuthHook.Delivered(AuthHook.RowOnly, row, church))));
      && s.churchUser.Some? && s.fetchError.None?
      && HomeScreen(CurrentChurch(s.churchUser), user, tab) == NoChurchAssigned
      && NotionEmbed.Embed(s.churchUser) == NotionEmbed.Placeholder
      && IntakeRequest(form, webhookUrl, CurrentChurch(s.churchUser), timestamp).Err?
  {
  }

  /**
   * With the church embedded in the lookup's row, a successful lookup opens
   * the portal under the church's name, the viewer frames the church's page
   * when it has one, and the intake can send its request.
   */
  lemma JoinedLookupFindsChurch(row: ChurchUser, church: Church, user: Option<User>, tab: Tab,
                                form: IntakeForm, webhookUrl: Option<string>, timestamp: string)
    ensures var s := AuthHook.Settle(AuthHook.Returned(None, Some(AuthHook.Delivered(AuthHook.RowWithChurch, row, church))));
      && HomeScreen(CurrentChurch(s.churchUser), user, tab) == Portal(church.name, IsAdmin(user), tab == SermonsTab, tab == ContentTab)
      && (NotionEmbed.Embed(s.churchUser).Frame? <==> Present(church.notion_page_url))
      && (IntakeRequest(form, webhookUrl, CurrentChurch(s.churchUser), timestamp).Ok? <==> RequiredFilled(form) && Present(webhookUrl))
  {
  }

  /** The sermon intake form's four text fields. */
  datatype IntakeForm = IntakeForm(sermonUrl: string, sermonDate: string, speakerName: string, sermonTitle: string)

  const EmptyIntake := IntakeForm("", "", "", "")

  /** The fields of the intake form, for its `onChange` handlers. */
  datatype IntakeField = UrlField | DateField | SpeakerField | TitleField

  /** The value of one field of the form. */
  function FieldOf(f: IntakeForm, field: IntakeField): (r: string) {
    match field
    case UrlField => f.sermonUrl
    case DateField => f.sermonDate
    case SpeakerField => f.speakerName
    case TitleField => f.sermonTitle
  }

  /** The form with one field replaced and the other three kept. */
  function WithField(f: IntakeForm, field: IntakeField, value: string): (r: IntakeForm)
    ensures FieldOf(r, field) == value
    ensures forall other :: other != field ==> FieldOf(r, other) == FieldOf(f, other)
  {
    match field
    case UrlField => f.(sermonUrl := value)
    case DateField => f.(sermonDate := value)
    case SpeakerField => f.(speakerName := value)
    case TitleField => f.(sermonTitle := value)
  }

  /** The flat body posted to the webhook; `timestamp` is the submission time, read from the clock. */
  datatype IntakePayload = IntakePayload(
    churchId: string,
    churchName: string,
    sermonUrl: string,
    sermonDate: string,
    speakerName: string,
    sermonTitle: string,
    timestamp: string)

  /** The one request the intake sends. */
  datatype WebhookRequest = WebhookRequest(url: string, httpMethod: string, contentType: string, body: IntakePayload)

  /** How the webhook call ended: a response with its status, or a transport failure. */
  datatype WebhookResponse = Responded(status: int) | NetworkFailure

  /** `response.ok`: the status is in the 2xx range. */
  predicate Accepted(r: WebhookResponse)
    ensures Accepted(r) ==> r.Responded? && 200 <= r.status < 300
    ensures r.Responded? && 200 <= r.status < 300 ==> Accepted(r)
    ensures r.NetworkFailure? ==> !Accepted(r)
  {
    r.Responded? && 200 <= r.status <= 299
  }

  const FillInMessage := "Please fill in all required fields"
  const ConfigMissingMessage := "Configuration missing"
  const SubmittedMessage := "Your sermon has been submitted and your content will be available shortly!"
  const SubmitFailedMessage := "Failed to submit sermon. Please try again or contact support."

  /** URL, date and speaker are required; the title is not. */
  predicate RequiredFilled(f: IntakeForm)
    ensures RequiredFilled(f) <==> forall field :: field != TitleField ==> FieldOf(f, field) != ""
  {
    assert FieldOf(f, UrlField) == f.sermonUrl && FieldOf(f, DateField) == f.sermonDate && FieldOf(f, SpeakerField) == f.speakerName;
    f.sermonUrl != "" && f.sermonDate != "" && f.speakerName != ""
  }

  /**
   * The request a submission sends, or the alert that stops it: the
   * required fields are checked first, the configuration (webhook URL and
   * church) second, and the payload copies church and form unchanged.
   */
  function IntakeRequest(form: IntakeForm, webhookUrl: Option<string>, church: Option<Church>, timestamp: string): (r: Result<WebhookRequest, string>)
    ensures r == Err(FillInMessage) <==> !RequiredFilled(form)
    ensures r == Err(ConfigMissingMessage) <==> RequiredFilled(form) && !(Present(webhookUrl) && church.Some?)
    ensures r.Ok? <==> RequiredFilled(form) && Present(webhookUrl) && church.Some?
    ensures r.Ok? ==>
      && r.value.url == webhookUrl.value
      && r.value.httpMethod == "POST"
      && r.value.contentType == "application/json"
      && r.value.body == IntakePayload(church.value.id, church.value.name, form.sermonUrl, form.sermonDate,
                                       form.speakerName, form.sermonTitle, timestamp)
  {
    if !RequiredFilled(form) then Err(FillInMessage)
    else if !Present(webhookUrl) || church.None? then Err(ConfigMissingMessage)
    else
      var c := church.value;
      Ok(WebhookRequest(webhookUrl.value, "POST", "application/json",
        IntakePayload(c.id, c.name, form.sermonUrl, form.sermonDate, form.speakerName, form.sermonTitle, timestamp)))
  }

  /** The church of the current membership: `churchUser?.church`. */
  function CurrentChurch(churchUser: Option<ChurchUser>): (c: Option<Church>)
    ensures c.Some? <==> churchUser.Some? && churchUser.value.church.Some?
    ensures c.Some? ==> c == churchUser.value.church
  {
    if churchUser.Some? then churchUser.value.church else None
  }

  /** The home page's two tabs. */
  datatype Tab = SermonsTab | ContentTab

  /** What the home page shows. */
  datatype HomeView =
    | NoChurchAssigned
    | Portal(churchName: string, adminLink: bool, intakeShown: bool, contentShown: bool)

  /** The home page: without a church only the notice; otherwise the church's name, the admin link for admins, and the active tab's section. */
  function HomeScreen(church: Option<Church>, user: Option<User>, tab: Tab): (v: HomeView)
    ensures v == NoChurchAssigned <==> church.None?
    ensures v.Portal? ==> v.churchName == church.value.name
    ensures v.Portal? ==> (v.adminLink <==> IsAdmin(user))
    ensures v.Portal? ==> (v.intakeShown <==> tab == SermonsTab) && (v.contentShown <==> tab == ContentTab)
    ensures v.Portal? ==> v.intakeShown != v.contentShown
  {
    if church.None? then NoChurchAssigned
    else Portal(church.value.name, IsAdmin(user), tab == SermonsTab, tab == ContentTab)
  }

  /** The home page's state: the active tab and the intake form. */
  class Home {
    var activeTab: Tab
    var formData: IntakeForm

    constructor ()
      ensures activeTab == SermonsTab && formData == EmptyIntake
    {
      activeTab := SermonsTab;
      formData := EmptyIntake;
    }

    /** A tab button. */
    method SelectTab(tab: Tab)
      modifies this`activeTab
      ensures activeTab == tab
    {
      activeTab := tab;
    }

    /** An input's `onChange`. */
    method EditField(field: IntakeField, value: string)
      modifies this`formData
      ensures formData == WithField(old(formData), field, value)
    {
      formData := WithField(formData, field, value);
    }

    /**
     * Submits the intake form. Returns the request sent (none if a check
     * stopped it) and the alert shown. Only an accepted response clears the
     * form.
     */
    method HandleSubmit(webhookUrl: Option<string>, church: Option<Church>, timestamp: string, response: WebhookResponse)
      returns (sent: Option<WebhookRequest>, alert: string)
      modifies this`formData
      ensures var r := IntakeRequest(old(formData), webhookUrl, church, timestamp);
        && (sent.Some? <==> r.Ok?)
        && (sent.Some? ==> sent.value == r.value)
        && (r.Err? ==> alert == r.error)
        && (r.Ok? ==> alert == if Accepted(response) then SubmittedMessage else SubmitFailedMessage)
      ensures formData == if sent.Some? && Accepted(response) then EmptyIntake else old(formData)
    {
      if formData.sermonUrl == "" || formData.sermonDate == "" || formData.speakerName == "" {
        return None, FillInMessage;
      }
      if !Present(webhookUrl) || church.None? {
        return None, ConfigMissingMessage;
      }
      var payload := IntakePayload(church.value.id, church.value.name, formData.sermonUrl, formData.sermonDate,
                                   formData.speakerName, formData.sermonTitle, timestamp);
      sent := Some(WebhookRequest(webhookUrl.value, "POST", "application/json", payload));
      if Accepted(response) {
        alert := SubmittedMessage;
        formData := EmptyIntake;
      } else {
        alert := SubmitFailedMessage;
      }
    }
  }
}
