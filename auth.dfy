/**
 * Resolution of the signed-in account to its church membership
 * (`fetchChurchUser` of the auth hook). The single-row lookup of the
 * membership table is an external call; its outcome is an input here.
 */
module AuthHook {
  import opened Wrappers
  import opened Js
  import opened Records

  /** The error object the query builder returns next to `data`. */
  datatype QueryError = QueryError(code: string, message: string)

  /**
   * How the membership lookup ends: it returns `{ data, error }` (either may
   * be absent), or it throws an error whose message may be absent.
   */
  datatype LookupOutcome =
    | Returned(error: Option<QueryError>, data: Option<ChurchUser>)
    | Threw(message: Option<string>)

  /** What the membership query selects: the membership row alone (`select('*')`), or the row with its church embedded. */
  datatype Selection = RowOnly | RowWithChurch

  /** The row a successful query with selection `sel` returns for membership `row` of church `church`. */
  function Delivered(sel: Selection, row: ChurchUser, church: Church): (d: ChurchUser)
    ensures d.church.Some? <==> sel == RowWithChurch
    ensures d.church.Some? ==> d.church.value == church
    ensures d.id == row.id && d.church_id == row.church_id && d.user_id == row.user_id
    ensures d.role == row.role && d.created_at == row.created_at
  {
    row.(church := if sel == RowWithChurch then Some(church) else None)
  }

  /** The hook's three pieces of state that a lookup writes. */
  datatype AuthState = AuthState(churchUser: Option<ChurchUser>, fetchError: Option<string>, loading: bool)

  const NotConfiguredMessage := "Supabase configuration missing"
  /** The backend's error code for "the single-row query matched no rows". */
  const NoRowsCode := "PGRST116"
  const NoChurchMessage := "No church record found for this account"
  const UnexpectedMessage := "Unexpected error"

  /** The state rendered while the lookup is awaited: the error has been cleared, nothing else changed. */
  function Awaiting(s: AuthState): (r: AuthState)
    ensures r.fetchError.None?
    ensures r.churchUser == s.churchUser && r.loading == s.loading
  {
    s.(fetchError := None)
  }

  /** The state a configured lookup leaves, whatever the state before it. */
  function Settle(outcome: LookupOutcome): (r: AuthState)
    // The loading indicator never hangs, and exactly one of membership and error is set.
    ensures !r.loading
    ensures r.churchUser.Some? <==> r.fetchError.None?
    // A returned error: the no-rows code has its own message, any other code shows the backend's message.
    ensures outcome.Returned? && outcome.error.Some? && outcome.error.value.code == NoRowsCode ==>
              r.churchUser.None? && r.fetchError == Some(NoChurchMessage)
    ensures outcome.Returned? && outcome.error.Some? && outcome.error.value.code != NoRowsCode ==>
              r.churchUser.None? && r.fetchError == Some(outcome.error.value.message)
    // No error: no data is reported like no rows, data becomes the membership.
    ensures outcome.Returned? && outcome.error.None? && outcome.data.None? ==>
              r.churchUser.None? && r.fetchError == Some(NoChurchMessage)
    ensures outcome.Returned? && outcome.error.None? && outcome.data.Some? ==>
              r.churchUser == outcome.data && r.fetchError.None?
    // A thrown error shows its message, or a generic one when the message is empty or absent.
    ensures outcome.Threw? ==> r.churchUser.None? && r.fetchError == Some(OrElse(outcome.message, UnexpectedMessage))
    // The membership is set only from a returned row, and only when no error came with it.
    ensures r.churchUser.Some? ==> outcome == Returned(None, r.churchUser)
  {
    match outcome
    case Returned(Some(e), _) =>
      AuthState(None, Some(if e.code == NoRowsCode then NoChurchMessage else e.message), false)
    case Returned(None, None) => AuthState(None, Some(NoChurchMessage), false)
    case Returned(None, Some(d)) => AuthState(Some(d), None, false)
    case Threw(m) => AuthState(None, Some(OrElse(m, UnexpectedMessage)), false)
  }

  /** The whole of `fetchChurchUser`: without a configured backend only the error and the loading flag change. */
  function Fetched(s: AuthState, configured: bool, outcome: LookupOutcome): (r: AuthState)
    ensures !r.loading
    ensures !configured ==> r == AuthState(s.churchUser, Some(NotConfiguredMessage), false)
    ensures configured ==> r == Settle(outcome)
    ensures configured ==> (r.churchUser.Some? <==> r.fetchError.None?)
  {
    if configured then Settle(outcome) else s.(fetchError := Some(NotConfiguredMessage), loading := false)
  }

  /** The hook's state, updated in place by `fetchChurchUser`. */
  class AuthStore {
    /** Whether the backend's address and key are configured. */
    const configured: bool
    var churchUser: Option<ChurchUser>
    var fetchError: Option<string>
    var loading: bool

    function State(): AuthState
      reads this
    {
      AuthState(churchUser, fetchError, loading)
    }

    /** The hook's initial state is not part of this model, so it is a parameter. */
    constructor (configured: bool, initial: AuthState)
      ensures this.configured == configured && State() == initial
    {
      this.configured := configured;
      churchUser, fetchError, loading := initial.churchUser, initial.fetchError, initial.loading;
    }

    /**
     * Resolves the membership of account `userId`, the lookup ending with
     * `outcome`. Returns the id actually looked up (none when the backend is
     * not configured) and the state rendered while the lookup was awaited.
     */
    method FetchChurchUser(userId: string, outcome: LookupOutcome) returns (lookedUp: Option<string>, whileAwaiting: AuthState)
      modifies this
      ensures lookedUp == (if configured then Some(userId) else None)
      ensures configured ==> whileAwaiting == Awaiting(old(State()))
      ensures State() == Fetched(old(State()), configured, outcome)
    {
      if !configured {
        fetchError := Some(NotConfiguredMessage);
        loading := false;
        lookedUp, whileAwaiting := None, State();
        return;
      }
      fetchError := None;
      lookedUp, whileAwaiting := Some(userId), State();
      match outcome {
        case Returned(error, data) =>
          if error.Some? {
            if error.value.code == NoRowsCode {
              fetchError := Some(NoChurchMessage);
            } else {
              fetchError := Some(error.value.message);
            }
            churchUser := None;
          } else if data.None? {
            fetchError := Some(NoChurchMessage);
            churchUser := None;
          } else {
            fetchError := None;
            churchUser := data;
          }
        case Threw(message) =>
          fetchError := Some(OrElse(message, UnexpectedMessage));
          churchUser := None;
      }
      loading := false;
    }
  }
}
