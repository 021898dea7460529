/** Shapes shared by the pages and components: roles, the auth context as seen by its
    consumers, the stock item record, the outcomes of awaited HTTP calls and the trace of
    effects (toasts, navigation, callbacks, requests) that handlers leave behind. */
module Common {
  import opened JsNumber

  datatype Option<+T> = None | Some(value: T)

  /** The three roles a user can hold. */
  datatype Role = Staff | Manager | Admin

  /** The wire spelling of a role. */
  function RoleName(r: Role): string {
    match r
    case Staff => "staff"
    case Manager => "manager"
    case Admin => "admin"
  }

  /** The signed-in user as `useAuth()` hands it out; the core reads only its role. */
  datatype AuthUser = AuthUser(role: Role)

  /** What `useAuth()` returns to its consumers: the user, if any, and the loading flag. */
  datatype AuthState = AuthState(user: Option<AuthUser>, loading: bool)

  /** The role check the stock form, the stock row and the navigation all make:
      a signed-in user whose role is manager or admin. */
  predicate IsManagerOrAdmin(user: Option<AuthUser>) {
    user.Some? && (user.value.role == Manager || user.value.role == Admin)
  }

  /** A stock item as the `/stocks` endpoint returns it; `updatedAt` is the timestamp the
      date string denotes. */
  datatype DrinkInfo = DrinkInfo(name: string, size: string, category: string)
  datatype LocationInfo = LocationInfo(name: string, kind: string)
  datatype StockItem = StockItem(
    id: int,
    drinkId: int,
    storageLocationId: int,
    quantity: int,
    threshold: int,
    updatedAt: int,
    drink: DrinkInfo,
    storageLocation: LocationInfo)

  /** The status rule: a stock item is low when its quantity is at or below its threshold. */
  predicate IsLow(stock: StockItem) {
    stock.quantity <= stock.threshold
  }

  /** What an awaited call can throw: an axios error (which is also an `Error`), with the
      `error` field of the response body if there was one; another `Error`; or a thrown
      value that is not an `Error` at all. */
  datatype Failure =
    | AxiosFailure(responseError: Option<string>, message: string)
    | OtherError(message: string)
    | NotAnError

  /** The result of one awaited HTTP call. */
  datatype Outcome<+T> = Ok(data: T) | Fail(failure: Failure)

  predicate IsErrorInstance(f: Failure) {
    f.AxiosFailure? || f.OtherError?
  }

  /** `err instanceof Error ? err.message : fallback` */
  function MessageIfError(f: Failure, fallback: string): (m: string)
    ensures IsErrorInstance(f) ==> m == f.message
    ensures !IsErrorInstance(f) ==> m == fallback
  {
    match f
    case AxiosFailure(_, message) => message
    case OtherError(message) => message
    case NotAnError => fallback
  }

  /** `err instanceof Error ? (err.message || fallback) : fallback`: never blank when the
      fallback is not. */
  function NonEmptyMessageIfError(f: Failure, fallback: string): (m: string)
    ensures m == fallback || (IsErrorInstance(f) && m == f.message)
    ensures fallback != "" ==> m != ""
    ensures IsErrorInstance(f) && f.message != "" ==> m == f.message
  {
    var m := MessageIfError(f, fallback);
    if m != "" then m else fallback
  }

  datatype HttpMethod = Post | Put | Delete

  datatype RequestBody =
    | NoBody
    | RoleBody(role: Role)
    | StockBody(drinkId: Number, storageLocationId: Number, quantity: Number)

  /** Observable effects, in the order a handler produces them. */
  datatype Effect =
    | Request(verb: HttpMethod, path: string, body: RequestBody)  // a mutating API call
    | ToastSuccess(text: string)
    | ToastError(text: string)
    | Navigate(to: string)        // `navigate(to)` from `useNavigate`
    | FollowLink(to: string)      // a `<Link>` navigating after its onClick handler
    | CallLogout                  // the auth context's `logout()`
    | CallOnSave(threshold: Number)
    | CallOnClose
    | CallOnSubmitSuccess
    | CallOnEditClick(stock: StockItem)
}
