/** The stock in/out form: the role gate, the options loaded on mount, the controlled fields,
    and the submit handler with its success reset and its error-message fallback. */
module StockForm {
  import opened Common
  import opened JsNumber

  /** The `action` prop. */
  datatype StockAction = StockIn | StockOut

  function ActionPath(action: StockAction): string {
    match action
    case StockIn => "/stocks/in"
    case StockOut => "/stocks/out"
  }

  datatype DrinkOption = DrinkOption(id: int, name: string, size: string)
  datatype LocationOption = LocationOption(id: int, name: string, kind: string)

  /** An `<option>`: the value the select reports when it is chosen, and its text. */
  datatype Choice = Choice(value: string, text: string)

  function DrinkChoices(drinks: seq<DrinkOption>): seq<Choice> {
    [Choice("", "Select Drink")]
      + seq(|drinks|, i requires 0 <= i < |drinks| =>
              Choice(IntToString(drinks[i].id), drinks[i].name + " (" + drinks[i].size + ")"))
  }

  function LocationChoices(locations: seq<LocationOption>): seq<Choice> {
    [Choice("", "Select Location")]
      + seq(|locations|, i requires 0 <= i < |locations| =>
              Choice(IntToString(locations[i].id), locations[i].name + " (" + locations[i].kind + ")"))
  }

  /** The POST body: each field passed through `Number`. */
  function Payload(drinkId: string, storageLocationId: string, quantity: string): RequestBody {
    StockBody(ToNumber(drinkId), ToNumber(storageLocationId), ToNumber(quantity))
  }

  /** Choosing the i-th drink and the j-th location from the selects and typing a whole
      quantity posts exactly those ids and that quantity. */
  lemma ChosenOptionsArePosted(drinks: seq<DrinkOption>, locations: seq<LocationOption>, i: nat, j: nat, q: int)
    requires i < |drinks| && j < |locations|
    ensures Payload(DrinkChoices(drinks)[i + 1].value, LocationChoices(locations)[j + 1].value, IntToString(q))
              == StockBody(Int(drinks[i].id), Int(locations[j].id), Int(q))
  {
    NumberOfIntToString(drinks[i].id);
    NumberOfIntToString(locations[j].id);
    NumberOfIntToString(q);
  }

  /** The placeholder options and an empty quantity post zeros: `Number('')` is 0. */
  lemma EmptyFieldsPostZeros()
    ensures Payload("", "", "") == StockBody(Int(0), Int(0), Int(0))
  {
  }

  const SuccessToast := "Stock updated successfully!"
  const FailureToast := "Failed to update stock."
  const AxiosFallback := "Stock update failed"
  const UnexpectedError := "An unexpected error occurred"

  /** The inline error after a failed submit: for an axios error the server's `error` field,
      else the error's message, else a fixed text; for anything else another fixed text. */
  function SubmitErrorMessage(f: Failure): (message: string)
    ensures message != ""
    ensures f.AxiosFailure? && f.responseError.Some? && f.responseError.value != "" ==>
              message == f.responseError.value
    ensures f.AxiosFailure? && !(f.responseError.Some? && f.responseError.value != "") ==>
              message == if f.message != "" then f.message else AxiosFallback
    ensures !f.AxiosFailure? ==> message == UnexpectedError
  {
    match f
    case AxiosFailure(server, text) =>
      if server.Some? && server.value != "" then server.value
      else if text != "" then text
      else AxiosFallback
    case _ => UnexpectedError
  }

  /** What follows a successful submit: the caller's callback when one was given, otherwise
      navigation to the stock list; exactly one of the two. */
  function AfterSuccess(hasOnSubmitSuccess: bool): (effects: seq<Effect>)
    ensures |effects| == 1
    ensures effects[0] == CallOnSubmitSuccess <==> hasOnSubmitSuccess
    ensures effects[0] == Navigate("/stocks") <==> !hasOnSubmitSuccess
  {
    if hasOnSubmitSuccess then [CallOnSubmitSuccess] else [Navigate("/stocks")]
  }

  datatype Screen =
    | PermissionDenied
    | LoadingOptions
    | Form(title: string, drinkChoices: seq<Choice>, locationChoices: seq<Choice>,
           drinkId: string, storageLocationId: string, quantity: string, errorText: Option<string>)

  class StockFormState {
    const action: StockAction
    const hasOnSubmitSuccess: bool
    var drinks: seq<DrinkOption>
    var locations: seq<LocationOption>
    var drinkId: string
    var storageLocationId: string
    var quantity: string
    var error: string
    var loading: bool
    var trace: seq<Effect>

    constructor (action: StockAction, hasOnSubmitSuccess: bool)
      ensures this.action == action && this.hasOnSubmitSuccess == hasOnSubmitSuccess
      ensures drinks == [] && locations == []
      ensures drinkId == "" && storageLocationId == "" && quantity == ""
      ensures error == "" && loading && trace == []
    {
      this.action := action;
      this.hasOnSubmitSuccess := hasOnSubmitSuccess;
      drinks := [];
      locations := [];
      drinkId := "";
      storageLocationId := "";
      quantity := "";
      error := "";
      loading := true;
      trace := [];
    }

    /** The permission check comes before the loading check. */
    function View(user: Option<AuthUser>): (screen: Screen)
      reads this
      ensures !IsManagerOrAdmin(user) ==> screen == PermissionDenied
      ensures IsManagerOrAdmin(user) && loading ==> screen == LoadingOptions
      ensures IsManagerOrAdmin(user) && !loading ==>
                screen.Form? && screen.drinkChoices == DrinkChoices(drinks)
                && screen.locationChoices == LocationChoices(locations)
                && (screen.errorText.Some? <==> error != "")
    {
      if !(user.Some? && (user.value.role == Manager || user.value.role == Admin)) then PermissionDenied
      else if loading then LoadingOptions
      else Form(if action == StockIn then "Stock In Form" else "Stock Out Form",
                DrinkChoices(drinks), LocationChoices(locations),
                drinkId, storageLocationId, quantity,
                if error != "" then Some(error) else None)
    }

    /** The mount effect once both option fetches settle: both lists when both succeed,
        nothing when either fails; loading is over either way. */
    method ReceiveOptions(drinksResponse: Outcome<seq<DrinkOption>>, locationsResponse: Outcome<seq<LocationOption>>)
      modifies this`drinks, this`locations, this`loading
      ensures !loading
      ensures drinksResponse.Ok? && locationsResponse.Ok? ==>
                drinks == drinksResponse.data && locations == locationsResponse.data
      ensures !(drinksResponse.Ok? && locationsResponse.Ok?) ==>
                drinks == old(drinks) && locations == old(locations)
    {
      if drinksResponse.Ok? && locationsResponse.Ok? {
        drinks := drinksResponse.data;
        locations := locationsResponse.data;
      }
      loading := false;
    }

    method ChooseDrink(value: string)
      modifies this`drinkId
      ensures drinkId == value
    {
      drinkId := value;
    }

    method ChooseLocation(value: string)
      modifies this`storageLocationId
      ensures storageLocationId == value
    {
      storageLocationId := value;
    }

    method EnterQuantity(value: string)
      modifies this`quantity
      ensures quantity == value
    {
      quantity := value;
    }

    /** `handleSubmit`: POST the fields as numbers to the action's endpoint. On success a
        toast, all three fields cleared, then the callback or the redirect; the error line
        is left as it was. On failure a toast and the inline error; the fields stay. */
    method Submit(response: Outcome<()>)
      modifies this`drinkId, this`storageLocationId, this`quantity, this`error, this`trace
      ensures response.Ok? ==>
                && drinkId == "" && storageLocationId == "" && quantity == ""
                && error == old(error)
                && trace == old(trace)
                     + [Request(Post, ActionPath(action), Payload(old(drinkId), old(storageLocationId), old(quantity))),
                        ToastSuccess(SuccessToast)]
                     + AfterSuccess(hasOnSubmitSuccess)
      ensures response.Fail? ==>
                && drinkId == old(drinkId) && storageLocationId == old(storageLocationId)
                && quantity == old(quantity)
                && error == SubmitErrorMessage(response.failure)
                && trace == old(trace)
                     + [Request(Post, ActionPath(action), Payload(drinkId, storageLocationId, quantity)),
                        ToastError(FailureToast)]
    {
      trace := trace + [Request(Post, ActionPath(action), Payload(drinkId, storageLocationId, quantity))];
      match response
      case Ok(_) =>
        trace := trace + [ToastSuccess(SuccessToast)];
        drinkId := "";
        storageLocationId := "";
        quantity := "";
        trace := trace + AfterSuccess(hasOnSubmitSuccess);
      case Fail(f) =>
        trace := trace + [ToastError(FailureToast)];
        error := SubmitErrorMessage(f);
    }
  }
}
