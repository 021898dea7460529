/** The drinks list: loaded once on mount, and filtered after a successful delete. */
module AllDrinks {
  import opened Common
  import opened JsNumber
  import opened Lists

  datatype Drink = Drink(id: int, name: string, size: string, category: string)

  function KeepsUnless(drinkId: int): Drink -> bool {
    (drink: Drink) => drink.id != drinkId
  }

  /** `drinks.filter(drink => drink.id !== id)` */
  function WithoutDrink(drinks: seq<Drink>, drinkId: int): seq<Drink> {
    Filter(drinks, KeepsUnless(drinkId))
  }

  /** After a delete every drink with that id is gone, the rest are kept as often as before,
      and in their order. */
  lemma DeleteRemovesOnlyTarget(drinks: seq<Drink>, drinkId: int, before: seq<Drink>, after: seq<Drink>)
    requires drinks == before + after
    ensures forall d :: d in WithoutDrink(drinks, drinkId) ==> d.id != drinkId
    ensures forall d :: multiset(WithoutDrink(drinks, drinkId))[d] == if d.id == drinkId then 0 else multiset(drinks)[d]
    ensures WithoutDrink(drinks, drinkId) == WithoutDrink(before, drinkId) + WithoutDrink(after, drinkId)
  {
    forall d ensures multiset(WithoutDrink(drinks, drinkId))[d] == if d.id == drinkId then 0 else multiset(drinks)[d] {
      FilterCount(drinks, KeepsUnless(drinkId), d);
    }
    FilterConcat(before, after, KeepsUnless(drinkId));
  }

  /** Deleting the same id twice is deleting it once. */
  lemma DeleteIdempotent(drinks: seq<Drink>, drinkId: int)
    ensures WithoutDrink(WithoutDrink(drinks, drinkId), drinkId) == WithoutDrink(drinks, drinkId)
  {
    FilterIdempotent(drinks, KeepsUnless(drinkId));
  }

  const FetchFallback := "Error fetching drinks!"
  const DeletedMessage := "Drink deleted successfully!"
  const DeleteFallback := "Error deleting drink!"

  function DeletePath(drinkId: int): string {
    "/drinks/" + IntToString(drinkId)
  }

  class AllDrinksPage {
    var drinks: seq<Drink>
    var trace: seq<Effect>

    constructor ()
      ensures drinks == [] && trace == []
    {
      drinks := [];
      trace := [];
    }

    /** The mount effect once `GET /drinks` settles: the list on success; on failure the list
        stays and the error's message (blank or not) is toasted. */
    method ReceiveDrinks(response: Outcome<seq<Drink>>)
      modifies this
      ensures response.Ok? ==> drinks == response.data && trace == old(trace)
      ensures response.Fail? ==>
                drinks == old(drinks) && trace == old(trace) + [ToastError(MessageIfError(response.failure, FetchFallback))]
    {
      match response
      case Ok(list) =>
        drinks := list;
      case Fail(f) =>
        trace := trace + [ToastError(MessageIfError(f, FetchFallback))];
    }

    /** `handleDelete`: the DELETE, and only once it succeeds the drink is filtered out. */
    method DeleteDrink(drinkId: int, response: Outcome<()>)
      modifies this
      ensures response.Ok? ==>
                && drinks == WithoutDrink(old(drinks), drinkId)
                && trace == old(trace) + [Request(Delete, DeletePath(drinkId), NoBody), ToastSuccess(DeletedMessage)]
      ensures response.Fail? ==>
                && drinks == old(drinks)
                && trace == old(trace) + [Request(Delete, DeletePath(drinkId), NoBody),
                                          ToastError(MessageIfError(response.failure, DeleteFallback))]
    {
      trace := trace + [Request(Delete, DeletePath(drinkId), NoBody)];
      match response
      case Ok(_) =>
        drinks := WithoutDrink(drinks, drinkId);
        trace := trace + [ToastSuccess(DeletedMessage)];
      case Fail(f) =>
        trace := trace + [ToastError(MessageIfError(f, DeleteFallback))];
    }
  }
}
