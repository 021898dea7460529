/** One row of the stock table: the Low/OK status cell and the role-gated Edit button. */
module StockRow {
  import opened Common

  /** The status cell's text. */
  function StatusLabel(stock: StockItem): (text: string)
    ensures text == "Low" <==> IsLow(stock)
    ensures text == "OK" <==> !IsLow(stock)
  {
    if stock.quantity <= stock.threshold then "Low" else "OK"
  }

  /** The status cell's colour class. */
  function StatusClass(stock: StockItem): (cls: string)
    ensures cls == "text-red-500" <==> IsLow(stock)
    ensures cls == "text-green-600" <==> !IsLow(stock)
  {
    if stock.quantity <= stock.threshold then "text-red-500" else "text-green-600"
  }

  datatype RowView = RowView(
    drinkName: string,
    size: string,
    category: string,
    quantity: int,
    location: string,
    statusLabel: string,
    statusClass: string,
    updatedAt: int,
    editButton: bool)

  function Row(stock: StockItem, user: Option<AuthUser>): RowView {
    RowView(stock.drink.name, stock.drink.size, stock.drink.category, stock.quantity,
            stock.storageLocation.name, StatusLabel(stock), StatusClass(stock),
            stock.updatedAt, IsManagerOrAdmin(user))
  }

  /** Clicking the row's Edit button: there is a button to click only when it is shown, and
      it hands the parent this row's item. */
  function ClickEdit(stock: StockItem, user: Option<AuthUser>): (effects: seq<Effect>)
    ensures |effects| <= 1
    ensures effects != [] <==> Row(stock, user).editButton
    ensures forall e :: e in effects ==> e == CallOnEditClick(stock)
  {
    if IsManagerOrAdmin(user) then [CallOnEditClick(stock)] else []
  }

  /** The colour and the label always agree. */
  lemma StyleMatchesLabel(stock: StockItem)
    ensures StatusClass(stock) == "text-red-500" <==> StatusLabel(stock) == "Low"
    ensures StatusClass(stock) == "text-green-600" <==> StatusLabel(stock) == "OK"
  {
  }

  /** The Edit button is shown exactly to a signed-in manager or admin, so a runner (staff)
      never sees it. */
  lemma EditGate(stock: StockItem, user: Option<AuthUser>)
    ensures Row(stock, user).editButton <==>
              user.Some? && (user.value.role == Manager || user.value.role == Admin)
    ensures user.Some? && user.value.role == Staff ==> ClickEdit(stock, user) == []
  {
  }
}
