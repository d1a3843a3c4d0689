/**
 * The "extracted data" card of the email view: amount, due date, invoice
 * number, meeting time and links found in the message. Each row is hidden when
 * its value is falsy; the whole card is hidden when every field is null or an
 * empty list. Date formatting (`toLocaleDateString`/`toLocaleString` in UTC,
 * Brazilian format) is a parameter.
 */
module EntitiesCard {
  import opened Wrappers

  datatype Amount = Amount(raw: string, currency: string, value: real)

  /** The extracted entities; `None` is a JSON null (or an absent member). */
  datatype EntitiesData = EntitiesData(
    dueDate: Option<string>,
    amount: Option<Amount>,
    invoiceNumber: Option<string>,
    urls: Option<seq<string>>,
    meetingDatetime: Option<string>)

  datatype RowValue = Text(text: string) | Links(urls: seq<string>)

  datatype Row = Row(title: string, value: RowValue)

  datatype EntitiesView = Skeleton | Hidden | Card(rows: seq<Row>)

  /** `v === null || (Array.isArray(v) && v.length === 0)` for every member. */
  predicate AllEmpty(e: EntitiesData) {
    && e.dueDate.None? && e.amount.None? && e.invoiceNumber.None? && e.meetingDatetime.None?
    && (e.urls.None? || e.urls.value == [])
  }

  /** A React node value is falsy when absent or an empty string. */
  predicate ValueTruthy(v: Option<RowValue>) {
    v.Some? && v.value != Text("")
  }

  /** `EntityItem`: no row for a falsy value. */
  function Item(title: string, value: Option<RowValue>): (r: seq<Row>)
    ensures r == [] <==> !ValueTruthy(value)
    ensures r != [] ==> r == [Row(title, value.value)]
  {
    if !ValueTruthy(value) then [] else [Row(title, value.value)]
  }

  /** A string member that is present and not empty. */
  predicate Present(s: Option<string>) {
    s.Some? && s.value != ""
  }

  function Rows(e: EntitiesData, formatDate: string -> string, formatDateTime: string -> string): seq<Row> {
    Item("Valor", if e.amount.Some? then Some(Text(e.amount.value.raw)) else None)
    + Item("Vencimento", if Present(e.dueDate) then Some(Text(formatDate(e.dueDate.value))) else None)
    + Item("Fatura / Pedido", if e.invoiceNumber.Some? then Some(Text(e.invoiceNumber.value)) else None)
    + Item("Reunião", if Present(e.meetingDatetime) then Some(Text(formatDateTime(e.meetingDatetime.value))) else None)
    + Item("Links Importantes", if e.urls.Some? && |e.urls.value| > 0 then Some(Links(e.urls.value)) else None)
  }

  function Render(entities: Option<EntitiesData>, isLoading: bool,
                  formatDate: string -> string, formatDateTime: string -> string): (r: EntitiesView)
    ensures isLoading <==> r.Skeleton?
    ensures r.Hidden? <==> !isLoading && (entities.None? || AllEmpty(entities.value))
    ensures r.Card? ==> r.rows == Rows(entities.value, formatDate, formatDateTime)
  {
    if isLoading then Skeleton
    else if entities.None? || AllEmpty(entities.value) then Hidden
    else Card(Rows(entities.value, formatDate, formatDateTime))
  }

  /** An empty invoice number hides its row, but the card itself is still shown. */
  lemma EmptyInvoiceHidesRowNotCard(e: EntitiesData, formatDate: string -> string, formatDateTime: string -> string)
    requires e.invoiceNumber == Some("")
    ensures Render(Some(e), false, formatDate, formatDateTime).Card?
    ensures forall row :: row in Render(Some(e), false, formatDate, formatDateTime).rows ==> row.title != "Fatura / Pedido"
  {
  }

  /** The links row lists the URLs exactly as given: same order, duplicates kept. */
  lemma LinksAsGiven(e: EntitiesData, formatDate: string -> string, formatDateTime: string -> string)
    requires e.urls.Some? && |e.urls.value| > 0
    ensures var rows := Rows(e, formatDate, formatDateTime);
            |rows| > 0 && rows[|rows| - 1] == Row("Links Importantes", Links(e.urls.value))
  {
  }
}
