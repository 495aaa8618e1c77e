/**
 * The Payments page controller: six filter inputs, the pagination record, the
 * request parameters of a list fetch and of the PDF export, how a fetch
 * result is reconciled, the Previous/Next buttons, and the table's derived
 * cells. Each user event is a step from one view state to the next together
 * with the requests the step sends; the page-number effect is an explicit
 * extra request appended whenever a step changes the page.
 */
module PaymentsPage {
  import opened Common
  import opened PaymentRecord

  // ---------------------------------------------------------------------------
  // Filters and pagination

  datatype FilterField = Search | FromDate | ToDate | MinAmount | MaxAmount | Status

  /**
   * The six filter inputs. Every one holds the input's text, `""` meaning
   * unset (the amount inputs hold text as well).
   */
  datatype Filters = Filters(
    search: string,
    fromDate: string,
    toDate: string,
    minAmount: string,
    maxAmount: string,
    status: string)
  {
    function Get(k: FilterField): string {
      match k
      case Search => search
      case FromDate => fromDate
      case ToDate => toDate
      case MinAmount => minAmount
      case MaxAmount => maxAmount
      case Status => status
    }

    /** The `onChange` of one input. */
    function Set(k: FilterField, v: string): (r: Filters)
      ensures r.Get(k) == v
      ensures forall j :: j != k ==> r.Get(j) == Get(j)
    {
      match k
      case Search => this.(search := v)
      case FromDate => this.(fromDate := v)
      case ToDate => this.(toDate := v)
      case MinAmount => this.(minAmount := v)
      case MaxAmount => this.(maxAmount := v)
      case Status => this.(status := v)
    }
  }

  const NoFilters := Filters("", "", "", "", "", "")

  datatype Pagination = Pagination(page: int, limit: int, total: int, totalPages: int)

  const InitialPagination := Pagination(1, 10, 0, 0)

  /** The page never leaves `1..max(totalPages, 1)`. */
  predicate PageInRange(pg: Pagination) {
    1 <= pg.page <= Max(pg.totalPages, 1)
  }

  // ---------------------------------------------------------------------------
  // Request parameters

  datatype ParamValue = Num(n: int) | Text(s: string)
  type Params = map<string, ParamValue>

  const PageKey := "page"
  const LimitKey := "limit"

  /** The query-parameter name of each filter. */
  function KeyName(k: FilterField): string {
    match k
    case Search => "search"
    case FromDate => "fromDate"
    case ToDate => "toDate"
    case MinAmount => "minAmount"
    case MaxAmount => "maxAmount"
    case Status => "status"
  }

  const FilterKeys: set<string> := {"search", "fromDate", "toDate", "minAmount", "maxAmount", "status"}

  /** `if (value) params[key] = value`. */
  function PutIfSet(m: Params, f: Filters, k: FilterField): Params {
    if f.Get(k) != "" then m[KeyName(k) := Text(f.Get(k))] else m
  }

  /** Adds the set filters to `m`, in the order the source tests them. */
  function PutFilters(m: Params, f: Filters): (r: Params)
    requires m.Keys !! FilterKeys
    ensures forall k :: KeyName(k) in r <==> f.Get(k) != ""
    ensures forall k :: KeyName(k) in r ==> r[KeyName(k)] == Text(f.Get(k))
    ensures forall key :: key in r ==> key in m || key in FilterKeys
    ensures forall key :: key in m ==> key in r && r[key] == m[key]
  {
    var m1 := PutIfSet(m, f, Search);
    var m2 := PutIfSet(m1, f, FromDate);
    var m3 := PutIfSet(m2, f, ToDate);
    var m4 := PutIfSet(m3, f, MinAmount);
    var m5 := PutIfSet(m4, f, MaxAmount);
    PutIfSet(m5, f, Status)
  }

  /**
   * The parameters of a list fetch, `fetchPayments(pageOverride, filtersOverride)`.
   * A missing or zero page override falls back to the current page; a missing
   * filter override falls back to the current inputs.
   */
  function ListParams(pg: Pagination, current: Filters, pageOverride: Option<int>, filtersOverride: Option<Filters>): (r: Params)
    ensures PageKey in r && LimitKey in r
    ensures r[LimitKey] == Num(pg.limit)
    ensures pageOverride.Some? && pageOverride.value != 0 ==> r[PageKey] == Num(pageOverride.value)
    ensures pageOverride.None? || pageOverride.value == 0 ==> r[PageKey] == Num(pg.page)
    ensures var f := filtersOverride.GetOr(current);
      forall k :: KeyName(k) in r <==> f.Get(k) != ""
    ensures var f := filtersOverride.GetOr(current);
      forall k :: KeyName(k) in r ==> r[KeyName(k)] == Text(f.Get(k))
    ensures forall key :: key in r ==> key == PageKey || key == LimitKey || key in FilterKeys
  {
    var page := if pageOverride.Some? && pageOverride.value != 0 then pageOverride.value else pg.page;
    var f := filtersOverride.GetOr(current);
    PutFilters(map[PageKey := Num(page), LimitKey := Num(pg.limit)], f)
  }

  /** The parameters of the PDF export: the set filters and nothing else. */
  function ExportParams(f: Filters): (r: Params)
    ensures PageKey !in r && LimitKey !in r
    ensures forall k :: KeyName(k) in r <==> f.Get(k) != ""
    ensures forall k :: KeyName(k) in r ==> r[KeyName(k)] == Text(f.Get(k))
    ensures r.Keys <= FilterKeys
  {
    PutFilters(map[], f)
  }

  /** A list request carries exactly the export's filters plus page and limit. */
  lemma ListIsExportPlusPaging(pg: Pagination, f: Filters)
    ensures ListParams(pg, f, None, None) - {PageKey, LimitKey} == ExportParams(f)
    ensures ListParams(pg, f, None, None) == ExportParams(f)[PageKey := Num(pg.page)][LimitKey := Num(pg.limit)]
  {
    var l := ListParams(pg, f, None, None);
    var e := ExportParams(f);
    forall key | key in FilterKeys
      ensures key in l - {PageKey, LimitKey} <==> key in e
      ensures key in e ==> l[key] == e[key]
    {
      var k :| KeyName(k) == key;
    }
    assert (l - {PageKey, LimitKey}).Keys == e.Keys;
  }

  // ---------------------------------------------------------------------------
  // View state and events

  /** The outcome of one list fetch. */
  datatype FetchOutcome = Fetched(payments: seq<Payment>, pagination: Pagination) | FetchFailed

  /** What the page holds between renders. */
  datatype ListView = ListView(payments: seq<Payment>, loading: bool, pagination: Pagination, filters: Filters)

  datatype Request = ListFetch(params: Params) | ExportFetch(params: Params)

  /** The state after an event, and the requests it sent, in order. */
  datatype Step = Step(view: ListView, requests: seq<Request>)

  const InitialView := ListView([], true, InitialPagination, NoFilters)

  /** `fetchPayments(...)` up to its request: the loading flag goes up. */
  function StartFetch(v: ListView, pageOverride: Option<int>, filtersOverride: Option<Filters>): Step {
    Step(v.(loading := true), [ListFetch(ListParams(v.pagination, v.filters, pageOverride, filtersOverride))])
  }

  /** `fetchPayments(...)` after its request settles. */
  function Reconcile(v: ListView, o: FetchOutcome): (r: ListView)
    ensures !r.loading
    ensures r.filters == v.filters
    ensures o.Fetched? ==> r.payments == o.payments && r.pagination == o.pagination
    ensures o.FetchFailed? ==> r.payments == v.payments && r.pagination == v.pagination
  {
    match o
    case Fetched(ps, pg) => v.(payments := ps, pagination := pg, loading := false)
    case FetchFailed => v.(loading := false)
  }

  /**
   * The effect keyed on `pagination.page`: when a step changed the page, the
   * render that follows fetches again with the new page and current inputs.
   */
  function WithPageEffect(before: ListView, st: Step): (r: Step)
    ensures before.pagination.page == st.view.pagination.page ==> r == st
    ensures before.pagination.page != st.view.pagination.page ==>
      && r.view == st.view.(loading := true)
      && r.requests == st.requests + [ListFetch(ListParams(st.view.pagination, st.view.filters, None, None))]
  {
    if before.pagination.page == st.view.pagination.page then st
    else
      var effect := StartFetch(st.view, None, None);
      Step(effect.view, st.requests + effect.requests)
  }

  /**
   * The mount render: the page starts loading on page 1 of 10 rows with no
   * filters, and the page effect sends one fetch carrying only page and limit.
   */
  function Mount(): (r: Step)
    ensures r.view.loading && r.view.payments == [] && r.view.filters == NoFilters
    ensures r.view.pagination == Pagination(1, 10, 0, 0)
    ensures PageInRange(r.view.pagination)
    ensures r.requests == [ListFetch(map[PageKey := Num(1), LimitKey := Num(10)])]
  {
    NoFiltersAddsNothing(map[PageKey := Num(1), LimitKey := Num(10)]);
    StartFetch(InitialView, None, None)
  }

  /** The `disabled` expressions of the two buttons. */
  predicate PreviousDisabled(pg: Pagination) { pg.page == 1 }
  predicate NextDisabled(pg: Pagination) { pg.page >= pg.totalPages }

  /** The bar under the table: the range line and whether each button is enabled. */
  datatype PagerBar = PagerBar(range: RangeLabel, previousEnabled: bool, nextEnabled: bool)

  /**
   * The bar as rendered. It is absent while loading and when there are no
   * records, because then a spinner or "No payments found" replaces the table.
   */
  function Pager(v: ListView): (r: Option<PagerBar>)
    ensures r.None? <==> v.loading || |v.payments| == 0
    ensures r.Some? ==> r.value.range == RangeText(v.pagination)
    ensures r.Some? ==> (r.value.previousEnabled <==> v.pagination.page != 1)
    ensures r.Some? ==> (r.value.nextEnabled <==> v.pagination.page < v.pagination.totalPages)
  {
    if v.loading || |v.payments| == 0 then None
    else Some(PagerBar(RangeText(v.pagination), !PreviousDisabled(v.pagination), !NextDisabled(v.pagination)))
  }

  /** A click on Previous or Next reaches its handler. */
  predicate PreviousClickable(v: ListView) { Pager(v).Some? && Pager(v).value.previousEnabled }
  predicate NextClickable(v: ListView) { Pager(v).Some? && Pager(v).value.nextEnabled }

  datatype ListEvent =
    | EditFilter(field: FilterField, value: string)
    | ApplyFilters
    | ClearFilters
    | PreviousPage
    | NextPage
    | FetchSettled(outcome: FetchOutcome)
    | ExportPdf

  /**
   * The handler of one event, before the page effect. Only a settled fetch
   * replaces records or anything of the pagination but the page; only the
   * inputs and Clear change the filters; only Apply, Clear and Export send a
   * request themselves.
   */
  function Handle(v: ListView, e: ListEvent): (r: Step)
    ensures !e.FetchSettled? ==> r.view.payments == v.payments
    ensures !e.FetchSettled? ==> r.view.pagination == v.pagination.(page := r.view.pagination.page)
    ensures !(e.EditFilter? || e.ClearFilters?) ==> r.view.filters == v.filters
    ensures e.EditFilter? || e.PreviousPage? || e.NextPage? || e.FetchSettled? ==> r.requests == []
    ensures e.ApplyFilters? || e.ClearFilters? ==>
      r.view.pagination.page == 1 && r.view.loading && |r.requests| == 1 && r.requests[0].ListFetch?
    ensures e.ExportPdf? ==> r.view == v && r.requests == [ExportFetch(ExportParams(v.filters))]
    ensures e.PreviousPage? || e.NextPage? ==> -1 <= r.view.pagination.page - v.pagination.page <= 1
    ensures e.PreviousPage? ==> r.view.pagination.page <= v.pagination.page
    ensures e.NextPage? ==> r.view.pagination.page >= v.pagination.page
  {
    match e
    case EditFilter(k, value) => Step(v.(filters := v.filters.Set(k, value)), [])
    case ApplyFilters =>
      StartFetch(v.(pagination := v.pagination.(page := 1)), Some(1), None)
    case ClearFilters =>
      StartFetch(v.(filters := NoFilters, pagination := v.pagination.(page := 1)), Some(1), Some(NoFilters))
    case PreviousPage =>
      if !PreviousClickable(v) then Step(v, [])
      else Step(v.(pagination := v.pagination.(page := v.pagination.page - 1)), [])
    case NextPage =>
      if !NextClickable(v) then Step(v, [])
      else Step(v.(pagination := v.pagination.(page := v.pagination.page + 1)), [])
    case FetchSettled(o) => Step(Reconcile(v, o), [])
    case ExportPdf => Step(v, [ExportFetch(ExportParams(v.filters))])
  }

  /** One event followed by the render it causes. */
  function Dispatch(v: ListView, e: ListEvent): Step {
    WithPageEffect(v, Handle(v, e))
  }

  function Run(v: ListView, events: seq<ListEvent>): ListView
    decreases |events|
  {
    if events == [] then v else Run(Dispatch(v, events[0]).view, events[1..])
  }

  // ---------------------------------------------------------------------------
  // Properties of the events

  /** Editing an input neither fetches nor moves the page; only that input changes. */
  lemma EditFilterOnlyBuffers(v: ListView, k: FilterField, value: string)
    ensures Dispatch(v, EditFilter(k, value)) == Step(v.(filters := v.filters.Set(k, value)), [])
  {
  }

  /**
   * An edit is not held back until Apply: the next request of any kind reads
   * the inputs as they stand, so a Next click or an export right after an
   * edit already carries the edited value.
   */
  lemma EditReachesNextRequests(v: ListView, k: FilterField, value: string)
    ensures var edited := Dispatch(v, EditFilter(k, value)).view;
      var r := Dispatch(edited, ExportPdf);
      && |r.requests| == 1
      && (value != "" ==> KeyName(k) in r.requests[0].params && r.requests[0].params[KeyName(k)] == Text(value))
      && (value == "" ==> KeyName(k) !in r.requests[0].params)
    ensures NextClickable(v) ==>
      var edited := Dispatch(v, EditFilter(k, value)).view;
      var r := Dispatch(edited, NextPage);
      && |r.requests| == 1
      && r.requests[0].params[PageKey] == Num(v.pagination.page + 1)
      && (value != "" ==> KeyName(k) in r.requests[0].params && r.requests[0].params[KeyName(k)] == Text(value))
      && (value == "" ==> KeyName(k) !in r.requests[0].params)
  {
  }

  /**
   * Apply filters goes to page 1, keeps limit, total and total pages, and
   * every request it causes is for page 1 with the current inputs: one
   * request on page 1, two identical ones (handler and effect) elsewhere.
   */
  lemma ApplyFiltersResetsPage(v: ListView)
    ensures var r := Dispatch(v, ApplyFilters);
      && r.view.pagination == v.pagination.(page := 1)
      && r.view.filters == v.filters
      && r.view.payments == v.payments
      && r.view.loading
    ensures var r := Dispatch(v, ApplyFilters);
      |r.requests| == (if v.pagination.page == 1 then 1 else 2)
    ensures var r := Dispatch(v, ApplyFilters);
      forall i :: 0 <= i < |r.requests| ==>
        r.requests[i] == ListFetch(ListParams(v.pagination.(page := 1), v.filters, None, None))
  {
  }

  /**
   * Clear filters empties all six inputs, goes to page 1, and every request
   * it causes carries only `page = 1` and the limit.
   */
  lemma ClearFiltersResets(v: ListView)
    ensures var r := Dispatch(v, ClearFilters);
      && r.view.filters == NoFilters
      && r.view.pagination == v.pagination.(page := 1)
      && r.view.loading
    ensures var r := Dispatch(v, ClearFilters);
      && |r.requests| >= 1
      && forall i :: 0 <= i < |r.requests| ==>
        r.requests[i] == ListFetch(map[PageKey := Num(1), LimitKey := Num(v.pagination.limit)])
  {
    var cleared := v.(filters := NoFilters, pagination := v.pagination.(page := 1));
    var paging := map[PageKey := Num(1), LimitKey := Num(v.pagination.limit)];
    NoFiltersAddsNothing(paging);
    assert ListParams(cleared.pagination, cleared.filters, Some(1), Some(NoFilters)) == paging;
    assert ListParams(cleared.pagination, cleared.filters, None, None) == paging;
  }

  /** With every input empty, no filter parameter is added. */
  lemma NoFiltersAddsNothing(m: Params)
    requires m.Keys !! FilterKeys
    ensures PutFilters(m, NoFilters) == m
  {
  }

  /**
   * Previous: disabled exactly on page 1 (and absent while the table is
   * hidden); otherwise one page back, with one fetch for that page and
   * nothing else changed.
   */
  lemma PreviousPageStep(v: ListView)
    ensures !PreviousClickable(v) ==> Dispatch(v, PreviousPage) == Step(v, [])
    ensures PreviousClickable(v) ==>
      var r := Dispatch(v, PreviousPage);
      && r.view == v.(pagination := v.pagination.(page := v.pagination.page - 1), loading := true)
      && r.requests == [ListFetch(ListParams(r.view.pagination, v.filters, None, None))]
  {
  }

  /**
   * Next: disabled exactly when the page has reached the total page count
   * (and absent while the table is hidden); otherwise one page forward, with
   * one fetch and nothing else changed.
   */
  lemma NextPageStep(v: ListView)
    ensures !NextClickable(v) ==> Dispatch(v, NextPage) == Step(v, [])
    ensures NextClickable(v) ==>
      var r := Dispatch(v, NextPage);
      && r.view == v.(pagination := v.pagination.(page := v.pagination.page + 1), loading := true)
      && r.requests == [ListFetch(ListParams(r.view.pagination, v.filters, None, None))]
  {
  }

  /**
   * A settled fetch: a failure changes nothing but `loading`; a success takes
   * records and pagination verbatim, and refetches only when the server
   * reports a different page.
   */
  lemma FetchSettledStep(v: ListView, o: FetchOutcome)
    ensures o.FetchFailed? ==> Dispatch(v, FetchSettled(o)) == Step(v.(loading := false), [])
    ensures o.Fetched? && o.pagination.page == v.pagination.page ==>
      Dispatch(v, FetchSettled(o)) == Step(ListView(o.payments, false, o.pagination, v.filters), [])
    ensures o.Fetched? && o.pagination.page != v.pagination.page ==>
      Dispatch(v, FetchSettled(o)) == Step(ListView(o.payments, true, o.pagination, v.filters),
                                       [ListFetch(ListParams(o.pagination, v.filters, None, None))])
  {
  }

  /** Exporting sends the set filters and leaves the page untouched. */
  lemma ExportLeavesState(v: ListView)
    ensures Dispatch(v, ExportPdf) == Step(v, [ExportFetch(ExportParams(v.filters))])
  {
  }

  /** Every server-reported pagination respects the page range. */
  predicate ServerPagesInRange(events: seq<ListEvent>) {
    forall i :: 0 <= i < |events| && events[i].FetchSettled? && events[i].outcome.Fetched? ==>
      PageInRange(events[i].outcome.pagination)
  }

  /** One event keeps the page in range, given the server keeps it in range. */
  lemma DispatchKeepsPageInRange(v: ListView, e: ListEvent)
    requires PageInRange(v.pagination)
    requires e.FetchSettled? && e.outcome.Fetched? ==> PageInRange(e.outcome.pagination)
    ensures PageInRange(Dispatch(v, e).view.pagination)
  {
  }

  /**
   * Starting in range, no sequence of clicks, edits, exports and fetches the
   * server answers in range ever takes the page below 1 or past the last page.
   */
  lemma {:induction false} RunKeepsPageInRange(v: ListView, events: seq<ListEvent>)
    requires PageInRange(v.pagination)
    requires ServerPagesInRange(events)
    ensures PageInRange(Run(v, events).pagination)
    decreases |events|
  {
    if events != [] {
      DispatchKeepsPageInRange(v, events[0]);
      assert ServerPagesInRange(events[1..]) by {
        forall i | 0 <= i < |events[1..]| && events[1..][i].FetchSettled? && events[1..][i].outcome.Fetched?
          ensures PageInRange(events[1..][i].outcome.pagination)
        {
          assert events[1..][i] == events[i + 1];
        }
      }
      RunKeepsPageInRange(Dispatch(v, events[0]).view, events[1..]);
    }
  }

  /** The page starts in range, so every run from mount stays in range. */
  lemma RunFromMountInRange(events: seq<ListEvent>)
    requires ServerPagesInRange(events)
    ensures PageInRange(Run(Mount().view, events).pagination)
  {
    RunKeepsPageInRange(Mount().view, events);
  }

  /** Page-only navigation never touches the filters. */
  lemma {:induction false} PagingKeepsFilters(v: ListView, events: seq<ListEvent>)
    requires forall i :: 0 <= i < |events| ==> events[i] == PreviousPage || events[i] == NextPage
    ensures Run(v, events).filters == v.filters
    decreases |events|
  {
    if events != [] {
      PagingKeepsFilters(Dispatch(v, events[0]).view, events[1..]);
    }
  }

  // ---------------------------------------------------------------------------
  // The "showing X to Y of Z" line

  datatype RangeLabel = RangeLabel(first: int, last: int, total: int)

  /**
   * "Showing first to last of total": the first row's 1-based index on this
   * page, and the last row's index capped at the total.
   */
  function RangeText(pg: Pagination): (r: RangeLabel)
    ensures r.total == pg.total
    ensures r.first == (pg.page - 1) * pg.limit + 1
    ensures r.last <= pg.total && r.last <= pg.page * pg.limit
    ensures r.last == pg.total || r.last == pg.page * pg.limit
    ensures pg.page >= 1 && pg.limit >= 0 ==> r.first >= 1
  {
    RangeLabel((pg.page - 1) * pg.limit + 1, Min(pg.page * pg.limit, pg.total), pg.total)
  }

  /**
   * When the page starts inside the result set, the line counts exactly the
   * records that page can hold: a full page, or the remainder on the last one.
   */
  lemma RangeCountsPageRows(pg: Pagination)
    requires pg.page >= 1 && pg.limit > 0
    requires (pg.page - 1) * pg.limit < pg.total
    ensures RangeText(pg).first <= RangeText(pg).last
    ensures RangeText(pg).last - RangeText(pg).first + 1 == Min(pg.limit, pg.total - (pg.page - 1) * pg.limit)
  {
    var before := (pg.page - 1) * pg.limit;
    assert pg.page * pg.limit == before + pg.limit;
  }

  // ---------------------------------------------------------------------------
  // Table cells

  /**
   * The Payment ID cell: the first 20 characters of the payment id when that
   * prefix is non-empty, else of the order id, else the placeholder.
   */
  function PaymentIdCell(p: Payment): (r: string)
    ensures Truthy(p.razorpayPaymentId) ==>
      r <= p.razorpayPaymentId.value && |r| == Min(IdCellWidth, |p.razorpayPaymentId.value|)
    ensures !Truthy(p.razorpayPaymentId) && Truthy(p.razorpayOrderId) ==>
      r <= p.razorpayOrderId.value && |r| == Min(IdCellWidth, |p.razorpayOrderId.value|)
    ensures !HasDisplayId(p) ==> r == Placeholder
    ensures r != ""
  {
    Or(OptionalPrefix(p.razorpayPaymentId, IdCellWidth),
       Or(OptionalPrefix(p.razorpayOrderId, IdCellWidth), Placeholder))
  }

  /** The Status cell: the upper-cased status, empty when there is none. */
  function StatusCell(p: Payment): (r: string)
    ensures p.status.None? ==> r == ""
    ensures p.status.Some? ==> |r| == |p.status.value|
    ensures p.status.Some? ==> forall i :: 0 <= i < |r| ==> r[i] == UpperChar(p.status.value[i])
    ensures forall i :: 0 <= i < |r| ==> !IsLowerAscii(r[i])
  {
    ToUpper(p.status.GetOr(""))
  }
}
