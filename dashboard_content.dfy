/**
 * The dashboard's message list: all messages as fetched, the filtered view
 * shown to the user, and the filter form (search term, category, date range).
 *
 * Times are millisecond timestamps; the browser's local time zone is a fixed
 * offset `tzOffset` (local time = UTC time + offset), daylight saving is not
 * modelled. `Date` objects in the filter are mutable and shared with the
 * filter state: applying a date filter moves `from` to the start of its day
 * and `to` to the end of its day, and those moves stay in the filter state.
 */
module DashboardContent {
  import opened Wrappers
  import opened JsStrings
  import opened JsArrays
  import opened Mail

  // ---------------------------------------------------------------------------
  // Local calendar days
  // ---------------------------------------------------------------------------

  const DayMs: int := 86_400_000

  /** The local calendar day a timestamp falls on (what `toDateString` shows). */
  function DayIndex(t: int, tzOffset: int): int {
    (t + tzOffset) / DayMs
  }

  /** `setHours(0, 0, 0, 0)`: the first millisecond of the local day. */
  function StartOfDay(t: int, tzOffset: int): (r: int)
    ensures r <= t < r + DayMs
    ensures DayIndex(r, tzOffset) == DayIndex(t, tzOffset)
  {
    DayIndex(t, tzOffset) * DayMs - tzOffset
  }

  /** `setHours(23, 59, 59, 999)`: the last millisecond of the local day. */
  function EndOfDay(t: int, tzOffset: int): (r: int)
    ensures r - DayMs < t <= r
    ensures DayIndex(r, tzOffset) == DayIndex(t, tzOffset)
  {
    StartOfDay(t, tzOffset) + DayMs - 1
  }

  /** Two timestamps fall on the same local day exactly when each lies within the other's day. */
  lemma SameDayBounds(t: int, d: int, tzOffset: int)
    ensures DayIndex(t, tzOffset) == DayIndex(d, tzOffset) <==>
              StartOfDay(d, tzOffset) <= t <= EndOfDay(d, tzOffset)
  {
    var s := StartOfDay(d, tzOffset);
    if s <= t <= s + DayMs - 1 {
      assert DayIndex(t, tzOffset) == DayIndex(s, tzOffset) by {
        var q := DayIndex(d, tzOffset);
        assert q * DayMs <= t + tzOffset < q * DayMs + DayMs;
      }
    }
    if DayIndex(t, tzOffset) == DayIndex(d, tzOffset) {
      assert StartOfDay(t, tzOffset) == s;
    }
  }

  /** Moving to the start or end of a day twice is the same as once. */
  lemma DayMovesIdempotent(t: int, tzOffset: int)
    ensures StartOfDay(StartOfDay(t, tzOffset), tzOffset) == StartOfDay(t, tzOffset)
    ensures EndOfDay(EndOfDay(t, tzOffset), tzOffset) == EndOfDay(t, tzOffset)
  {
  }

  // ---------------------------------------------------------------------------
  // The filter state
  // ---------------------------------------------------------------------------

  /** `DateRange` of the day picker: `from` may be unset while `to` is set. */
  datatype DateRange = DateRange(from: Option<int>, to: Option<int>)

  datatype FilterState = FilterState(searchTerm: string, category: string, dateRange: Option<DateRange>)

  const InitialFilterState: FilterState := FilterState("", "", None)

  /** One call of `handleFilterChange(key, value)`. */
  datatype FilterChange =
    | SearchTermChange(term: string)
    | CategoryChange(category: string)
    | DateRangeChange(range: Option<DateRange>)

  /** `{ ...prev, [key]: value }`: the named key takes the value, the others are kept. */
  function WithChange(f: FilterState, change: FilterChange): (r: FilterState)
    ensures change.SearchTermChange? ==>
              r.searchTerm == change.term && r.category == f.category && r.dateRange == f.dateRange
    ensures change.CategoryChange? ==>
              r.category == change.category && r.searchTerm == f.searchTerm && r.dateRange == f.dateRange
    ensures change.DateRangeChange? ==>
              r.dateRange == change.range && r.searchTerm == f.searchTerm && r.category == f.category
  {
    match change
    case SearchTermChange(term) => f.(searchTerm := term)
    case CategoryChange(category) => f.(category := category)
    case DateRangeChange(range) => f.(dateRange := range)
  }

  // ---------------------------------------------------------------------------
  // The three filters
  // ---------------------------------------------------------------------------

  /** Subject or sender contains the term, both lower-cased. */
  predicate SearchMatches(m: Message, term: string) {
    Includes(ToLower(m.subject), ToLower(term)) || Includes(ToLower(m.from), ToLower(term))
  }

  predicate CategoryMatches(m: Message, category: string) {
    m.category == Some(category)
  }

  /**
   * The date test for a range with a `from`: inside [start of `from`'s day,
   * end of `to`'s day] when there is a `to`, on `from`'s local day otherwise.
   */
  predicate DateMatches(m: Message, from: int, to: Option<int>, tzOffset: int) {
    if to.Some? then StartOfDay(from, tzOffset) <= m.receivedAt <= EndOfDay(to.value, tzOffset)
    else DayIndex(m.receivedAt, tzOffset) == DayIndex(from, tzOffset)
  }

  predicate HasFrom(f: FilterState) {
    f.dateRange.Some? && f.dateRange.value.from.Some?
  }

  /** A message passes every filter that is switched on. */
  predicate Matches(m: Message, f: FilterState, tzOffset: int) {
    && (f.searchTerm != "" ==> SearchMatches(m, f.searchTerm))
    && (f.category != "" ==> CategoryMatches(m, f.category))
    && (HasFrom(f) ==> DateMatches(m, f.dateRange.value.from.value, f.dateRange.value.to, tzOffset))
  }

  function SearchStep(ms: seq<Message>, f: FilterState): seq<Message> {
    if f.searchTerm != "" then Filter(ms, m => SearchMatches(m, f.searchTerm)) else ms
  }

  function CategoryStep(ms: seq<Message>, f: FilterState): seq<Message> {
    if f.category != "" then Filter(ms, m => CategoryMatches(m, f.category)) else ms
  }

  function DateStep(ms: seq<Message>, f: FilterState, tzOffset: int): seq<Message> {
    if HasFrom(f) then
      Filter(ms, m => DateMatches(m, f.dateRange.value.from.value, f.dateRange.value.to, tzOffset))
    else ms
  }

  /** The three filters applied one after another, as `handleApplyFilters` does. */
  function Filtered(ms: seq<Message>, f: FilterState, tzOffset: int): seq<Message> {
    DateStep(CategoryStep(SearchStep(ms, f), f), f, tzOffset)
  }

  /**
   * The filter state after applying: when a date filter ran over at least one
   * message, `from` was moved to the start of its day and `to` (if set) to the
   * end of its day.
   */
  function AfterApply(ms: seq<Message>, f: FilterState, tzOffset: int): (r: FilterState)
    ensures r.searchTerm == f.searchTerm && r.category == f.category
    ensures !HasFrom(f) || CategoryStep(SearchStep(ms, f), f) == [] ==> r == f
  {
    if HasFrom(f) && CategoryStep(SearchStep(ms, f), f) != [] then
      var range := f.dateRange.value;
      f.(dateRange := Some(DateRange(
        Some(StartOfDay(range.from.value, tzOffset)),
        if range.to.Some? then Some(EndOfDay(range.to.value, tzOffset)) else None)))
    else f
  }

  // ---------------------------------------------------------------------------
  // Properties of the filters
  // ---------------------------------------------------------------------------

  /** The three steps together are one filter by `Matches`. */
  lemma {:induction false} FilteredIsFilter(ms: seq<Message>, f: FilterState, tzOffset: int)
    ensures Filtered(ms, f, tzOffset) == Filter(ms, m => Matches(m, f, tzOffset))
  {
    var s := m => f.searchTerm != "" ==> SearchMatches(m, f.searchTerm);
    var c := m => f.category != "" ==> CategoryMatches(m, f.category);
    var d := m => HasFrom(f) ==> DateMatches(m, f.dateRange.value.from.value, f.dateRange.value.to, tzOffset);
    var sc := m => s(m) && c(m);
    var scd := m => Matches(m, f, tzOffset);
    StepIsFilter(ms, f);
    FilterTwice(ms, s, c, sc);
    assert CategoryStep(SearchStep(ms, f), f) == Filter(Filter(ms, s), c) by {
      CategoryStepIsFilter(Filter(ms, s), f);
    }
    DateStepIsFilter(Filter(ms, sc), f, tzOffset);
    FilterTwice(ms, sc, d, scd);
  }

  lemma StepIsFilter(ms: seq<Message>, f: FilterState)
    ensures SearchStep(ms, f) == Filter(ms, m => f.searchTerm != "" ==> SearchMatches(m, f.searchTerm))
  {
    if f.searchTerm == "" {
      FilterKeepsAll(ms, m => f.searchTerm != "" ==> SearchMatches(m, f.searchTerm));
    } else {
      FilterSame(ms, m => SearchMatches(m, f.searchTerm), m => f.searchTerm != "" ==> SearchMatches(m, f.searchTerm));
    }
  }

  lemma CategoryStepIsFilter(ms: seq<Message>, f: FilterState)
    ensures CategoryStep(ms, f) == Filter(ms, m => f.category != "" ==> CategoryMatches(m, f.category))
  {
    if f.category == "" {
      FilterKeepsAll(ms, m => f.category != "" ==> CategoryMatches(m, f.category));
    } else {
      FilterSame(ms, m => CategoryMatches(m, f.category), m => f.category != "" ==> CategoryMatches(m, f.category));
    }
  }

  lemma DateStepIsFilter(ms: seq<Message>, f: FilterState, tzOffset: int)
    ensures DateStep(ms, f, tzOffset)
            == Filter(ms, m => HasFrom(f) ==> DateMatches(m, f.dateRange.value.from.value, f.dateRange.value.to, tzOffset))
  {
    var d := m => HasFrom(f) ==> DateMatches(m, f.dateRange.value.from.value, f.dateRange.value.to, tzOffset);
    if !HasFrom(f) {
      FilterKeepsAll(ms, d);
    } else {
      FilterSame(ms, m => DateMatches(m, f.dateRange.value.from.value, f.dateRange.value.to, tzOffset), d);
    }
  }

  /** Filtering by two predicates that agree everywhere gives the same result. */
  lemma {:induction false} FilterSame(ms: seq<Message>, p: Message -> bool, q: Message -> bool)
    requires forall m :: p(m) == q(m)
    ensures Filter(ms, p) == Filter(ms, q)
  {
    if ms != [] {
      FilterSame(ms[1..], p, q);
    }
  }

  /** The filtered view keeps some of the messages, in their original order. */
  lemma FilteredIsSubsequence(ms: seq<Message>, f: FilterState, tzOffset: int)
    ensures IsSubsequence(Filtered(ms, f, tzOffset), ms)
  {
    FilteredIsFilter(ms, f, tzOffset);
    FilterIsSubsequence(ms, m => Matches(m, f, tzOffset));
  }

  /** A message is shown exactly when it is in the list and passes every active filter. */
  lemma FilteredMembers(ms: seq<Message>, f: FilterState, tzOffset: int, m: Message)
    ensures m in Filtered(ms, f, tzOffset) <==> m in ms && Matches(m, f, tzOffset)
  {
    FilteredIsFilter(ms, f, tzOffset);
    FilterMembers(ms, m => Matches(m, f, tzOffset), m);
  }

  /** A search term keeps exactly the messages whose subject or sender contains it, ignoring case. */
  lemma SearchKeeps(ms: seq<Message>, term: string, tzOffset: int, m: Message)
    requires term != ""
    ensures m in Filtered(ms, FilterState(term, "", None), tzOffset) <==>
              m in ms && ((exists i :: OccursAt(ToLower(m.subject), ToLower(term), i))
                          || (exists i :: OccursAt(ToLower(m.from), ToLower(term), i)))
  {
    FilteredMembers(ms, FilterState(term, "", None), tzOffset, m);
    assert SearchMatches(m, term) <==> Includes(ToLower(m.subject), ToLower(term)) || Includes(ToLower(m.from), ToLower(term));
  }

  /** A category keeps exactly the messages carrying that category. */
  lemma CategoryKeeps(ms: seq<Message>, category: string, tzOffset: int, m: Message)
    requires category != ""
    ensures m in Filtered(ms, FilterState("", category, None), tzOffset) <==>
              m in ms && m.category == Some(category)
  {
    FilteredMembers(ms, FilterState("", category, None), tzOffset, m);
  }

  /** With only `from`, a message is kept exactly when it falls on that local day. */
  lemma FromOnlyKeepsSameDay(ms: seq<Message>, from: int, tzOffset: int, m: Message)
    ensures m in Filtered(ms, FilterState("", "", Some(DateRange(Some(from), None))), tzOffset) <==>
              m in ms && StartOfDay(from, tzOffset) <= m.receivedAt <= EndOfDay(from, tzOffset)
  {
    FilteredMembers(ms, FilterState("", "", Some(DateRange(Some(from), None))), tzOffset, m);
    SameDayBounds(m.receivedAt, from, tzOffset);
  }

  /** With `from` and `to`, a message is kept exactly when it lies in the inclusive day range. */
  lemma RangeKeepsInclusive(ms: seq<Message>, from: int, to: int, tzOffset: int, m: Message)
    ensures m in Filtered(ms, FilterState("", "", Some(DateRange(Some(from), Some(to)))), tzOffset) <==>
              m in ms && StartOfDay(from, tzOffset) <= m.receivedAt <= EndOfDay(to, tzOffset)
  {
    FilteredMembers(ms, FilterState("", "", Some(DateRange(Some(from), Some(to)))), tzOffset, m);
  }

  /** With every filter empty (the initial state), all messages are shown. */
  lemma NoFilterIsIdentity(ms: seq<Message>, f: FilterState, tzOffset: int)
    requires f.searchTerm == "" && f.category == "" && !HasFrom(f)
    ensures Filtered(ms, f, tzOffset) == ms
  {
  }

  /** The dates the filter leaves behind select the same messages as the ones it started from. */
  lemma {:induction false} ApplyAgainSameResult(all: seq<Message>, ms: seq<Message>, f: FilterState, tzOffset: int)
    ensures Filtered(ms, AfterApply(all, f, tzOffset), tzOffset) == Filtered(ms, f, tzOffset)
  {
    var g := AfterApply(all, f, tzOffset);
    if g != f {
      var range := f.dateRange.value;
      var from := range.from.value;
      forall m: Message
        ensures DateMatches(m, g.dateRange.value.from.value, g.dateRange.value.to, tzOffset)
                == DateMatches(m, from, range.to, tzOffset)
      {
        DayMovesIdempotent(from, tzOffset);
        if range.to.Some? {
          DayMovesIdempotent(range.to.value, tzOffset);
        }
      }
      FilterSame(CategoryStep(SearchStep(ms, f), f),
                 m => DateMatches(m, g.dateRange.value.from.value, g.dateRange.value.to, tzOffset),
                 m => DateMatches(m, from, range.to, tzOffset));
    }
  }

  // ---------------------------------------------------------------------------
  // The component's state
  // ---------------------------------------------------------------------------

  class Dashboard {
    var allMessages: seq<Message>
    var filteredMessages: seq<Message>
    var filters: FilterState
    const tzOffset: int

    constructor(tzOffset: int)
      ensures allMessages == [] && filteredMessages == [] && filters == InitialFilterState
      ensures this.tzOffset == tzOffset
    {
      allMessages := [];
      filteredMessages := [];
      filters := InitialFilterState;
      this.tzOffset := tzOffset;
    }

    /** A successful fetch: `response.messages || []` becomes both lists. */
    method ReceiveMessages(messages: Option<seq<Message>>)
      modifies this
      ensures allMessages == messages.GetOr([]) && filteredMessages == allMessages
      ensures filters == old(filters)
    {
      allMessages := messages.GetOr([]);
      filteredMessages := allMessages;
    }

    /** `handleFilterChange`: only the named key changes; the view is not refiltered. */
    method HandleFilterChange(change: FilterChange)
      modifies this
      ensures filters == WithChange(old(filters), change)
      ensures allMessages == old(allMessages) && filteredMessages == old(filteredMessages)
    {
      filters := WithChange(filters, change);
    }

    /** `handleApplyFilters`: the three filters in turn, then the filtered view is replaced. */
    method HandleApplyFilters()
      modifies this
      ensures filteredMessages == Filtered(allMessages, old(filters), tzOffset)
      ensures filters == AfterApply(allMessages, old(filters), tzOffset)
      ensures allMessages == old(allMessages)
    {
      var messagesToFilter := allMessages;
      if filters.searchTerm != "" {
        var term := filters.searchTerm;
        messagesToFilter := Filter(messagesToFilter, m => SearchMatches(m, term));
      }
      if filters.category != "" {
        var category := filters.category;
        messagesToFilter := Filter(messagesToFilter, m => CategoryMatches(m, category));
      }
      if HasFrom(filters) {
        var range := filters.dateRange.value;
        var kept := Filter(messagesToFilter, m => DateMatches(m, range.from.value, range.to, tzOffset));
        if messagesToFilter != [] {
          // the callback ran at least once and moved the shared dates
          var to := if range.to.Some? then Some(EndOfDay(range.to.value, tzOffset)) else None;
          filters := filters.(dateRange := Some(DateRange(Some(StartOfDay(range.from.value, tzOffset)), to)));
        }
        messagesToFilter := kept;
      }
      filteredMessages := messagesToFilter;
    }

    /** `handleClearFilters`: the initial filters and the whole list. */
    method HandleClearFilters()
      modifies this
      ensures filters == InitialFilterState && filteredMessages == allMessages
      ensures allMessages == old(allMessages)
    {
      filters := InitialFilterState;
      filteredMessages := allMessages;
    }
  }

  /** After clearing, applying the (initial) filters shows every message. */
  lemma ClearedShowsAll(ms: seq<Message>, tzOffset: int)
    ensures Filtered(ms, InitialFilterState, tzOffset) == ms
  {
    NoFilterIsIdentity(ms, InitialFilterState, tzOffset);
  }
}
