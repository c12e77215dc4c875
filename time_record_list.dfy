/** The time record list (src/components/timer/TimeRecordList.tsx): the fetched
    records sorted newest first, the `Xh Ym` duration display, the today and
    last-seven-days totals and the 20-entry cap of the list. */
module TimeRecordList {
  import opened Wrappers
  import opened Domain
  import opened Seqs
  import opened Text
  import opened Totals

  /* ---------- `formatearTiempo` (minutes to `Xh Ym`) ---------- */

  /** The minutes spelled by an hours and minutes pair. */
  function Duration(h: nat, m: nat): nat
  {
    h * 60 + m
  }

  /** `formatearTiempo(minutos)`: hours by `Math.floor`, minutes by `%`; the hours are omitted when zero. */
  function FormatMinutes(minutes: int): string
  {
    var (hours, mins) := HoursAndMinutes(minutes);
    if hours == 0 then IntToString(mins) + "m"
    else IntToString(hours) + "h " + IntToString(mins) + "m"
  }

  /** Reads an `Xm` or `Xh Ym` display back into minutes. */
  function ParseDuration(s: string): Option<int>
  {
    if |s| == 0 || s[|s| - 1] != 'm' then None else ParseHours(s[..|s| - 1])
  }

  /** The part before the final `m`: minutes alone, or hours, `h`, a space and minutes. */
  function ParseHours(body: string): Option<int>
  {
    var k := FindChar(body, 'h');
    if k == |body| then
      if |body| > 0 && AllDigits(body) then Some(ParseNat(body)) else None
    else if k + 1 < |body| && body[k + 1] == ' ' && AllDigits(body[..k]) && AllDigits(body[k + 2..])
    then Some(Duration(ParseNat(body[..k]), ParseNat(body[k + 2..])))
    else None
  }

  /** For a non-negative count: minutes alone below an hour, otherwise hours and the leftover minutes. */
  lemma FormatMinutesNat(minutes: nat)
    ensures minutes < 60 ==> FormatMinutes(minutes) == Decimal(minutes) + "m"
    ensures minutes >= 60 ==>
      FormatMinutes(minutes) == Decimal(minutes / 60) + "h " + Decimal(minutes % 60) + "m"
  {
  }

  lemma FormatMinutesExamples()
    ensures FormatMinutes(0) == "0m"
    ensures FormatMinutes(59) == "59m"
    ensures FormatMinutes(65) == "1h 5m"
    ensures FormatMinutes(120) == "2h 0m"
  {
    FormatMinutesNat(0);
    FormatMinutesNat(59);
    FormatMinutesNat(65);
    FormatMinutesNat(120);
  }

  /** A negative count is shown with both parts negative, not as a proper duration. */
  lemma FormatMinutesNegative()
    ensures FormatMinutes(-30) == "-1h -30m"
  {
    assert IntToString(-1) == "-1";
    assert IntToString(-30) == "-" + Decimal(30);
  }

  lemma DigitsHaveNoH(s: string)
    requires AllDigits(s)
    ensures FindChar(s, 'h') == |s|
  {
  }

  lemma ParseSuffixM(body: string)
    ensures ParseDuration(body + "m") == ParseHours(body)
  {
    assert (body + "m")[..|body|] == body;
  }

  lemma ParseMinutesOnly(d: string)
    requires AllDigits(d) && |d| > 0
    ensures ParseDuration(d + "m") == Some(ParseNat(d))
  {
    ParseSuffixM(d);
    DigitsHaveNoH(d);
  }

  lemma ParseHoursBody(hd: string, md: string)
    requires AllDigits(hd) && AllDigits(md) && |md| > 0
    ensures ParseHours(hd + "h " + md) == Some(Duration(ParseNat(hd), ParseNat(md)))
  {
    var body := hd + "h " + md;
    assert body == hd + ['h'] + (" " + md);
    FindCharAt(hd, 'h', " " + md);
    assert body[..|hd|] == hd;
    assert body[|hd| + 2..] == md;
  }

  lemma ParseHoursMinutes(hd: string, md: string)
    requires AllDigits(hd) && AllDigits(md) && |md| > 0
    ensures ParseDuration(hd + "h " + md + "m") == Some(Duration(ParseNat(hd), ParseNat(md)))
  {
    ParseSuffixM(hd + "h " + md);
    ParseHoursBody(hd, md);
  }

  lemma MinutesOnlyRoundTrip(m: nat)
    ensures ParseDuration(Decimal(m) + "m") == Some(m)
  {
    ParseMinutesOnly(Decimal(m));
    DecimalRoundTrip(m);
  }

  lemma HoursMinutesRoundTrip(h: nat, m: nat)
    ensures ParseDuration(Decimal(h) + "h " + Decimal(m) + "m") == Some(Duration(h, m))
  {
    ParseHoursMinutes(Decimal(h), Decimal(m));
    DecimalRoundTrip(h);
    DecimalRoundTrip(m);
  }

  lemma SplitRejoins(m: nat)
    ensures Duration(m / 60, m % 60) == m
  {
  }

  /** The display loses nothing for a non-negative count: it reads back as the same minutes. */
  lemma DurationRoundTrip(minutes: nat)
    ensures ParseDuration(FormatMinutes(minutes)) == Some(minutes)
  {
    FormatMinutesNat(minutes);
    if minutes < 60 {
      MinutesOnlyRoundTrip(minutes);
    } else {
      HoursMinutesRoundTrip(minutes / 60, minutes % 60);
      SplitRejoins(minutes);
    }
  }

  /* ---------- today and the last seven days ---------- */

  /** Milliseconds in a day: `now` is a JavaScript timestamp and a `fecha` stands for its UTC midnight. */
  const DayMs: nat := 86400000

  /** `new Date().toISOString().split('T')[0]`: the UTC calendar day of `now`. */
  function Today(now: int): Day
  {
    now / DayMs
  }

  /** `calcularTotalHoy`: minutes of the records dated exactly today. */
  function TodayTotal(rs: seq<TimeRecord>, now: int): int
  {
    DayTotal(rs, Today(now))
  }

  lemma TodayTotalOrderIndependent(a: seq<TimeRecord>, b: seq<TimeRecord>, now: int)
    requires multiset(a) == multiset(b)
    ensures TodayTotal(a, now) == TodayTotal(b, now)
  {
    DayTotalOrderIndependent(a, b, Today(now));
  }

  /** The filter of `calcularTotalSemana`: the record's midnight lies between seven days ago and now. */
  function InWeek(now: int): TimeRecord -> bool
  {
    (r: TimeRecord) => now - 7 * DayMs <= r.date * DayMs <= now
  }

  /** `calcularTotalSemana`: minutes of the records inside the window. */
  function WeekTotal(rs: seq<TimeRecord>, now: int): int
  {
    SumMinutes(Filter(InWeek(now), rs))
  }

  lemma MidnightBefore(d: int, now: int)
    ensures d * DayMs <= now <==> d <= Today(now)
  {
    var t := Today(now);
    if d <= t {
      assert d * DayMs <= t * DayMs;
    } else {
      assert (d - t - 1) * DayMs >= 0;
    }
  }

  lemma MidnightAfter(d: int, now: int)
    ensures now - 7 * DayMs <= d * DayMs <==>
      (if now % DayMs == 0 then Today(now) - 7 else Today(now) - 6) <= d
  {
    var t := Today(now);
    assert now == t * DayMs + now % DayMs;
    var lo := if now % DayMs == 0 then t - 7 else t - 6;
    if lo <= d {
      assert (d - lo) * DayMs >= 0;
    } else {
      assert (lo - 1 - d) * DayMs >= 0;
    }
  }

  /** In calendar days the window is the last seven days up to today, or eight when `now` is
      exactly a UTC midnight. */
  lemma WeekWindowDays(now: int, r: TimeRecord)
    ensures InWeek(now)(r) <==>
      (if now % DayMs == 0 then Today(now) - 7 else Today(now) - 6) <= r.date <= Today(now)
  {
    MidnightBefore(r.date, now);
    MidnightAfter(r.date, now);
  }

  /** Today's records lie inside the window, so with non-negative minutes the week total is at
      least the today total. */
  lemma WeekCoversToday(rs: seq<TimeRecord>, now: int)
    requires NonNegative(rs)
    ensures TodayTotal(rs, now) <= WeekTotal(rs, now)
  {
    forall r | OnDay(Today(now))(r) ensures InWeek(now)(r) {
      WeekWindowDays(now, r);
    }
    SumFilterMonotone(InWeek(now), OnDay(Today(now)), rs);
  }

  lemma WeekTotalOrderIndependent(a: seq<TimeRecord>, b: seq<TimeRecord>, now: int)
    requires multiset(a) == multiset(b)
    ensures WeekTotal(a, now) == WeekTotal(b, now)
  {
    FilterPermutation(InWeek(now), a, b);
    SumPermutation(Filter(InWeek(now), a), Filter(InWeek(now), b));
  }

  /* ---------- sorting and the displayed page ---------- */

  /** Ordered by `fecha`, most recent first. */
  ghost predicate NewestFirst(rs: seq<TimeRecord>)
  {
    forall i, j :: 0 <= i < j < |rs| ==> rs[i].date >= rs[j].date
  }

  /** Exchanges two neighbouring records. */
  method SwapDown(a: array<TimeRecord>, j: nat)
    requires 0 < j < a.Length
    modifies a
    ensures a[j - 1] == old(a[j]) && a[j] == old(a[j - 1])
    ensures forall k :: 0 <= k < a.Length && k != j - 1 && k != j ==> a[k] == old(a[k])
    ensures multiset(a[..]) == old(multiset(a[..]))
  {
    a[j - 1], a[j] := a[j], a[j - 1];
  }

  /** Two sequences with the same multiset that agree after position `i` agree on that suffix as
      a whole and have the same multiset up to and including `i`. */
  lemma SameSuffix(x: seq<TimeRecord>, y: seq<TimeRecord>, i: nat)
    requires i < |x| == |y|
    requires multiset(x) == multiset(y)
    requires forall k :: i < k < |x| ==> x[k] == y[k]
    ensures x[i + 1..] == y[i + 1..]
    ensures multiset(x[..i + 1]) == multiset(y[..i + 1])
  {
    var n := i + 1;
    assert x[n..] == y[n..];
    assert x == x[..n] + x[n..];
    assert y == y[..n] + y[n..];
    var c := multiset(x[n..]);
    forall e ensures multiset(x[..n])[e] == multiset(y[..n])[e] {
      assert (multiset(x[..n]) + c)[e] == (multiset(y[..n]) + c)[e];
    }
  }

  /** The state of one insertion: the record at `j` is newer than everything after it up to `i`,
      and the records up to `i` other than it are newest first. */
  ghost predicate Inserting(s: seq<TimeRecord>, i: nat, j: nat)
    requires j <= i < |s|
  {
    && (forall k, l :: 0 <= k < l <= i && k != j && l != j ==> s[k].date >= s[l].date)
    && (forall l :: j < l <= i ==> s[j].date > s[l].date)
    && (0 < j < i ==> s[j - 1].date >= s[j + 1].date)
  }

  lemma InsertingStart(s: seq<TimeRecord>, i: nat)
    requires i < |s| && NewestFirst(s[..i])
    ensures Inserting(s, i, i)
  {
    assert forall k :: 0 <= k < i ==> s[..i][k] == s[k];
  }

  /** Swapping the inserted record with an older left neighbour moves the insertion one step left. */
  lemma InsertingStep(s: seq<TimeRecord>, t: seq<TimeRecord>, i: nat, j: nat)
    requires 0 < j <= i < |s| == |t| && Inserting(s, i, j)
    requires s[j - 1].date < s[j].date
    requires t[j - 1] == s[j] && t[j] == s[j - 1]
    requires forall k :: 0 <= k < |s| && k != j - 1 && k != j ==> t[k] == s[k]
    ensures Inserting(t, i, j - 1)
  {
  }

  /** The insertion stops when the left neighbour is at least as recent: the prefix is sorted. */
  lemma InsertingDone(s: seq<TimeRecord>, i: nat, j: nat)
    requires j <= i < |s| && Inserting(s, i, j)
    requires j == 0 || s[j - 1].date >= s[j].date
    ensures NewestFirst(s[..i + 1])
  {
    forall k, l | 0 <= k < l <= i
      ensures s[k].date >= s[l].date
    {
      if l == j && 0 < j && k < j - 1 {
        assert s[k].date >= s[j - 1].date;
      }
    }
  }

  /** Moves `a[i]` left past every older record, extending the sorted prefix by that one record;
      the records after position `i` are not touched. */
  method InsertNewestFirst(a: array<TimeRecord>, i: nat)
    requires i < a.Length
    requires NewestFirst(a[..i])
    modifies a
    ensures NewestFirst(a[..i + 1])
    ensures multiset(a[..i + 1]) == old(multiset(a[..i + 1]))
    ensures a[i + 1..] == old(a[i + 1..])
    ensures multiset(a[..]) == old(multiset(a[..]))
  {
    InsertingStart(a[..], i);
    var j := i;
    while j > 0 && a[j - 1].date < a[j].date
      invariant 0 <= j <= i
      invariant Inserting(a[..], i, j)
      invariant multiset(a[..]) == old(multiset(a[..]))
      invariant forall k :: i < k < a.Length ==> a[k] == old(a[k])
    {
      ghost var before := a[..];
      SwapDown(a, j);
      InsertingStep(before, a[..], i, j);
      j := j - 1;
    }
    InsertingDone(a[..], i, j);
    SameSuffix(a[..], old(a[..]), i);
  }

  /** `response.data.sort((a, b) => b.fecha - a.fecha)`, as an insertion sort in place. */
  method SortNewestFirst(a: array<TimeRecord>)
    modifies a
    ensures NewestFirst(a[..])
    ensures multiset(a[..]) == old(multiset(a[..]))
  {
    var i := 0;
    while i < a.Length
      invariant 0 <= i <= a.Length
      invariant NewestFirst(a[..i])
      invariant multiset(a[..]) == old(multiset(a[..]))
    {
      InsertNewestFirst(a, i);
      i := i + 1;
    }
    assert a[..a.Length] == a[..];
  }

  /** The list shows at most this many records. */
  const PageSize := 20

  /** `records.slice(0, 20)`. */
  function Displayed(rs: seq<TimeRecord>): (shown: seq<TimeRecord>)
    ensures |shown| <= PageSize
    ensures |shown| == if |rs| <= PageSize then |rs| else PageSize
    ensures shown == rs[..|shown|]
  {
    if |rs| <= PageSize then rs else rs[..PageSize]
  }

  /** The "Mostrando los últimos 20 registros" footer: it appears exactly when some records are
      left out of the list. */
  predicate ShowsFooter(rs: seq<TimeRecord>): (shown: bool)
    ensures shown <==> Displayed(rs) != rs
  {
    assert |rs| > PageSize ==> |Displayed(rs)| < |rs|;
    |rs| > PageSize
  }

  /** On a list sorted newest first, every shown record is at least as recent as every hidden one. */
  lemma DisplayedAreNewest(rs: seq<TimeRecord>, i: nat, j: nat)
    requires NewestFirst(rs)
    requires i < |Displayed(rs)| <= j < |rs|
    ensures Displayed(rs)[i].date >= rs[j].date
  {
  }

  const LoadErrorMessage := "Error al cargar los registros"

  /** The component's state: the stored records, the loading flag and the error text. */
  class RecordList {
    var records: seq<TimeRecord>
    var loading: bool
    var error: string

    constructor ()
      ensures records == [] && loading && error == ""
    {
      records, loading, error := [], true, "";
    }

    /** `loadRecords`: on success the fetched array, sorted in place, becomes the list and the
        error is cleared; on failure the list is kept and the error set. */
    method LoadRecords(fetchOk: bool, fetched: array<TimeRecord>)
      modifies this, fetched
      ensures !loading
      ensures fetchOk ==> && NewestFirst(records)
                          && multiset(records) == old(multiset(fetched[..]))
                          && records == fetched[..]
                          && error == ""
      ensures !fetchOk ==> records == old(records) && error == LoadErrorMessage
                           && fetched[..] == old(fetched[..])
    {
      loading := true;
      if fetchOk {
        SortNewestFirst(fetched);
        records := fetched[..];
        error := "";
      } else {
        error := LoadErrorMessage;
      }
      loading := false;
    }
  }

  /** The list as it is mounted, and remounted each time `TimerPage` changes its `key`: a fresh
      component followed by one `loadRecords`. A failed fetch therefore shows no records at all. */
  method Mount(fetchOk: bool, fetched: array<TimeRecord>) returns (list: RecordList)
    modifies fetched
    ensures fresh(list) && !list.loading
    ensures fetchOk ==> && NewestFirst(list.records)
                        && multiset(list.records) == old(multiset(fetched[..]))
                        && list.error == ""
    ensures !fetchOk ==> list.records == [] && list.error == LoadErrorMessage
  {
    list := new RecordList();
    list.LoadRecords(fetchOk, fetched);
  }
}
