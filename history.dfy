/**
 * The practice history route: query-parameter parsing and clamping, the
 * filter the route builds for the session store, pagination, the echoed
 * filters and the per-page summary. Times are whole numbers (milliseconds);
 * turning a date string into a time and moving a time to the end of its day
 * are parameters, since both depend on the calendar.
 */
module UserHistory {
  import opened Wrappers
  import opened JsText
  import PracticeSubmit

  // ---------------------------------------------------------------------
  // Query parameters
  // ---------------------------------------------------------------------

  /** A JavaScript number produced from parseInt: an integer, or NaN. */
  datatype Num = Int(value: int) | NaN

  function ParseNum(s: string): (n: Num)
    ensures n.Int? <==> ParseIntJs(s).Some?
    ensures n.Int? ==> n.value == ParseIntJs(s).value
  {
    match ParseIntJs(s)
    case None => NaN
    case Some(i) => Int(i)
  }

  /** Math.max(a, x): NaN when x is NaN. */
  function MaxNum(a: int, x: Num): (r: Num)
    ensures r.NaN? <==> x.NaN?
    ensures r.Int? ==> r.value >= a && (r.value == a || r.value == x.value)
  {
    match x
    case NaN => NaN
    case Int(v) => if a > v then Int(a) else Int(v)
  }

  /** Math.min(a, x): NaN when x is NaN. */
  function MinNum(a: int, x: Num): (r: Num)
    ensures r.NaN? <==> x.NaN?
    ensures r.Int? ==> r.value <= a && (r.value == a || r.value == x.value)
  {
    match x
    case NaN => NaN
    case Int(v) => if a < v then Int(a) else Int(v)
  }

  /** `searchParams.get(name) || undefined`: a missing or empty parameter is absent. */
  function Present(v: Option<string>): (r: Option<string>)
    ensures r.Some? ==> r.value != ""
    ensures v.Some? && v.value != "" ==> r == v
  {
    if v.None? || v.value == "" then None else v
  }

  /** `searchParams.get(name) || fallback`. */
  function OrDefault(v: Option<string>, fallback: string): string {
    match Present(v)
    case None => fallback
    case Some(s) => s
  }

  /** The six query parameters as the URL carries them (None: not in the URL). */
  datatype RawParams = RawParams(
    page: Option<string>, limit: Option<string>,
    dateFrom: Option<string>, dateTo: Option<string>,
    minScore: Option<string>, maxScore: Option<string>)

  /** The parameters after historyQuerySchema; a score bound is None when absent. */
  datatype Query = Query(
    page: Num, limit: Num,
    dateFrom: Option<string>, dateTo: Option<string>,
    minScore: Option<Num>, maxScore: Option<Num>)

  /** A present score parameter becomes Math.max(1, Math.min(10, parseInt(val, 10))). */
  function ScoreParam(v: Option<string>): (r: Option<Num>)
    ensures r.None? <==> Present(v).None?
    ensures r.Some? && r.value.Int? ==> 1 <= r.value.value <= 10
  {
    match Present(v)
    case None => None
    case Some(s) => Some(MaxNum(1, MinNum(10, ParseNum(s))))
  }

  /**
   * historyQuerySchema.parse: page at least 1 (default "1"), limit within
   * [1, 50] (default "10"), present score bounds within [1, 10], NaN where
   * parseInt finds no digits.
   */
  function ParseQuery(raw: RawParams): (q: Query)
    ensures q.page.Int? ==> q.page.value >= 1
    ensures q.limit.Int? ==> 1 <= q.limit.value <= 50
    ensures Present(raw.page).None? ==> q.page == Int(1)
    ensures Present(raw.limit).None? ==> q.limit == Int(10)
    ensures q.minScore.Some? && q.minScore.value.Int? ==> 1 <= q.minScore.value.value <= 10
    ensures q.maxScore.Some? && q.maxScore.value.Int? ==> 1 <= q.maxScore.value.value <= 10
    ensures q.minScore.None? <==> Present(raw.minScore).None?
    ensures q.maxScore.None? <==> Present(raw.maxScore).None?
    ensures q.dateFrom == Present(raw.dateFrom) && q.dateTo == Present(raw.dateTo)
  {
    DefaultsRead();
    Query(
      MaxNum(1, ParseNum(OrDefault(raw.page, "1"))),
      MinNum(50, MaxNum(1, ParseNum(OrDefault(raw.limit, "10")))),
      Present(raw.dateFrom), Present(raw.dateTo),
      ScoreParam(raw.minScore), ScoreParam(raw.maxScore))
  }

  /** The defaults "1" and "10" read as 1 and 10. */
  lemma DefaultsRead()
    ensures ParseNum("1") == Int(1) && ParseNum("10") == Int(10)
  {
    assert NatToString(1) == "1";
    ParseIntOfNatToString(1);
    assert NatToString(10) == "10";
    ParseIntOfNatToString(10);
  }

  function Clamp(lo: int, hi: int, n: int): int
    requires lo <= hi
  {
    if n < lo then lo else if n > hi then hi else n
  }

  /** A number written in decimal is read back by ParseNum. */
  lemma ParseNumOfIntToString(n: int)
    ensures Present(Some(IntToString(n))) == Some(IntToString(n))
    ensures ParseNum(IntToString(n)) == Int(n)
  {
    ParseIntOfIntToString(n);
  }

  /** A page written in decimal is raised to 1 when below it. */
  lemma WrittenPageClamped(page: int, raw: RawParams)
    requires raw.page == Some(IntToString(page))
    ensures ParseQuery(raw).page == Int(if page < 1 then 1 else page)
  {
    ParseNumOfIntToString(page);
  }

  /** A limit written in decimal is clamped into [1, 50]. */
  lemma WrittenLimitClamped(limit: int, raw: RawParams)
    requires raw.limit == Some(IntToString(limit))
    ensures ParseQuery(raw).limit == Int(Clamp(1, 50, limit))
  {
    ParseNumOfIntToString(limit);
  }

  /** A score bound written in decimal is clamped into [1, 10]. */
  lemma WrittenScoreClamped(score: int)
    ensures ScoreParam(Some(IntToString(score))) == Some(Int(Clamp(1, 10, score)))
  {
    ParseNumOfIntToString(score);
  }

  // ---------------------------------------------------------------------
  // The store filter
  // ---------------------------------------------------------------------

  /** A practice session row, with the fields the filter and the summary read. */
  datatype Session = Session(id: string, userId: string, createdAt: int, score: int)

  /** A `{ gte, lte }` condition; either side may be missing. */
  datatype Range = Range(gte: Option<int>, lte: Option<int>)

  /** The `whereConditions` object: the user, and the createdAt and score conditions when set. */
  datatype Where = Where(userId: string, createdAt: Option<Range>, score: Option<Range>)

  predicate InRange(r: Option<Range>, x: int) {
    r.None? || ((r.value.gte.None? || r.value.gte.value <= x) && (r.value.lte.None? || x <= r.value.lte.value))
  }

  /** What a where object selects. */
  predicate Matches(w: Where, s: Session) {
    s.userId == w.userId && InRange(w.createdAt, s.createdAt) && InRange(w.score, s.score)
  }

  /** What the query asks for, stated on its own terms. */
  datatype Criteria = Criteria(userId: string, from: Option<int>, to: Option<int>, minScore: Option<int>, maxScore: Option<int>)

  predicate Wanted(c: Criteria, s: Session) {
    && s.userId == c.userId
    && (c.from.None? || c.from.value <= s.createdAt)
    && (c.to.None? || s.createdAt <= c.to.value)
    && (c.minScore.None? || c.minScore.value <= s.score)
    && (c.maxScore.None? || s.score <= c.maxScore.value)
  }

  /** An integer score bound; NaN bounds never reach the store (see GetHistory). */
  function IntBound(b: Option<Num>): Option<int> {
    if b.Some? && b.value.Int? then Some(b.value.value) else None
  }

  /**
   * The criteria of a query: a date that does not parse adds no condition;
   * the end date is moved to the end of its day.
   */
  function CriteriaOf(userId: string, q: Query, toTime: string -> Option<int>, endOfDay: int -> int): (c: Criteria)
    ensures c.userId == userId
    ensures c.from == if q.dateFrom.Some? then toTime(q.dateFrom.value) else None
    ensures c.to.Some? <==> q.dateTo.Some? && toTime(q.dateTo.value).Some?
    ensures c.to.Some? ==> c.to.value == endOfDay(toTime(q.dateTo.value).value)
    ensures c.minScore.Some? <==> q.minScore.Some? && q.minScore.value.Int?
    ensures c.maxScore.Some? <==> q.maxScore.Some? && q.maxScore.value.Int?
  {
    var from := if q.dateFrom.Some? then toTime(q.dateFrom.value) else None;
    var to := if q.dateTo.Some? && toTime(q.dateTo.value).Some? then Some(endOfDay(toTime(q.dateTo.value).value)) else None;
    Criteria(userId, from, to, IntBound(q.minScore), IntBound(q.maxScore))
  }

  /**
   * The where object as the route builds it, one condition at a time. A
   * createdAt object is set as soon as either date is given, even when
   * neither parses (it then constrains nothing); likewise for the score.
   */
  method BuildWhere(userId: string, q: Query, toTime: string -> Option<int>, endOfDay: int -> int) returns (w: Where)
    ensures forall s :: Matches(w, s) <==> Wanted(CriteriaOf(userId, q, toTime, endOfDay), s)
    ensures w.userId == userId
    ensures w.createdAt.Some? <==> q.dateFrom.Some? || q.dateTo.Some?
    ensures w.score.Some? <==> q.minScore.Some? || q.maxScore.Some?
  {
    var createdAt: Option<Range> := None;
    if q.dateFrom.Some? || q.dateTo.Some? {
      var range := Range(None, None);
      if q.dateFrom.Some? {
        var fromDate := toTime(q.dateFrom.value);
        if fromDate.Some? {
          range := range.(gte := fromDate);
        }
      }
      if q.dateTo.Some? {
        var toDate := toTime(q.dateTo.value);
        if toDate.Some? {
          range := range.(lte := Some(endOfDay(toDate.value)));
        }
      }
      createdAt := Some(range);
    }
    var score: Option<Range> := None;
    if q.minScore.Some? || q.maxScore.Some? {
      var range := Range(None, None);
      if q.minScore.Some? {
        range := range.(gte := IntBound(q.minScore));
      }
      if q.maxScore.Some? {
        range := range.(lte := IntBound(q.maxScore));
      }
      score := Some(range);
    }
    w := Where(userId, createdAt, score);
  }

  /** The rows a where object selects, in store order. */
  function FindAll(store: seq<Session>, w: Where): (r: seq<Session>)
    ensures |r| <= |store|
    ensures forall s :: s in r <==> s in store && Matches(w, s)
  {
    if store == [] then []
    else (if Matches(w, store[0]) then [store[0]] else []) + FindAll(store[1..], w)
  }

  /** The rows the criteria ask for, in store order. */
  function Select(store: seq<Session>, c: Criteria): (r: seq<Session>)
    ensures forall s :: s in r <==> s in store && Wanted(c, s)
  {
    if store == [] then []
    else (if Wanted(c, store[0]) then [store[0]] else []) + Select(store[1..], c)
  }

  /** A where object that means the criteria selects the same rows in the same order. */
  lemma {:induction false} SameSelection(store: seq<Session>, w: Where, c: Criteria)
    requires forall s :: Matches(w, s) <==> Wanted(c, s)
    ensures FindAll(store, w) == Select(store, c)
  {
    if store != [] {
      SameSelection(store[1..], w, c);
    }
  }

  predicate NewestFirst(ss: seq<Session>) {
    forall i, j :: 0 <= i < j < |ss| ==> ss[i].createdAt >= ss[j].createdAt
  }

  /** Selecting keeps the newest-first order of the store. */
  lemma {:induction false} SelectKeepsOrder(store: seq<Session>, c: Criteria)
    requires NewestFirst(store)
    ensures NewestFirst(Select(store, c))
  {
    if store != [] {
      SelectKeepsOrder(store[1..], c);
      var rest := Select(store[1..], c);
      var r := Select(store, c);
      if Wanted(c, store[0]) {
        forall j | 0 < j < |r| ensures r[0].createdAt >= r[j].createdAt {
          assert r[j] == rest[j - 1];
          assert rest[j - 1] in store[1..];
        }
      } else {
        assert r == rest;
      }
    }
  }

  /** Nothing makes minScore <= maxScore: crossed bounds select no session at all. */
  lemma {:induction false} CrossedScoreBoundsSelectNothing(store: seq<Session>, c: Criteria)
    requires c.minScore.Some? && c.maxScore.Some? && c.minScore.value > c.maxScore.value
    ensures Select(store, c) == []
  {
    if store != [] {
      CrossedScoreBoundsSelectNothing(store[1..], c);
    }
  }

  // ---------------------------------------------------------------------
  // Pagination
  // ---------------------------------------------------------------------

  /** skip = (page - 1)·limit, take = limit. */
  function PageOf(all: seq<Session>, page: int, limit: int): (r: seq<Session>)
    requires page >= 1 && limit >= 1
    ensures |r| <= limit
    ensures (page - 1) * limit >= |all| ==> r == []
    ensures (page - 1) * limit < |all| ==>
              r == all[(page - 1) * limit..if page * limit < |all| then page * limit else |all|]
  {
    var skip := (page - 1) * limit;
    if skip >= |all| then []
    else all[skip..if skip + limit < |all| then skip + limit else |all|]
  }

  /** A slice of a newest-first list is newest first. */
  lemma SliceKeepsOrder(all: seq<Session>, lo: int, hi: int)
    requires 0 <= lo <= hi <= |all| && NewestFirst(all)
    ensures NewestFirst(all[lo..hi])
  {
    var r := all[lo..hi];
    forall i, j | 0 <= i < j < |r| ensures r[i].createdAt >= r[j].createdAt {
      assert r[i] == all[lo + i] && r[j] == all[lo + j];
    }
  }

  /** A page of a newest-first list is newest first. */
  lemma PageKeepsOrder(all: seq<Session>, page: int, limit: int)
    requires page >= 1 && limit >= 1 && NewestFirst(all)
    ensures NewestFirst(PageOf(all, page, limit))
  {
    var skip := (page - 1) * limit;
    if skip < |all| {
      var end := if page * limit < |all| then page * limit else |all|;
      MulSucc(page - 1, limit);
      SliceKeepsOrder(all, skip, end);
    }
  }

  /** Math.ceil(totalCount / limit). */
  function TotalPages(count: nat, limit: int): (t: nat)
    requires limit >= 1
    ensures count <= t * limit
    ensures count > 0 ==> (t - 1) * limit < count
    ensures count == 0 ==> t == 0
  {
    (count + limit - 1) / limit
  }

  lemma MulMono(a: int, b: int, l: int)
    requires a <= b && l >= 0
    ensures a * l <= b * l
  {
  }

  /** There is a next page exactly when sessions remain after this one. */
  lemma HasNextIffMoreLeft(page: int, limit: int, count: nat)
    requires page >= 1 && limit >= 1
    ensures page < TotalPages(count, limit) <==> page * limit < count
  {
    var t := TotalPages(count, limit);
    if page < t {
      MulMono(page, t - 1, limit);
    } else {
      MulMono(t, page, limit);
    }
  }

  lemma MulSucc(q: int, l: int)
    ensures (q + 1) * l == q * l + l
  {
  }

  /**
   * The session at position q·limit + r (r < limit) is the r-th of page
   * q + 1, and that page exists: every selected session is on some page.
   */
  lemma EverySessionOnItsPage(all: seq<Session>, limit: int, q: nat, r: nat)
    requires limit >= 1 && r < limit && q * limit + r < |all|
    ensures 1 <= q + 1 <= TotalPages(|all|, limit)
    ensures r < |PageOf(all, q + 1, limit)| && PageOf(all, q + 1, limit)[r] == all[q * limit + r]
  {
    var skip := q * limit;
    MulSucc(q, limit);
    var t := TotalPages(|all|, limit);
    if t < q + 1 {
      MulMono(t, q, limit);
    }
    var page := PageOf(all, q + 1, limit);
    assert page == all[skip..if skip + limit < |all| then skip + limit else |all|];
  }

  // ---------------------------------------------------------------------
  // Summary and response
  // ---------------------------------------------------------------------

  function ScoresOf(ss: seq<Session>): (r: seq<int>)
    ensures |r| == |ss| && forall i :: 0 <= i < |ss| ==> r[i] == ss[i].score
  {
    if ss == [] then [] else [ss[0].score] + ScoresOf(ss[1..])
  }

  /** Math.max(...s) of a non-empty list. */
  function MaxOf(s: seq<int>): (m: int)
    requires s != []
    ensures m in s && forall x :: x in s ==> x <= m
  {
    if |s| == 1 then s[0]
    else
      var r := MaxOf(s[1..]);
      assert forall x :: x in s ==> x == s[0] || x in s[1..];
      if s[0] > r then s[0] else r
  }

  /** Math.min(...s) of a non-empty list. */
  function MinOf(s: seq<int>): (m: int)
    requires s != []
    ensures m in s && forall x :: x in s ==> m <= x
  {
    if |s| == 1 then s[0]
    else
      var r := MinOf(s[1..]);
      assert forall x :: x in s ==> x == s[0] || x in s[1..];
      if s[0] < r then s[0] else r
  }

  datatype Summary = Summary(totalSessions: nat, averageScore: real, highestScore: int, lowestScore: int)

  /**
   * The summary: the total is the filtered count; average, highest and lowest
   * are over the returned page only, and 0 for an empty page (the average
   * before its rounding to one decimal).
   */
  function SummaryOf(total: nat, page: seq<Session>): (r: Summary)
    ensures r.totalSessions == total
    ensures r.averageScore == PracticeSubmit.Mean(ScoresOf(page))
    ensures page == [] ==> r.averageScore == 0.0 && r.highestScore == 0 && r.lowestScore == 0
    ensures page != [] ==> r.lowestScore <= r.highestScore
    ensures page != [] ==> exists i :: 0 <= i < |page| && page[i].score == r.highestScore
    ensures page != [] ==> exists i :: 0 <= i < |page| && page[i].score == r.lowestScore
    ensures forall i :: 0 <= i < |page| ==> r.lowestScore <= page[i].score <= r.highestScore
  {
    var scores := ScoresOf(page);
    if page == [] then Summary(total, 0.0, 0, 0)
    else
      var hi := MaxOf(scores);
      var lo := MinOf(scores);
      assert forall i :: 0 <= i < |page| ==> scores[i] in scores;
      Summary(total, PracticeSubmit.Mean(scores), hi, lo)
  }

  datatype Pagination = Pagination(currentPage: int, totalPages: nat, totalCount: nat, limit: int,
                                    hasNextPage: bool, hasPreviousPage: bool)

  /** The echoed filters; None is null. */
  datatype Filters = Filters(dateFrom: Option<string>, dateTo: Option<string>, minScore: Option<int>, maxScore: Option<int>)

  datatype HistoryResponse =
    | Unauthorized                 // 401, "Authentication required"
    | InternalError                // 500, "Internal server error"
    | History(sessions: seq<Session>, pagination: Pagination, filters: Filters, summary: Summary)

  /** A NaN page, limit or score bound, which the store refuses as a query argument. */
  predicate HasNaN(q: Query): (b: bool)
    ensures !b ==> q.page.Int? && q.limit.Int?
                   && (q.minScore.Some? ==> q.minScore.value.Int?) && (q.maxScore.Some? ==> q.maxScore.value.Int?)
  {
    q.page.NaN? || q.limit.NaN? || q.minScore == Some(NaN) || q.maxScore == Some(NaN)
  }

  /** A parameter given in the URL whose text parseInt cannot read. */
  predicate Unreadable(v: Option<string>) {
    Present(v).Some? && ParseIntJs(Present(v).value).None?
  }

  /** The parsed query holds a NaN exactly when one of the four numeric parameters is unreadable. */
  lemma NaNExactlyWhenUnreadable(raw: RawParams)
    ensures HasNaN(ParseQuery(raw)) <==>
              Unreadable(raw.page) || Unreadable(raw.limit) || Unreadable(raw.minScore) || Unreadable(raw.maxScore)
  {
    DefaultsRead();
  }

  /**
   * GET /api/user/history. `store` is the session table in the createdAt
   * descending order the query asks for; `toTime` stands for
   * `new Date(s).getTime()` (None for NaN) and `endOfDay` for
   * `setHours(23, 59, 59, 999)`.
   */
  method GetHistory(userId: Option<string>, raw: RawParams, store: seq<Session>,
                    toTime: string -> Option<int>, endOfDay: int -> int) returns (resp: HistoryResponse)
    ensures resp == Unauthorized <==> !PracticeSubmit.SignedIn(userId)
    ensures resp == InternalError <==> PracticeSubmit.SignedIn(userId) && HasNaN(ParseQuery(raw))
    ensures resp.History? ==>
              var q := ParseQuery(raw);
              var page := q.page.value;
              var limit := q.limit.value;
              var all := Select(store, CriteriaOf(userId.value, q, toTime, endOfDay));
              && resp.sessions == PageOf(all, page, limit)
              && resp.pagination == Pagination(page, TotalPages(|all|, limit), |all|, limit,
                                               page < TotalPages(|all|, limit), page > 1)
              && resp.filters == Filters(Present(raw.dateFrom), Present(raw.dateTo), IntBound(q.minScore), IntBound(q.maxScore))
              && resp.summary == SummaryOf(|all|, resp.sessions)
  {
    if !PracticeSubmit.SignedIn(userId) {
      return Unauthorized;
    }
    var validatedParams := ParseQuery(raw);
    var whereConditions := BuildWhere(userId.value, validatedParams, toTime, endOfDay);
    if HasNaN(validatedParams) {
      return InternalError;
    }
    var page := validatedParams.page.value;
    var limit := validatedParams.limit.value;
    var matching := FindAll(store, whereConditions);
    SameSelection(store, whereConditions, CriteriaOf(userId.value, validatedParams, toTime, endOfDay));
    var totalCount := |matching|;
    var sessions := PageOf(matching, page, limit);
    var totalPages := TotalPages(totalCount, limit);
    resp := History(
      sessions,
      Pagination(page, totalPages, totalCount, limit, page < totalPages, page > 1),
      Filters(validatedParams.dateFrom, validatedParams.dateTo, IntBound(validatedParams.minScore), IntBound(validatedParams.maxScore)),
      SummaryOf(totalCount, sessions));
  }
}
