/** GET events: a page is the longest stretch of the log after a cursor that fits the limits, so a client
    that polls with the returned cursor sees every event once, in order, and catches up. */
module EventPaging {
  import opened JournalTables
  import opened JournalWords
  import opened JournalProtocol
  import opened JournalGrowth
  import opened JournalTheorems

  const RESPONSE_MAX_BYTES: nat := 4 * 1024 * 1024
  const PAGE_BYTES: nat := RESPONSE_MAX_BYTES - 1024
  const BODY_MAX_BYTES: nat := RESPONSE_MAX_BYTES / 2
  const DEFAULT_LIMIT: nat := 100
  const MAX_LIMIT: nat := 500

  // A query parameter: absent, not a number, or a number.
  datatype Arg = Absent | Malformed | Given(value: int)

  datatype PageReply = InvalidQuery | Page(events: seq<Event>, lastEventSeq: nat)

  // The encoded length of an event. Bodies are immutable, so it depends on the event alone.
  type Size = Event -> nat

  function TotalSize(events: seq<Event>, size: Size): nat {
    if events == [] then 0 else TotalSize(events[..|events| - 1], size) + size(events[|events| - 1])
  }

  // SELECT ... WHERE seq > after ORDER BY seq LIMIT limit, on rows stored in sequence order.
  function Select(log: seq<Event>, after: nat, limit: nat): seq<Event> {
    if log == [] || limit == 0 then []
    else if log[0].number > after then [log[0]] + Select(log[1..], after, limit - 1)
    else Select(log[1..], after, limit)
  }

  // The longest prefix whose encoding fits the budget.
  function Fit(rows: seq<Event>, budget: nat, size: Size): seq<Event> {
    if rows == [] || size(rows[0]) > budget then []
    else [rows[0]] + Fit(rows[1..], budget - size(rows[0]), size)
  }

  function PageAfter(log: seq<Event>, after: nat, limit: nat, size: Size): seq<Event> {
    Fit(Select(log, after, limit), PAGE_BYTES, size)
  }

  function AfterArg(after: Arg): int {
    if after.Given? then after.value else if after.Absent? then 0 else -1
  }

  function LimitArg(limit: Arg): int {
    if limit.Given? then limit.value else if limit.Absent? then DEFAULT_LIMIT else -1
  }

  // The numbers of the interface: without parameters the first hundred events, at most five hundred, in pages
  // of four megabytes less a margin, of bodies of at most half that.
  lemma {:induction false} QueryDefaults(n: int)
    ensures AfterArg(Absent) == 0 && AfterArg(Given(n)) == n && AfterArg(Malformed) < 0
    ensures LimitArg(Absent) == 100 && LimitArg(Given(n)) == n && LimitArg(Malformed) < 1 && MAX_LIMIT == 500
    ensures PAGE_BYTES == 4194304 - 1024 && BODY_MAX_BYTES == 2097152
  {
  }

  // The first k rows were taken, with a total size of used.
  predicate Took(rows: seq<Event>, events: seq<Event>, k: nat, used: nat, size: Size) {
    && k <= |rows| && used <= PAGE_BYTES
    && Fit(rows, PAGE_BYTES, size) == events + Fit(rows[k..], PAGE_BYTES - used, size)
  }

  lemma {:induction false} TookNothing(rows: seq<Event>, size: Size)
    ensures Took(rows, [], 0, 0, size)
  {
    assert rows[0..] == rows;
  }

  // The next row is taken if it fits; if it does not, or there is none, the page is complete.
  lemma {:induction false} TookOneMore(rows: seq<Event>, events: seq<Event>, k: nat, used: nat, size: Size)
    requires Took(rows, events, k, used, size)
    ensures k < |rows| && used + size(rows[k]) <= PAGE_BYTES ==> Took(rows, events + [rows[k]], k + 1, used + size(rows[k]), size)
    ensures k == |rows| || used + size(rows[k]) > PAGE_BYTES ==> events == Fit(rows, PAGE_BYTES, size)
  {
    if k < |rows| {
      assert rows[k..][0] == rows[k] && rows[k..][1..] == rows[k + 1..];
    }
  }

  method Events(log: seq<Event>, after: Arg, limit: Arg, size: Size) returns (reply: PageReply)
    ensures reply == InvalidQuery <==> AfterArg(after) < 0 || LimitArg(limit) < 1 || LimitArg(limit) > MAX_LIMIT
    ensures reply.Page? ==> reply.events == PageAfter(log, AfterArg(after), LimitArg(limit), size)
    ensures reply.Page? ==>
      reply.lastEventSeq == if reply.events == [] then AfterArg(after) else reply.events[|reply.events| - 1].number
  {
    var from, most := 0, 100;
    if !after.Absent? {
      if after.Malformed? || after.value < 0 {
        return InvalidQuery;
      }
      from := after.value;
    }
    if !limit.Absent? {
      if limit.Malformed? || limit.value < 1 || limit.value > 500 {
        return InvalidQuery;
      }
      most := limit.value;
    }
    hide Fit, Select, Took;
    var rows := Select(log, from, most);
    var events: seq<Event>, last, used := [], from, 0;
    var k := 0;
    TookNothing(rows, size);
    while k < |rows|
      invariant 0 <= k <= |rows| && 0 <= used && Took(rows, events, k, used, size)
      invariant last == if events == [] then from else events[|events| - 1].number
    {
      TookOneMore(rows, events, k, used, size);
      if used + size(rows[k]) > RESPONSE_MAX_BYTES - 1024 {
        break;
      }
      used := used + size(rows[k]);
      events := events + [rows[k]];
      last := rows[k].number;
      k := k + 1;
    }
    TookOneMore(rows, events, k, used, size);
    reply := Page(events, last);
  }

  // ---- on a log numbered 1, 2, 3, ... ----

  predicate IsNumbered(log: seq<Event>, from: nat) {
    forall i :: 0 <= i < |log| ==> log[i].number == from + i + 1
  }

  function Min(a: int, b: int): int {
    if a < b then a else b
  }

  lemma {:induction false} SelectIsSlice(log: seq<Event>, from: nat, after: nat, limit: nat)
    requires IsNumbered(log, from)
    ensures var start := if after <= from then 0 else Min(after - from, |log|);
      Select(log, after, limit) == log[start..Min(start + limit, |log|)]
  {
    if log != [] && limit > 0 {
      assert IsNumbered(log[1..], from + 1);
      var start := if after <= from then 0 else Min(after - from, |log|);
      if log[0].number > after {
        SelectIsSlice(log[1..], from + 1, after, limit - 1);
        var end := Min(limit, |log|);
        assert Select(log[1..], after, limit - 1) == log[1..][..end - 1];
        assert log[..end] == [log[0]] + log[1..][..end - 1];
      } else {
        SelectIsSlice(log[1..], from + 1, after, limit);
        assert log[start..Min(start + limit, |log|)] == log[1..][start - 1..Min(start + limit, |log|) - 1];
      }
    }
  }

  lemma {:induction false} TotalSizeFirst(first: Event, rest: seq<Event>, size: Size)
    ensures TotalSize([first] + rest, size) == size(first) + TotalSize(rest, size)
  {
    if rest == [] {
      assert [first] + rest == [first];
      assert [first][..0] == [];
    } else {
      TotalSizeFirst(first, rest[..|rest| - 1], size);
      assert ([first] + rest)[..|rest|] == [first] + rest[..|rest| - 1];
    }
  }

  // Fit is a prefix within the budget, and the next row, if any, would not fit.
  lemma {:induction false} FitIsLongestPrefix(rows: seq<Event>, budget: nat, size: Size)
    ensures var page := Fit(rows, budget, size);
      && page <= rows && TotalSize(page, size) <= budget
      && (page != rows ==> TotalSize(page, size) + size(rows[|page|]) > budget)
  {
    if rows != [] && size(rows[0]) <= budget {
      FitIsLongestPrefix(rows[1..], budget - size(rows[0]), size);
      TotalSizeFirst(rows[0], Fit(rows[1..], budget - size(rows[0]), size), size);
    }
  }

  /** A page is the stretch of the log right after the cursor; it respects the limit and the byte cap, and
      stops early only at the end of the log, at the limit, or before an event that does not fit. */
  lemma {:induction false} PageIsStretch(log: seq<Event>, after: nat, limit: nat, size: Size)
    requires IsNumbered(log, 0) && after <= |log|
    ensures var page := PageAfter(log, after, limit, size);
      && after + |page| <= |log| && page == log[after..after + |page|]
      && |page| <= limit && TotalSize(page, size) <= PAGE_BYTES
      && (after + |page| < |log| && |page| < limit ==> TotalSize(page, size) + size(log[after + |page|]) > PAGE_BYTES)
      && (page != [] ==> page[|page| - 1].number == after + |page|)
  {
    hide Select, Fit, TotalSize;
    SelectIsSlice(log, 0, after, limit);
    FitIsLongestPrefix(Select(log, after, limit), PAGE_BYTES, size);
  }

  /** A page makes progress exactly when the next event exists and fits a response by itself. */
  lemma {:induction false} PageProgress(log: seq<Event>, after: nat, limit: nat, size: Size)
    requires IsNumbered(log, 0) && limit >= 1
    ensures PageAfter(log, after, limit, size) != [] <==> after < |log| && size(log[after]) <= PAGE_BYTES
  {
    SelectIsSlice(log, 0, after, limit);
  }

  // A stored body is at most half the response limit; `envelope` bounds what is written around it.
  predicate BodiesBounded(log: seq<Event>, size: Size, envelope: nat) {
    forall i :: 0 <= i < |log| ==> size(log[i]) <= BODY_MAX_BYTES + envelope
  }

  // ---- a polling client ----

  // Polling log with one limit until nothing more comes: everything collected from the cursor on.
  function CatchUp(log: seq<Event>, cursor: nat, limit: nat, size: Size): seq<Event>
    requires IsNumbered(log, 0) && limit >= 1 && cursor <= |log|
    decreases |log| - cursor
  {
    var page := PageAfter(log, cursor, limit, size);
    if page == [] then []
    else
      assert cursor + |page| <= |log| by { PageIsStretch(log, cursor, limit, size); }
      page + CatchUp(log, cursor + |page|, limit, size)
  }

  /** With bodies within their bound a client that keeps polling a quiet log gets all of it. */
  lemma {:induction false} CatchUpGetsAll(log: seq<Event>, cursor: nat, limit: nat, size: Size, envelope: nat)
    requires IsNumbered(log, 0) && limit >= 1 && cursor <= |log|
    requires BodiesBounded(log, size, envelope) && envelope <= PAGE_BYTES - BODY_MAX_BYTES
    ensures CatchUp(log, cursor, limit, size) == log[cursor..]
    decreases |log| - cursor
  {
    PageIsStretch(log, cursor, limit, size);
    PageProgress(log, cursor, limit, size);
    var page := PageAfter(log, cursor, limit, size);
    if page != [] {
      CatchUpGetsAll(log, cursor + |page|, limit, size, envelope);
      assert log[cursor..] == log[cursor..cursor + |page|] + log[cursor + |page|..];
    }
  }

  // The pages of a client that polls a growing log: poll k sees logs[k] and asks for at most limits[k].
  function Collected(logs: seq<seq<Event>>, limits: seq<nat>, cursor: nat, size: Size): (seq<Event>, nat)
    requires |logs| == |limits|
  {
    if logs == [] then ([], cursor)
    else
      var (before, at) := Collected(logs[..|logs| - 1], limits[..|limits| - 1], cursor, size);
      var page := PageAfter(logs[|logs| - 1], at, limits[|limits| - 1], size);
      (before + page, if page == [] then at else page[|page| - 1].number)
  }

  predicate OnlyGrows(logs: seq<seq<Event>>) {
    && (forall k :: 0 <= k < |logs| ==> IsNumbered(logs[k], 0))
    && (forall j, k :: 0 <= j < k < |logs| ==> logs[j] <= logs[k])
  }

  /** While others append, what a polling client has collected is exactly the log from where it began up
      to its cursor: every event once and in order, whatever the limits and whenever the polls. */
  lemma {:induction false} PollingSeesEachOnce(logs: seq<seq<Event>>, limits: seq<nat>, start: nat, size: Size)
    requires |logs| == |limits| > 0 && OnlyGrows(logs) && start <= |logs[0]|
    ensures var (events, cursor) := Collected(logs, limits, start, size);
      start <= cursor <= |logs[|logs| - 1]| && events == logs[|logs| - 1][start..cursor]
  {
    hide PageAfter;
    var n := |logs| - 1;
    var front := logs[..n];
    var (before, at) := Collected(front, limits[..n], start, size);
    if n > 0 {
      PollingSeesEachOnce(front, limits[..n], start, size);
      assert logs[n - 1] <= logs[n];
      PrefixSlice(logs[n - 1], logs[n], start, at);
    }
    PageIsStretch(logs[n], at, limits[n], size);
    SlicesJoin(logs[n], start, at, at + |PageAfter(logs[n], at, limits[n], size)|);
  }

  lemma {:induction false} PrefixSlice(log: seq<Event>, longer: seq<Event>, i: nat, j: nat)
    requires log <= longer && i <= j <= |log|
    ensures log[i..j] == longer[i..j]
  {
  }

  lemma {:induction false} SlicesJoin(log: seq<Event>, i: nat, j: nat, k: nat)
    requires i <= j <= k <= |log|
    ensures log[i..j] + log[j..k] == log[i..k]
  {
  }

  /** The journal's own logs are such logs: at any two moments of any run of the protocol. */
  lemma {:induction false} JournalLogsOnlyGrow(steps: seq<Step>, more: seq<Step>, s: SessionId)
    requires s in After(steps).db.sessions
    ensures s in After(steps + more).db.sessions
    ensures OnlyGrows([After(steps).db.sessions[s].log, After(steps + more).db.sessions[s].log])
  {
    hide After, WordsOf, Write, WellFormed;
    HistoryGrows(steps, more);
    assert SessionGrows(After(steps).db.sessions[s], After(steps + more).db.sessions[s]);
    LogFollowsGrammar(steps, s);
    LogFollowsGrammar(steps + more, s);
  }

  // The log of session s at each of the moments of one run.
  function LogsAt(steps: seq<Step>, s: SessionId, moments: seq<nat>): seq<seq<Event>>
    requires forall k :: 0 <= k < |moments| ==> moments[k] <= |steps| && s in After(steps[..moments[k]]).db.sessions
  {
    seq(|moments|, k requires 0 <= k < |moments| => After(steps[..moments[k]]).db.sessions[s].log)
  }

  /** Polling the journal itself: at any moments of any run, what a client has collected is exactly the
      session's log from where it began up to its cursor. */
  lemma {:induction false} JournalPollingSeesEachOnce(steps: seq<Step>, s: SessionId, moments: seq<nat>, limits: seq<nat>, start: nat, size: Size)
    requires |moments| == |limits| > 0
    requires forall k :: 0 <= k < |moments| ==> moments[k] <= |steps| && s in After(steps[..moments[k]]).db.sessions
    requires forall j, k :: 0 <= j < k < |moments| ==> moments[j] <= moments[k]
    requires start <= |After(steps[..moments[0]]).db.sessions[s].log|
    ensures var logs := LogsAt(steps, s, moments);
      var (events, cursor) := Collected(logs, limits, start, size);
      start <= cursor <= |logs[|logs| - 1]| && events == logs[|logs| - 1][start..cursor]
  {
    hide After, Collected, WordsOf, Write, WellFormed;
    var logs := LogsAt(steps, s, moments);
    forall k | 0 <= k < |logs| ensures IsNumbered(logs[k], 0) {
      LogFollowsGrammar(steps[..moments[k]], s);
    }
    forall j, k | 0 <= j < k < |logs| ensures logs[j] <= logs[k] {
      var early, late := steps[..moments[j]], steps[..moments[k]];
      assert early + steps[moments[j]..moments[k]] == late;
      JournalLogsOnlyGrow(early, steps[moments[j]..moments[k]], s);
      var pair := [After(early).db.sessions[s].log, After(late).db.sessions[s].log];
      assert pair[0] <= pair[1];
    }
    PollingSeesEachOnce(logs, limits, start, size);
  }
}
