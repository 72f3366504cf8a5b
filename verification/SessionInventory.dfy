/**
 The offset collector behind the session inventory. Its answer is authoritative for clients unless it is
 marked truncated, so the properties are about what an unmarked answer is worth, whatever the upstream
 sends. An answer that fails, is late or is over the byte budget is `Unavailable`.
 */
module SessionInventories {
  import opened Outcomes

  const UPSTREAM_PAGE_SIZE := 100
  const MAX_SESSION_PAGES := 20
  const MAX_SESSION_ROWS := UPSTREAM_PAGE_SIZE * MAX_SESSION_PAGES

  datatype Row = NotARecord | Record(id: Option<string>, profile: Option<string>)
  datatype Total = Missing | Unreadable | Reported(rows: nat)

  /** `errors` lists the profiles that failed upstream; None when it is not a list of records. */
  datatype Answer = Unavailable | Malformed | Page(rows: seq<Row>, total: Total, errors: Option<seq<Option<string>>>)

  datatype Collection = Collection(rows: seq<Row>, total: Option<nat>, truncated: bool, partialFailures: nat)

  predicate Named(row: Row) {
    row.Record? && row.id.Some? && row.profile.Some?
  }

  function KeyOf(row: Row): string
    requires Named(row)
  {
    row.profile.value + "\0" + row.id.value
  }

  /** Rows that name a session, no two of them the same one. */
  ghost predicate DistinctSessions(rows: seq<Row>) {
    && (forall i :: 0 <= i < |rows| ==> Named(rows[i]))
    && (forall i, j :: 0 <= i < j < |rows| ==> KeyOf(rows[i]) != KeyOf(rows[j]))
  }

  ghost predicate SeenAre(seen: set<string>, rows: seq<Row>) {
    && DistinctSessions(rows)
    && (forall key :: key in seen <==> exists i :: 0 <= i < |rows| && KeyOf(rows[i]) == key)
  }

  function AtMost(n: nat, max: nat): nat { if n <= max then n else max }

  function Records(rows: seq<Row>): seq<Row> {
    if rows == [] then []
    else (if rows[0].Record? then [rows[0]] else []) + Records(rows[1..])
  }

  lemma {:induction false} RecordsAre(rows: seq<Row>)
    ensures |Records(rows)| <= |rows| && (|Records(rows)| == |rows| ==> Records(rows) == rows)
    ensures forall i :: 0 <= i < |Records(rows)| ==> Records(rows)[i].Record?
    ensures (forall i :: 0 <= i < |rows| ==> rows[i].Record?) ==> Records(rows) == rows
  {
    if rows != [] { RecordsAre(rows[1..]); }
  }

  lemma SeenMore(seen: set<string>, rows: seq<Row>, row: Row)
    requires SeenAre(seen, rows) && Named(row) && KeyOf(row) !in seen
    ensures SeenAre(seen + {KeyOf(row)}, rows + [row])
  {
    var rows' := rows + [row];
    forall key ensures key in seen + {KeyOf(row)} <==> exists i :: 0 <= i < |rows'| && KeyOf(rows'[i]) == key {
      if key == KeyOf(row) { assert KeyOf(rows'[|rows|]) == key; }
      if key in seen { var i :| 0 <= i < |rows| && KeyOf(rows[i]) == key; assert rows'[i] == rows[i]; }
    }
  }

  lemma NextIsNew(rows: seq<Row>, page: seq<Row>, i: nat)
    requires DistinctSessions(rows + page) && i < |page|
    ensures Named(page[i])
    ensures forall j :: 0 <= j < |rows| + i ==> Named((rows + page[..i])[j]) && KeyOf((rows + page[..i])[j]) != KeyOf(page[i])
  {
    assert (rows + page)[|rows| + i] == page[i];
    assert forall j :: 0 <= j < |rows| + i ==> (rows + page)[j] == (rows + page[..i])[j];
  }

  /** Adds the rows of one page that name a new session; every other one is a failure. */
  method AddRows(rows: seq<Row>, seen: set<string>, page: seq<Row>) returns (rows': seq<Row>, seen': set<string>, failures: nat)
    requires SeenAre(seen, rows) && |rows| < MAX_SESSION_ROWS && forall i :: 0 <= i < |page| ==> page[i].Record?
    ensures SeenAre(seen', rows') && rows <= rows' && |rows'| <= MAX_SESSION_ROWS
    ensures failures == 0 ==> |rows'| == AtMost(|rows| + |page|, MAX_SESSION_ROWS) && rows' == rows + page[..|rows'| - |rows|]
    ensures DistinctSessions(rows + page) ==> failures == 0
  {
    rows', seen', failures := rows, seen, 0;
    for i := 0 to |page|
      invariant SeenAre(seen', rows') && rows <= rows' && |rows'| < MAX_SESSION_ROWS
      invariant failures == 0 ==> rows' == rows + page[..i]
      invariant DistinctSessions(rows + page) ==> failures == 0
    {
      var row := page[i];
      if DistinctSessions(rows + page) { NextIsNew(rows, page, i); }
      if row.id.None? || row.profile.None? {
        failures := failures + 1;
        continue;
      }
      if KeyOf(row) in seen' {
        failures := failures + 1;
        continue;
      }
      SeenMore(seen', rows', row);
      seen', rows' := seen' + {KeyOf(row)}, rows' + [row];
      if |rows'| == MAX_SESSION_ROWS { break; }
    }
  }

  /** What the totals reported so far say, as long as they do not contradict one another. */
  ghost predicate TotalsAgree(totals: seq<Total>, total: Option<nat>, offset: nat) {
    if total.Some? then offset <= total.value && forall i :: 0 <= i < |totals| ==> totals[i] == Reported(total.value)
    else forall i :: 0 <= i < |totals| ==> totals[i] == Missing
  }

  /** An answer that is not marked truncated had no failure and holds the rows as they were sent, up to the
      row limit; if a total was reported then every page reported it and the rows are that many. */
  ghost predicate Authoritative(c: Collection, wire: seq<Row>, totals: seq<Total>, small: bool) {
    && c.partialFailures == 0 && c.rows == wire[..AtMost(|wire|, MAX_SESSION_ROWS)]
    && (c.total.Some? ==> (
          && (forall i :: 0 <= i < |totals| ==> totals[i] == Reported(c.total.value))
          && |c.rows| == AtMost(c.total.value, MAX_SESSION_ROWS)
          && (small ==> |c.rows| == c.total.value)))
  }

  /** The running account of the reported totals. */
  datatype Totals = Totals(total: Option<nat>, previous: Option<nat>, sawReported: bool, sawMissing: bool)

  ghost predicate Tallied(t: Totals, totals: seq<Total>, offset: nat) {
    && TotalsAgree(totals, t.total, offset) && t.previous == t.total
    && t.sawReported == t.total.Some? && t.sawMissing == (totals != [] && t.total.None?)
  }

  /** Takes one page's total into account; a contradiction is flagged, and without one the account stands. */
  method TakeTotal(t: Totals, reported: Total, pageEnd: nat, ghost totals: seq<Total>, ghost offset: nat)
    returns (t': Totals, inconsistent: bool)
    requires offset <= pageEnd
    ensures !inconsistent && Tallied(t, totals, offset) ==>
      Tallied(t', totals + [reported], pageEnd) && t'.total == if reported.Reported? then Some(reported.rows) else None
    ensures reported.Reported? ==> t'.total == Some(if t.total.Some? && t.total.value > reported.rows then t.total.value else reported.rows)
    ensures !reported.Reported? ==> t'.total == t.total
    ensures inconsistent <==>
      || reported.Unreadable? || (reported.Missing? && t.sawReported)
      || (reported.Reported? && (t.sawMissing || (t.previous.Some? && reported.rows != t.previous.value) || reported.rows < pageEnd))
  {
    if !reported.Reported? {
      inconsistent := reported != Missing || t.sawReported;
      t' := t.(sawMissing := true);
    } else {
      inconsistent := t.sawMissing || (t.previous.Some? && reported.rows != t.previous.value) || reported.rows < pageEnd;
      t' := Totals(Some(if t.total.Some? && t.total.value > reported.rows then t.total.value else reported.rows),
                   Some(reported.rows), true, t.sawMissing);
    }
  }

  function FailedProfiles(errors: seq<Option<string>>): set<string> {
    set i | 0 <= i < |errors| :: if errors[i].Some? then errors[i].value else "unknown"
  }

  lemma NoneFailed()
    ensures FailedProfiles([]) == {}
  {
  }

  /** A page that came names this profile among those that failed upstream; an entry without a name counts as one. */
  predicate NamesFailed(answer: Answer, profile: string) {
    answer.Page? && answer.errors.Some?
    && exists i :: 0 <= i < |answer.errors.value| && Naming(answer.errors.value[i], profile)
  }

  predicate Naming(entry: Option<string>, profile: string) {
    entry == Some(profile) || (entry.None? && profile == "unknown")
  }

  /** The failed profiles are those that one of the pages names. */
  ghost predicate FailuresNamed(answers: nat -> Answer, n: nat, failed: set<string>) {
    forall profile :: profile in failed <==> exists i :: 0 <= i < n && NamesFailed(answers(i), profile)
  }

  lemma FailuresNext(answers: nat -> Answer, n: nat, failed: set<string>, failed': set<string>)
    requires FailuresNamed(answers, n, failed)
    requires failed' == failed + if answers(n).Page? && answers(n).errors.Some? then FailedProfiles(answers(n).errors.value) else {}
    ensures FailuresNamed(answers, n + 1, failed')
  {
    forall profile ensures profile in failed' <==> exists i :: 0 <= i < n + 1 && NamesFailed(answers(i), profile) {
      if profile in failed' && profile !in failed {
        var errors := answers(n).errors.value;
        var j :| 0 <= j < |errors| && profile == if errors[j].Some? then errors[j].value else "unknown";
        assert Naming(errors[j], profile) && NamesFailed(answers(n), profile);
      }
      if i :| 0 <= i < n + 1 && NamesFailed(answers(i), profile) { if i < n { assert profile in failed; } }
    }
  }

  lemma NoneNamed(answers: nat -> Answer, n: nat, failed: set<string>, i: nat)
    requires FailuresNamed(answers, n, failed) && failed == {} && i < n && answers(i).Page? && answers(i).errors.Some?
    ensures answers(i).errors == Some([])
  {
    var errors := answers(i).errors.value;
    var profile := if errors != [] && errors[0].Some? then errors[0].value else "unknown";
    assert errors != [] ==> Naming(errors[0], profile);
    assert errors != [] ==> NamesFailed(answers(i), profile);
    assert profile in failed <==> exists j :: 0 <= j < n && NamesFailed(answers(j), profile);
  }

  /** What the collector knows after some pages. */
  datatype Progress = Progress(
    rows: seq<Row>, seen: set<string>, failedProfiles: set<string>, offset: nat, t: Totals, truncated: bool,
    inconsistent: bool, requestFailures: nat, rowFailures: nat, totalFailures: nat)

  /** While nothing failed, every wire row was taken, up to the row limit. */
  ghost predicate Sofar(p: Progress, wire: seq<Row>, totals: seq<Total>, small: bool) {
    && SeenAre(p.seen, p.rows) && |p.rows| <= MAX_SESSION_ROWS
    && (p.requestFailures > 0 || p.totalFailures > 0 || p.inconsistent ==> p.truncated)
    && |wire| == p.offset && (!p.truncated && p.rowFailures == 0 ==> p.rows == wire[..AtMost(|wire|, MAX_SESSION_ROWS)])
    && (!p.truncated ==> Tallied(p.t, totals, p.offset)) && (small ==> p.offset <= UPSTREAM_PAGE_SIZE * |totals|)
  }

  /** A page as it should be. */
  ghost predicate Orderly(answer: Answer, total: nat) {
    && answer.Page? && answer.rows != [] && answer.total == Reported(total) && answer.errors == Some([])
    && (forall i :: 0 <= i < |answer.rows| ==> Named(answer.rows[i]))
  }

  /** Nothing has gone wrong so far. */
  ghost predicate Unharmed(p: Progress, total: nat) {
    && !p.truncated && !p.inconsistent && p.requestFailures == p.rowFailures == p.totalFailures == 0 && p.failedProfiles == {}
    && !p.t.sawMissing && (p.t.previous.Some? ==> p.t.previous.value == total) && (p.t.total.Some? ==> p.t.total.value == total)
  }

  function FailedAfter(failed: set<string>, answer: Answer): set<string> {
    failed + if answer.Page? && answer.errors.Some? then FailedProfiles(answer.errors.value) else {}
  }

  /** A page as it should be, of an upstream that reports no totals. */
  ghost predicate Untold(answer: Answer) {
    && answer.Page? && answer.total == Missing && answer.errors == Some([])
    && (forall i :: 0 <= i < |answer.rows| ==> Named(answer.rows[i]))
  }

  /** Nothing has gone wrong so far, and no total was reported. */
  ghost predicate Plain(p: Progress) {
    && !p.truncated && !p.inconsistent && p.requestFailures == p.rowFailures == p.totalFailures == 0 && p.failedProfiles == {}
    && !p.t.sawReported && p.t.total.None? && p.t.previous.None?
  }

  /** The failures a page brings besides its rows: entries that are no records, a total that contradicts
      the others, an error list that is none. */
  method CheckPage(p: Progress, answer: Answer, ghost wire: seq<Row>, ghost totals: seq<Total>, ghost small: bool, ghost total: nat)
    returns (p': Progress)
    requires Sofar(p, wire, totals, small) && answer.Page?
    ensures p'.rows == p.rows && p'.seen == p.seen && p'.offset == p.offset && p'.rowFailures == p.rowFailures
    ensures p'.requestFailures > 0 || p'.totalFailures > 0 || p'.inconsistent ==> p'.truncated
    ensures !p'.truncated ==> !p.truncated && |Records(answer.rows)| == |answer.rows| && answer.errors.Some?
    ensures !p'.truncated ==>
      && Tallied(p'.t, totals + [answer.total], p.offset + |answer.rows|)
      && p'.t.total == if answer.total.Reported? then Some(answer.total.rows) else None
    ensures p'.failedProfiles == FailedAfter(p.failedProfiles, answer)
    ensures Plain(p) && Untold(answer) ==> Plain(p')
    ensures p'.truncated ==>
      || p.truncated || p'.requestFailures > p.requestFailures || p'.totalFailures > p.totalFailures
    ensures Unharmed(p, total) && Orderly(answer, total) && p.offset + |answer.rows| <= total ==>
      Unharmed(p', total) && p'.t.total == Some(total)
  {
    RecordsAre(answer.rows);
    NoneFailed();
    hide SeenAre, Tallied, Records, FailedProfiles;
    p' := p;
    if |Records(answer.rows)| != |answer.rows| { p' := p'.(truncated := true, requestFailures := p'.requestFailures + 1); }
    var t', inconsistent := TakeTotal(p.t, answer.total, p.offset + |answer.rows|, totals, p.offset);
    p' := p'.(t := t');
    if inconsistent { p' := p'.(inconsistent := true, truncated := true, totalFailures := p'.totalFailures + 1); }
    if answer.errors.None? {
      p' := p'.(truncated := true, requestFailures := p'.requestFailures + 1);
    } else {
      p' := p'.(failedProfiles := p'.failedProfiles + FailedProfiles(answer.errors.value));
    }
  }

  /** An orderly page that continues the rows so far, and ends the history if it is the last or fills the limit. */
  ghost predicate Fitting(p: Progress, answer: Answer, last: bool, total: nat) {
    && Orderly(answer, total) && DistinctSessions(p.rows + answer.rows) && p.offset + |answer.rows| <= total
    && (last || |p.rows| + |answer.rows| >= MAX_SESSION_ROWS ==> p.offset + |answer.rows| == total)
  }

  /** The same of an upstream that reports no totals: only a page that is not full can be the last. */
  ghost predicate FittingUntold(p: Progress, answer: Answer, last: bool) {
    && Untold(answer) && DistinctSessions(p.rows + answer.rows) && |p.rows| + |answer.rows| <= MAX_SESSION_ROWS
    && (last || |p.rows| + |answer.rows| == MAX_SESSION_ROWS ==> |answer.rows| < UPSTREAM_PAGE_SIZE)
  }

  /** One page; `last` says that no further one would be asked for. */
  method TakePage(p: Progress, answer: Answer, last: bool,
                  ghost wire: seq<Row>, ghost totals: seq<Total>, ghost small: bool, ghost total: nat)
    returns (p': Progress, more: bool)
    requires Sofar(p, wire, totals, small) && |p.rows| < MAX_SESSION_ROWS && answer.Page?
    ensures Sofar(p', wire + answer.rows, totals + [answer.total], small && |answer.rows| <= UPSTREAM_PAGE_SIZE)
    ensures more && !p'.truncated ==> !last && |p'.rows| < MAX_SESSION_ROWS
    ensures !more && !p'.truncated && p'.t.total.Some? ==> p'.t.total.value <= p'.offset
    ensures !more && !p'.truncated && p'.t.total.None? ==> |answer.rows| < UPSTREAM_PAGE_SIZE
    ensures p'.failedProfiles == FailedAfter(p.failedProfiles, answer) && (!p'.truncated ==> !p.truncated && answer.errors.Some?)
    ensures Plain(p) && FittingUntold(p, answer, last) ==>
      Plain(p') && p'.rows == p.rows + answer.rows && (more <==> |answer.rows| >= UPSTREAM_PAGE_SIZE)
    ensures Unharmed(p, total) && Fitting(p, answer, last, total) ==>
      && Unharmed(p', total) && p'.t.total == Some(total) && (more <==> p'.offset < total)
      && p'.offset == p.offset + |answer.rows|
      && p'.rows == (p.rows + answer.rows)[..AtMost(|p.rows| + |answer.rows|, MAX_SESSION_ROWS)]
  {
    hide SeenAre, Tallied, Records;
    RecordsAre(answer.rows);
    p' := CheckPage(p, answer, wire, totals, small, total);
    var rows, seen, failures := AddRows(p'.rows, p'.seen, Records(answer.rows));
    p' := p'.(rows := rows, seen := seen, rowFailures := p'.rowFailures + failures);
    if |answer.rows| == 0 {
      if p'.t.total.Some? && p'.t.total.value > p'.offset {
        p' := p'.(truncated := true, requestFailures := p'.requestFailures + 1);
      }
      return p', false;
    }
    p' := p'.(offset := p'.offset + |answer.rows|);
    more := if !p'.inconsistent && answer.total.Reported? then p'.offset < answer.total.rows else |answer.rows| >= UPSTREAM_PAGE_SIZE;
    if more && (last || |p'.rows| == MAX_SESSION_ROWS) { p' := p'.(truncated := true); }
  }

  lemma Concluded(p: Progress, wire: seq<Row>, totals: seq<Total>, small: bool)
    requires Sofar(p, wire, totals, small) && !p.truncated && p.rowFailures == 0 && |totals| <= MAX_SESSION_PAGES
    requires p.t.total.Some? ==> AtMost(p.t.total.value, MAX_SESSION_ROWS) <= |p.rows| && p.t.total.value <= p.offset
    ensures Authoritative(Collection(p.rows, p.t.total, false, 0), wire, totals, small)
  {
  }

  lemma SofarDistinct(p: Progress, wire: seq<Row>, totals: seq<Total>, small: bool)
    requires Sofar(p, wire, totals, small)
    ensures DistinctSessions(p.rows) && |p.rows| <= MAX_SESSION_ROWS
    ensures !p.truncated ==> p.requestFailures == 0 && p.totalFailures == 0
  {
  }

  /** The rows of the first n answers, as sent. */
  function Sent(answers: nat -> Answer, n: nat): seq<Row> {
    if n == 0 then [] else Sent(answers, n - 1) + if answers(n - 1).Page? then answers(n - 1).rows else []
  }

  /** An upstream that reports no totals and sends a history of distinct sessions in n pages, of which only the
      last is not full. */
  ghost predicate SendsUntold(answers: nat -> Answer, n: nat) {
    && 1 <= n <= MAX_SESSION_PAGES && DistinctSessions(Sent(answers, n)) && |Sent(answers, n)| <= MAX_SESSION_ROWS
    && (forall i :: 0 <= i < n ==> Untold(answers(i)) && (i < n - 1 <==> |answers(i).rows| >= UPSTREAM_PAGE_SIZE))
    && (n > 1 ==> |Sent(answers, n - 1)| < MAX_SESSION_ROWS)
  }

  ghost predicate OnUntoldCourse(answers: nat -> Answer, n: nat, p: Progress, page: nat, more: bool) {
    Plain(p) && page <= n && (more <==> page < n) && p.rows == Sent(answers, page)
  }

  lemma {:induction false} SentLonger(answers: nat -> Answer, m: nat, n: nat)
    requires m <= n
    ensures Sent(answers, m) <= Sent(answers, n)
  {
    if m < n { SentLonger(answers, m, n - 1); }
  }

  lemma SentUntold(answers: nat -> Answer, n: nat, page: nat)
    requires SendsUntold(answers, n) && page < n
    ensures Untold(answers(page)) && (page + 1 < n <==> |answers(page).rows| >= UPSTREAM_PAGE_SIZE)
    ensures Sent(answers, page + 1) == Sent(answers, page) + answers(page).rows
    ensures DistinctSessions(Sent(answers, page + 1)) && |Sent(answers, page + 1)| <= MAX_SESSION_ROWS
    ensures page + 1 < n ==> |Sent(answers, page + 1)| < MAX_SESSION_ROWS
  {
    assert Untold(answers(page));
    hide Untold, DistinctSessions;
    SentLonger(answers, page + 1, n);
    if page + 1 < n { SentLonger(answers, page + 1, n - 1); }
    PrefixDistinct(Sent(answers, page + 1), Sent(answers, n));
  }

  lemma NextFitsUntold(answers: nat -> Answer, n: nat, p: Progress, page: nat)
    requires SendsUntold(answers, n) && OnUntoldCourse(answers, n, p, page, true)
    ensures FittingUntold(p, answers(page), page == MAX_SESSION_PAGES - 1) && Plain(p) && answers(page).Page?
    ensures p.rows + answers(page).rows == Sent(answers, page + 1) && (page + 1 < n <==> |answers(page).rows| >= UPSTREAM_PAGE_SIZE)
    ensures |p.rows| < MAX_SESSION_ROWS && page < MAX_SESSION_PAGES
  {
    hide DistinctSessions, Sent, SendsUntold, Plain;
    SentUntold(answers, n, page);
    if page > 0 { SentUntold(answers, n, page - 1); }
    UntoldStarts(answers, n);
  }

  lemma UntoldStarts(answers: nat -> Answer, n: nat)
    ensures Sent(answers, 0) == [] && (SendsUntold(answers, n) ==> n <= MAX_SESSION_PAGES)
  {
  }

  /** An upstream that sends a history of distinct sessions in n orderly pages, none of them asked for in vain. */
  ghost predicate Sends(answers: nat -> Answer, n: nat, total: nat) {
    && 1 <= n <= MAX_SESSION_PAGES && |Sent(answers, n)| == total && DistinctSessions(Sent(answers, n))
    && AllOrderly(answers, n, total) && RoomBefore(answers, n)
  }

  ghost predicate AllOrderly(answers: nat -> Answer, n: nat, total: nat) {
    forall i :: 0 <= i < n ==> Orderly(answers(i), total)
  }

  predicate RoomBefore(answers: nat -> Answer, n: nat) {
    forall i :: 0 <= i < n ==> |Sent(answers, i)| < MAX_SESSION_ROWS
  }

  lemma {:induction false} SentGrows(answers: nat -> Answer, m: nat, n: nat, total: nat)
    requires m <= n && AllOrderly(answers, n, total)
    ensures Sent(answers, m) <= Sent(answers, n) && (m < n ==> |Sent(answers, m)| < |Sent(answers, n)|)
  {
    if m < n {
      SentGrows(answers, m, n - 1, total);
      assert Orderly(answers(n - 1), total);
      hide AllOrderly;
    }
  }

  /** The collector after some pages of an orderly upstream. */
  ghost predicate OnCourse(answers: nat -> Answer, n: nat, total: nat, p: Progress, page: nat, more: bool) {
    && Unharmed(p, total) && page <= n && (more <==> page < n) && p.offset == |Sent(answers, page)|
    && (page > 0 ==> p.t.total == Some(total))
    && p.rows == Sent(answers, page)[..AtMost(|Sent(answers, page)|, MAX_SESSION_ROWS)]
  }

  lemma SentAfter(answers: nat -> Answer, n: nat, total: nat, page: nat)
    requires Sends(answers, n, total) && page < n
    ensures Sent(answers, page + 1) == Sent(answers, page) + answers(page).rows && |Sent(answers, page)| < MAX_SESSION_ROWS
    ensures Sent(answers, page + 1) <= Sent(answers, n) && (|Sent(answers, page + 1)| < total <==> page + 1 < n)
    ensures page + 1 < n ==> |Sent(answers, page + 1)| < MAX_SESSION_ROWS
  {
    assert Orderly(answers(page), total) && |Sent(answers, page)| < MAX_SESSION_ROWS;
    assert page + 1 < n ==> |Sent(answers, page + 1)| < MAX_SESSION_ROWS;
    hide DistinctSessions, AllOrderly, RoomBefore;
    SentGrows(answers, page + 1, n, total);
  }

  lemma PrefixDistinct(some: seq<Row>, all: seq<Row>)
    requires DistinctSessions(all) && some <= all
    ensures DistinctSessions(some)
  {
    assert forall i :: 0 <= i < |some| ==> some[i] == all[i];
  }

  lemma NextFits(answers: nat -> Answer, n: nat, total: nat, p: Progress, page: nat)
    requires Sends(answers, n, total) && OnCourse(answers, n, total, p, page, true)
    ensures Fitting(p, answers(page), page == MAX_SESSION_PAGES - 1, total) && Unharmed(p, total) && answers(page).Page?
  {
    hide DistinctSessions, Unharmed, Sent, RoomBefore;
    SentAfter(answers, n, total, page);
    PrefixDistinct(Sent(answers, page + 1), Sent(answers, n));
    assert p.rows + answers(page).rows == Sent(answers, page + 1);
    assert Orderly(answers(page), total);
  }

  lemma StaysOnCourse(answers: nat -> Answer, n: nat, total: nat, p: Progress, page: nat, p': Progress, more: bool)
    requires Sends(answers, n, total) && OnCourse(answers, n, total, p, page, true)
    requires Unharmed(p', total) && p'.t.total == Some(total) && (more <==> p'.offset < total)
    requires p'.offset == p.offset + |answers(page).rows|
    requires p'.rows == (p.rows + answers(page).rows)[..AtMost(|p.rows| + |answers(page).rows|, MAX_SESSION_ROWS)]
    ensures OnCourse(answers, n, total, p', page + 1, more)
  {
    hide DistinctSessions, Unharmed, Sent, RoomBefore;
    SentAfter(answers, n, total, page);
    assert p.rows == Sent(answers, page);
  }

  lemma OnCourseAtEnd(answers: nat -> Answer, n: nat, total: nat, p: Progress, page: nat, more: bool)
    requires Sends(answers, n, total) && OnCourse(answers, n, total, p, page, more)
    requires !(more && page < MAX_SESSION_PAGES && |p.rows| < MAX_SESSION_ROWS)
    ensures Unharmed(p, total) && p.t.total == Some(total)
    ensures |p.rows| == AtMost(total, MAX_SESSION_ROWS) && p.rows == Sent(answers, n)[..|p.rows|]
  {
    hide DistinctSessions, Unharmed, RoomBefore, AllOrderly;
    if page < n { SentAfter(answers, n, total, page); }
  }

  /** The rows and totals of the pages that came, and whether all were of the size asked for. */
  ghost predicate Received(answers: nat -> Answer, wire: seq<Row>, totals: seq<Total>, small: bool) {
    && (small <==> forall i :: 0 <= i < |totals| ==> answers(i).Page? && |answers(i).rows| <= UPSTREAM_PAGE_SIZE)
    && (forall i :: 0 <= i < |totals| ==> answers(i).Page? && totals[i] == answers(i).total)
    && wire == Sent(answers, |totals|)
  }

  lemma ReceivedNext(answers: nat -> Answer, wire: seq<Row>, totals: seq<Total>, small: bool)
    requires Received(answers, wire, totals, small) && answers(|totals|).Page?
    ensures var answer := answers(|totals|);
      Received(answers, wire + answer.rows, totals + [answer.total], small && |answer.rows| <= UPSTREAM_PAGE_SIZE)
  {
  }

  const NOTHING := Progress([], {}, {}, 0, Totals(None, None, false, false), false, false, 0, 0, 0)

  lemma NothingYet(answers: nat -> Answer, n: nat, total: nat)
    ensures Sofar(NOTHING, [], [], true) && Received(answers, [], [], true)
    ensures Sends(answers, n, total) ==> OnCourse(answers, n, total, NOTHING, 0, true)
    ensures SendsUntold(answers, n) ==> OnUntoldCourse(answers, n, NOTHING, 0, true)
    ensures FailuresNamed(answers, 0, NOTHING.failedProfiles)
  {
  }

  /** The pages, one after the other; n and total are those of an orderly upstream, if it is one. */
  method CollectPages(answers: nat -> Answer, ghost n: nat, ghost total: nat)
    returns (p: Progress, ghost wire: seq<Row>, ghost totals: seq<Total>, ghost small: bool)
    ensures Sofar(p, wire, totals, small) && Received(answers, wire, totals, small) && |totals| <= MAX_SESSION_PAGES
    ensures !p.truncated && p.t.total.Some? ==> p.t.total.value <= p.offset
    ensures FailuresNamed(answers, |totals|, p.failedProfiles) && (!p.truncated ==> ErrorsListed(answers, |totals|))
    ensures !p.truncated && p.t.total.None? ==> EndsShort(answers, |totals|)
    ensures SendsUntold(answers, n) ==> Plain(p) && p.rows == Sent(answers, n)
    ensures Sends(answers, n, total) ==>
      && Unharmed(p, total) && p.t.total == Some(total)
      && |p.rows| == AtMost(total, MAX_SESSION_ROWS) && p.rows == Sent(answers, n)[..|p.rows|]
  {
    hide Sofar, Received, Fitting, Sends, OnCourse, Unharmed, Sent, DistinctSessions;
    hide FailuresNamed, FailedAfter, SendsUntold, Plain, FittingUntold, Untold;
    p, wire, totals, small := NOTHING, [], [], true;
    NothingYet(answers, n, total);
    var page: nat, more := 0, true;
    while more && page < MAX_SESSION_PAGES && |p.rows| < MAX_SESSION_ROWS
      invariant |totals| <= page <= MAX_SESSION_PAGES && (more ==> page == |totals|)
      invariant Sofar(p, wire, totals, small) && Received(answers, wire, totals, small)
      invariant more && !p.truncated ==> page < MAX_SESSION_PAGES && |p.rows| < MAX_SESSION_ROWS
      invariant !more && !p.truncated && p.t.total.Some? ==> p.t.total.value <= p.offset
      invariant Sends(answers, n, total) ==> OnCourse(answers, n, total, p, page, more)
      invariant SendsUntold(answers, n) ==> OnUntoldCourse(answers, n, p, page, more)
      invariant FailuresNamed(answers, |totals|, p.failedProfiles)
      invariant !p.truncated ==> ErrorsListed(answers, |totals|)
      invariant !more && !p.truncated && p.t.total.None? ==> EndsShort(answers, |totals|)
      decreases MAX_SESSION_PAGES - page
    {
      var answer := answers(page);
      ghost var before := p;
      if Sends(answers, n, total) { NextFits(answers, n, total, p, page); }
      if SendsUntold(answers, n) { NextFitsUntold(answers, n, p, page); }
      if !answer.Page? {
        UnavailableSofar(p, wire, totals, small);
        p, more := p.(truncated := true, requestFailures := p.requestFailures + 1), false;
      } else {
        p, more := TakePage(p, answer, page == MAX_SESSION_PAGES - 1, wire, totals, small, total);
        ReceivedNext(answers, wire, totals, small);
        FailuresAfter(answers, |totals|, before.failedProfiles);
        wire, totals, small := wire + answer.rows, totals + [answer.total], small && |answer.rows| <= UPSTREAM_PAGE_SIZE;
        if Sends(answers, n, total) { StaysOnCourse(answers, n, total, before, page, p, more); }
      }
      page := page + 1;
    }
    if Sends(answers, n, total) { OnCourseAtEnd(answers, n, total, p, page, more); }
    if SendsUntold(answers, n) && more { NextFitsUntold(answers, n, p, page); }
  }

  lemma FailuresAfter(answers: nat -> Answer, n: nat, failed: set<string>)
    requires FailuresNamed(answers, n, failed)
    ensures FailuresNamed(answers, n + 1, FailedAfter(failed, answers(n)))
  {
    FailuresNext(answers, n, failed, FailedAfter(failed, answers(n)));
  }

  /** Every page that came had a list of errors. */
  predicate ErrorsListed(answers: nat -> Answer, n: nat) {
    forall i :: 0 <= i < n ==> answers(i).Page? && answers(i).errors.Some?
  }

  /** The last page that came was not full, so that no further one is to be expected. */
  predicate EndsShort(answers: nat -> Answer, n: nat) {
    n > 0 && answers(n - 1).Page? && |answers(n - 1).rows| < UPSTREAM_PAGE_SIZE
  }

  method CollectSessions(answers: nat -> Answer, ghost n: nat, ghost total: nat)
    returns (c: Collection, ghost wire: seq<Row>, ghost totals: seq<Total>, ghost small: bool)
    ensures DistinctSessions(c.rows) && |c.rows| <= MAX_SESSION_ROWS
    ensures !c.truncated ==> Authoritative(c, wire, totals, small)
    ensures Received(answers, wire, totals, small)
    ensures !c.truncated ==> forall i :: 0 <= i < |totals| ==> answers(i).errors == Some([])
    ensures !c.truncated && c.total.None? ==> EndsShort(answers, |totals|)
    ensures SendsUntold(answers, n) ==> !c.truncated && c.total.None? && c.partialFailures == 0 && c.rows == Sent(answers, n)
    ensures c.partialFailures > 0 ==> c.truncated
    ensures c.partialFailures == 0 ==> forall i :: 0 <= i < |totals| && answers(i).Page? && answers(i).errors.Some? ==>
      answers(i).errors == Some([])
    ensures Sends(answers, n, total) ==>
      !c.truncated && c.total == Some(total) && |c.rows| == AtMost(total, MAX_SESSION_ROWS) && c.rows == Sent(answers, n)[..|c.rows|]
  {
    hide Sofar, Authoritative, DistinctSessions, Received, Sends, Sent, SendsUntold, FailuresNamed;
    var p;
    p, wire, totals, small := CollectPages(answers, n, total);
    SofarDistinct(p, wire, totals, small);
    var truncated, requestFailures := p.truncated || p.rowFailures > 0, p.requestFailures;
    if p.t.total.Some? && |p.rows| < AtMost(p.t.total.value, MAX_SESSION_ROWS) && !truncated {
      truncated, requestFailures := true, requestFailures + 1;
    }
    if |p.failedProfiles| > 0 { truncated := true; }
    if !truncated { Concluded(p, wire, totals, small); }
    if |p.failedProfiles| == 0 { NoErrors(answers, |totals|, p.failedProfiles); }
    c := Collection(p.rows, p.t.total, truncated, |p.failedProfiles| + requestFailures + p.rowFailures + p.totalFailures);
  }

  lemma NoErrors(answers: nat -> Answer, n: nat, failed: set<string>)
    requires FailuresNamed(answers, n, failed) && |failed| == 0
    ensures forall i :: 0 <= i < n && answers(i).Page? && answers(i).errors.Some? ==> answers(i).errors == Some([])
  {
    forall i | 0 <= i < n && answers(i).Page? && answers(i).errors.Some? ensures answers(i).errors == Some([]) {
      NoneNamed(answers, n, failed, i);
    }
  }

  lemma UnavailableSofar(p: Progress, wire: seq<Row>, totals: seq<Total>, small: bool)
    requires Sofar(p, wire, totals, small)
    ensures Sofar(p.(truncated := true, requestFailures := p.requestFailures + 1), wire, totals, small)
  {
  }

  /** The state handed to clients, after rows that could not be mapped. */
  function MappedState(c: Collection, mapped: nat, failures: nat): Collection {
    Collection([], if c.total.Some? then Some(if c.total.value > mapped then c.total.value else mapped) else None,
               c.truncated || failures > 0, c.partialFailures + failures)
  }

  /** Mapping keeps "not truncated means nothing failed", and an unmarked answer keeps its rows and its total. */
  lemma MappedKeeps(c: Collection, mapped: nat, failures: nat)
    requires !c.truncated ==> c.partialFailures == 0 && (c.total.Some? ==> |c.rows| <= c.total.value)
    requires mapped + failures == |c.rows|
    ensures var s := MappedState(c, mapped, failures);
      && (!s.truncated ==> s.partialFailures == 0 && mapped == |c.rows| && s.total == c.total)
      && (s.truncated <==> c.truncated || mapped < |c.rows|)
  {
  }

  // ---- The total of an unmarked answer -----------------------------------------------------------

  /** An unmarked answer has as many rows as its total if and only if the total is within the row limit. */
  lemma TotalIsRows(c: Collection, wire: seq<Row>, totals: seq<Total>, small: bool)
    requires Authoritative(c, wire, totals, small) && c.total.Some?
    ensures |c.rows| == c.total.value <==> c.total.value <= MAX_SESSION_ROWS
  {
  }

  function Letters(n: nat): (s: string)
    ensures |s| == n
  {
    if n == 0 then "" else Letters(n - 1) + "s"
  }

  /** n sessions with ids of different lengths. */
  function Sessions(n: nat): (rows: seq<Row>)
    ensures |rows| == n && forall i :: 0 <= i < n ==> rows[i] == Record(Some(Letters(i)), Some("p"))
  {
    if n == 0 then [] else Sessions(n - 1) + [Record(Some(Letters(n - 1)), Some("p"))]
  }

  lemma SessionsDistinct(n: nat)
    ensures DistinctSessions(Sessions(n))
  {
    forall i, j | 0 <= i < j < n ensures KeyOf(Sessions(n)[i]) != KeyOf(Sessions(n)[j]) {
      assert |KeyOf(Sessions(n)[i])| == i + 2 && |KeyOf(Sessions(n)[j])| == j + 2;
    }
  }

  /** The input on which they differ: one page of 2,001 sessions comes back unmarked with 2,000 of them. */
  method OverfullPage() returns (c: Collection)
    ensures !c.truncated && c.total == Some(MAX_SESSION_ROWS + 1) && |c.rows| == MAX_SESSION_ROWS
  {
    var rows := Sessions(MAX_SESSION_ROWS + 1);
    var answers := (i: nat) => Page(rows, Reported(MAX_SESSION_ROWS + 1), Some([]));
    SessionsDistinct(MAX_SESSION_ROWS + 1);
    assert Sent(answers, 1) == rows by { assert Sent(answers, 0) == []; }
    assert Sends(answers, 1, MAX_SESSION_ROWS + 1);
    var collected, _, _, _ := CollectSessions(answers, 1, MAX_SESSION_ROWS + 1);
    return collected;
  }
}
