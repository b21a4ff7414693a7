/** The wire audit of one space: pull every stored log entry page by page behind a cursor of its own, replay
    what can be opened, and report which expected writes and which sequence numbers are missing. */
module Audit {
  /* The stored log is the relay's table, ordered by device and then by number, and does not change
     meanwhile. */

  /** `verifies`: the signature holds; `opens`: its content decrypts and applies. */
  datatype Entry = Entry(device: nat, num: nat, verifies: bool, opens: bool, writes: set<nat>)

  type Cursor = map<nat, nat>

  const PAGE_LIMIT: nat := 200

  // ---------------------------------------------------------------- the relay

  function Head(c: Cursor, device: nat): int {
    if device in c then c[device] else -1
  }

  predicate IsMissing(e: Entry, c: Cursor) {
    e.num > Head(c, e.device)
  }

  function Missing(stored: seq<Entry>, c: Cursor): (rows: seq<Entry>)
    ensures forall e :: e in rows <==> e in stored && IsMissing(e, c)
  {
    if stored == [] then []
    else (if IsMissing(stored[0], c) then [stored[0]] else []) + Missing(stored[1..], c)
  }

  predicate Truncated(stored: seq<Entry>, c: Cursor, limit: nat) {
    |Missing(stored, c)| > limit
  }

  function Page(stored: seq<Entry>, c: Cursor, limit: nat): seq<Entry> {
    var rows := Missing(stored, c);
    if |rows| > limit then rows[..limit] else rows
  }

  predicate Before(a: Entry, b: Entry) {
    a.device < b.device || (a.device == b.device && a.num < b.num)
  }

  predicate Ordered(stored: seq<Entry>) {
    forall i, j :: 0 <= i < j < |stored| ==> Before(stored[i], stored[j])
  }

  lemma {:induction false} MissingIsOrdered(stored: seq<Entry>, c: Cursor)
    requires Ordered(stored)
    ensures Ordered(Missing(stored, c))
    decreases |stored|
  {
    if stored != [] {
      var rest := Missing(stored[1..], c);
      MissingIsOrdered(stored[1..], c);
      forall j | 0 <= j < |rest| ensures Before(stored[0], rest[j]) {
        assert rest[j] in stored[1..];
        var k :| 0 <= k < |stored[1..]| && stored[1..][k] == rest[j];
        assert stored[k + 1] == rest[j];
      }
    }
  }

  /** A page is no longer than the limit, and the relay says so exactly if something missing is not on it. */
  lemma PageIsLimited(stored: seq<Entry>, c: Cursor, limit: nat)
    requires Ordered(stored)
    ensures |Page(stored, c, limit)| <= limit
    ensures Truncated(stored, c, limit)
      <==> exists e :: e in stored && IsMissing(e, c) && e !in Page(stored, c, limit)
  {
    MissingIsOrdered(stored, c);
    var rows, page := Missing(stored, c), Page(stored, c, limit);
    if |rows| > limit {
      assert rows[limit] in stored && IsMissing(rows[limit], c);
      forall i | 0 <= i < |page| ensures page[i] != rows[limit] {
        assert Before(rows[i], rows[limit]);
      }
      assert rows[limit] !in page;
    }
  }

  /** A page that holds an entry holds every missing entry of the same device up to it. */
  lemma PageIsClosed(stored: seq<Entry>, c: Cursor, limit: nat, e: Entry, f: Entry)
    requires Ordered(stored) && e in Page(stored, c, limit)
    requires f in stored && IsMissing(f, c) && f.device == e.device && f.num <= e.num
    ensures f in Page(stored, c, limit)
  {
    MissingIsOrdered(stored, c);
    var rows := Missing(stored, c);
    var i :| 0 <= i < |Page(stored, c, limit)| && Page(stored, c, limit)[i] == e;
    var j :| 0 <= j < |rows| && rows[j] == f;
    assert rows[i] == e;
    assert j <= i;
    assert Page(stored, c, limit)[j] == f;
  }

  /** Moving the cursor forward leaves fewer entries, and strictly fewer past one that was missing. */
  lemma {:induction false} ForwardShrinks(stored: seq<Entry>, c: Cursor, d: Cursor)
    requires forall device :: Head(c, device) <= Head(d, device)
    ensures |Missing(stored, d)| <= |Missing(stored, c)|
    ensures (exists e :: e in stored && IsMissing(e, c) && !IsMissing(e, d)) ==>
      |Missing(stored, d)| < |Missing(stored, c)|
    decreases |stored|
  {
    if stored != [] {
      ForwardShrinks(stored[1..], c, d);
    }
  }

  // ---------------------------------------------------------------- one page

  /** The cursor behind the verified entries of a page. */
  function Behind(c: Cursor, page: seq<Entry>): Cursor {
    if page == [] then c
    else
      var e := page[|page| - 1];
      var d := Behind(c, page[..|page| - 1]);
      if e.verifies && e.num > Head(d, e.device) then d[e.device := e.num] else d
  }

  predicate HeldBack(page: seq<Entry>) {
    forall e :: e in page ==> !e.verifies
  }

  lemma {:induction false} BehindIsForward(c: Cursor, page: seq<Entry>)
    ensures var d := Behind(c, page);
      && (forall device :: Head(c, device) <= Head(d, device))
      && (forall e :: e in page && e.verifies ==> e.num <= Head(d, e.device))
      && (forall device :: Head(d, device) != Head(c, device) ==>
            exists e :: e in page && e.verifies && e.device == device && e.num == Head(d, device))
    decreases |page|
  {
    if page != [] {
      var init, e := page[..|page| - 1], page[|page| - 1];
      BehindIsForward(c, init);
      assert forall x :: x in page <==> x in init || x == e;
    }
  }

  /** Everything stored up to the cursor has been pulled. */
  predicate Covered(stored: seq<Entry>, c: Cursor, pulled: seq<Entry>) {
    forall e :: e in stored && !IsMissing(e, c) ==> e in pulled
  }

  lemma PageKeepsCovered(stored: seq<Entry>, c: Cursor, limit: nat, pulled: seq<Entry>)
    requires Ordered(stored) && Covered(stored, c, pulled)
    ensures Covered(stored, Behind(c, Page(stored, c, limit)), pulled + Page(stored, c, limit))
  {
    var page := Page(stored, c, limit);
    var d := Behind(c, page);
    BehindIsForward(c, page);
    forall f | f in stored && !IsMissing(f, d) ensures f in pulled + page {
      if IsMissing(f, c) {
        var e :| e in page && e.verifies && e.device == f.device && e.num == Head(d, f.device);
        PageIsClosed(stored, c, limit, e, f);
      }
    }
  }

  /** A page moves the cursor, past a missing entry, exactly if one of its entries verifies. */
  lemma PageAdvances(stored: seq<Entry>, c: Cursor, limit: nat)
    ensures var page := Page(stored, c, limit);
      && (Behind(c, page) == c <==> HeldBack(page))
      && (Behind(c, page) != c ==> |Missing(stored, Behind(c, page))| < |Missing(stored, c)|)
  {
    var page := Page(stored, c, limit);
    var d := Behind(c, page);
    BehindIsForward(c, page);
    ForwardShrinks(stored, c, d);
    if !HeldBack(page) {
      var e :| e in page && e.verifies;
      assert e in Missing(stored, c);
      assert IsMissing(e, c) && !IsMissing(e, d);
    } else {
      NothingVerified(c, page);
    }
  }

  lemma {:induction false} NothingVerified(c: Cursor, page: seq<Entry>)
    requires HeldBack(page)
    ensures Behind(c, page) == c
    decreases |page|
  {
    if page != [] {
      assert page[|page| - 1] in page;
      assert forall e :: e in page[..|page| - 1] ==> e in page;
      NothingVerified(c, page[..|page| - 1]);
    }
  }

  // ---------------------------------------------------------------- reconstruction

  function Reconstructed(entries: seq<Entry>): set<nat> {
    set e, w | e in entries && e.verifies && e.opens && w in e.writes :: w
  }

  datatype Report = Report(
    pulled: seq<Entry>, seen: set<(nat, nat)>, reconstructed: set<nat>, missing: set<nat>, stalled: bool)

  /** What the audit keeps across pages. */
  predicate Tracks(pulled: seq<Entry>, seen: set<(nat, nat)>, scratch: set<nat>, c: Cursor) {
    && seen == Numbers(pulled)
    && scratch == Reconstructed(pulled)
    && forall x :: x in seen ==> x.1 <= Head(c, x.0)
  }

  function Numbers(entries: seq<Entry>): set<(nat, nat)> {
    set e | e in entries && e.verifies :: (e.device, e.num)
  }

  lemma BehindOneMore(c: Cursor, page: seq<Entry>, i: nat)
    requires i < |page|
    ensures var d := Behind(c, page[..i]);
      && Head(c, page[i].device) <= Head(d, page[i].device)
      && Behind(d, [page[i]]) == Behind(c, page[..i + 1])
      && Behind(d, [page[i]]) == (
        if page[i].verifies && page[i].num > Head(d, page[i].device) then d[page[i].device := page[i].num] else d)
  {
    assert page[..i + 1][..i] == page[..i];
    BehindIsForward(c, page[..i]);
  }

  /** The entries of one page, in order. */
  method PullPage(page: seq<Entry>, before: seq<Entry>, seen: set<(nat, nat)>, scratch: set<nat>, cursor: Cursor)
    returns (seen': set<(nat, nat)>, scratch': set<nat>, next: Cursor, advanced: bool)
    requires Tracks(before, seen, scratch, cursor)
    ensures Tracks(before + page, seen', scratch', next)
    ensures next == Behind(cursor, page) && (advanced <==> next != cursor)
  {
    seen', scratch', next, advanced := seen, scratch, cursor, false;
    assert before + page[..0] == before;
    for i := 0 to |page|
      invariant next == Behind(cursor, page[..i]) && (advanced <==> next != cursor)
      invariant Tracks(before + page[..i], seen', scratch', next)
    {
      var e := page[i];
      BehindOneMore(cursor, page, i);
      assert before + page[..i + 1] == before + page[..i] + [e];
      hide Tracks, Behind;
      if e.verifies {
        if (e.device, e.num) !in seen' {
          seen' := seen' + {(e.device, e.num)};
          if e.num > Head(next, e.device) {
            next := next[e.device := e.num];
            advanced := true;
          }
        }
        if e.opens { scratch' := scratch' + e.writes; }
      }
    }
    assert page[..|page|] == page;
  }

  /** The whole audit. It ends; unless it stalled it has pulled every stored entry, so that the missing
      writes are exactly the expected ones that no readable stored entry carries; and it stalls only in front
      of a full page of entries that do not verify, with more behind them, so never where all verify. */
  method AuditSpace(stored: seq<Entry>, expected: set<nat>) returns (r: Report)
    requires Ordered(stored)
    ensures forall e :: e in r.pulled ==> e in stored
    ensures !r.stalled ==> forall e :: e in stored ==> e in r.pulled
    ensures !r.stalled ==> r.missing == expected - Reconstructed(stored)
    ensures r.reconstructed == Reconstructed(r.pulled) && r.missing == expected - r.reconstructed
    ensures r.seen == Numbers(r.pulled)
    ensures r.stalled ==> exists c: Cursor :: StalledAt(stored, c, r.pulled)
    ensures (forall e :: e in stored ==> e.verifies) ==> !r.stalled
  {
    var pulled: seq<Entry> := [];
    var cursor: Cursor := map[];
    var seen: set<(nat, nat)> := {};
    var scratch: set<nat> := {};
    var stalled, done := false, false;
    while !done
      invariant forall e :: e in pulled ==> e in stored
      invariant Tracks(pulled, seen, scratch, cursor)
      invariant Covered(stored, cursor, pulled)
      invariant done && !stalled ==> forall e :: e in stored ==> e in pulled
      invariant stalled ==> done && StalledAt(stored, cursor, pulled)
      decreases !done, |Missing(stored, cursor)|
    {
      hide Tracks, Behind, Covered;
      var page := Page(stored, cursor, PAGE_LIMIT);
      var next, advanced;
      PageKeepsCovered(stored, cursor, PAGE_LIMIT, pulled);
      PageAdvances(stored, cursor, PAGE_LIMIT);
      seen, scratch, next, advanced := PullPage(page, pulled, seen, scratch, cursor);
      pulled := pulled + page;
      if !Truncated(stored, cursor, PAGE_LIMIT) {
        done := true;
      } else if !advanced {
        done, stalled := true, true;
      }
      cursor := next;
    }
    if stalled { SomeEntryDoesNotVerify(stored, cursor, pulled); }
    r := Report(pulled, seen, scratch, expected - scratch, stalled);
  }

  /** More than a page is left, everything before the cursor was pulled, and nothing on the next page
      verifies. */
  predicate StalledAt(stored: seq<Entry>, c: Cursor, pulled: seq<Entry>) {
    Covered(stored, c, pulled) && Truncated(stored, c, PAGE_LIMIT) && HeldBack(Page(stored, c, PAGE_LIMIT))
  }

  lemma SomeEntryDoesNotVerify(stored: seq<Entry>, c: Cursor, pulled: seq<Entry>)
    requires StalledAt(stored, c, pulled)
    ensures exists e :: e in stored && !e.verifies
  {
    var page := Page(stored, c, PAGE_LIMIT);
    assert page[0] in page;
  }

  // ---------------------------------------------------------------- gaps

  /** The gap report of one device: exactly the numbers between its lowest and highest that it never used,
      each once and in ascending order. */
  method SeqGaps(nums: set<nat>) returns (gaps: seq<nat>)
    requires nums != {}
    ensures forall i, j :: 0 <= i < j < |gaps| ==> gaps[i] < gaps[j]
    ensures forall n :: n in gaps <==>
      n !in nums && (exists a :: a in nums && a < n) && (exists b :: b in nums && n < b)
  {
    var low, high := Extremes(nums);
    gaps := [];
    for s := low to high
      invariant forall i, j :: 0 <= i < j < |gaps| ==> gaps[i] < gaps[j]
      invariant forall i :: 0 <= i < |gaps| ==> gaps[i] < s
      invariant forall n :: n in gaps <==> low <= n < s && n !in nums
    {
      if s !in nums { gaps := gaps + [s]; }
    }
  }

  method Extremes(nums: set<nat>) returns (low: nat, high: nat)
    requires nums != {}
    ensures low in nums && high in nums && forall n :: n in nums ==> low <= n <= high
  {
    low :| low in nums;
    high := low;
    var rest := nums - {low};
    while rest != {}
      invariant rest <= nums && low in nums && high in nums
      invariant forall n :: n in nums && n !in rest ==> low <= n <= high
      decreases |rest|
    {
      var n :| n in rest;
      if n < low { low := n; }
      if n > high { high := n; }
      rest := rest - {n};
    }
  }
}
