/**
 * The indexer's paging: Solana lists signatures newest first, so pages are reversed, the page chunks are reversed
 * again, and the result must be exactly the successful transactions after a boundary in execution order.
 */
module Paging {
  import opened Base

  type Signature = nat

  /** A finalized transaction, in the order of execution. */
  datatype Tx = Tx(signature: Signature, slot: nat, index: nat, failed: bool)

  /** One row of `getSignaturesForAddress`; the execution index may be missing. */
  datatype Entry = Entry(signature: Signature, slot: nat, index: Option<nat>, failed: bool)

  datatype Record = Record(signature: Signature, slot: nat, index: Option<nat>)

  datatype Page = Page(records: seq<Record>, next: Option<Signature>)

  predicate EarlierThan(a: Tx, b: Tx) {
    a.slot < b.slot || (a.slot == b.slot && a.index < b.index)
  }

  ghost predicate Chronological(h: seq<Tx>) {
    && (forall i, j :: 0 <= i < j < |h| ==> EarlierThan(h[i], h[j]))
    && (forall i, j :: 0 <= i < j < |h| ==> h[i].signature != h[j].signature)
  }

  // ----------------------------------------------------------------- the RPC server

  function EntryOf(t: Tx, shown: set<Signature>): Entry {
    Entry(t.signature, t.slot, if t.signature in shown then Some(t.index) else None, t.failed)
  }

  /** The newest `limit` rows of history positions lo..hi, newest first. */
  function Response(h: seq<Tx>, lo: nat, hi: nat, limit: nat, shown: set<Signature>): seq<Entry>
    requires hi <= |h|
    decreases hi
  {
    if hi <= lo || limit == 0 then [] else [EntryOf(h[hi - 1], shown)] + Response(h, lo, hi - 1, limit - 1, shown)
  }

  function PositionOf(h: seq<Tx>, s: Signature): (p: nat)
    ensures p <= |h| && (p < |h| ==> h[p].signature == s)
    ensures p == |h| ==> forall i :: 0 <= i < |h| ==> h[i].signature != s
  {
    if h == [] then 0
    else if h[0].signature == s then 0
    else 1 + PositionOf(h[1..], s)
  }

  lemma PositionUnique(h: seq<Tx>, p: nat)
    requires Chronological(h) && p < |h|
    ensures PositionOf(h, h[p].signature) == p
  {
  }

  /** First position after the `until` boundary. */
  function Start(h: seq<Tx>, until: Option<Signature>): nat {
    if until.None? then 0 else PositionOf(h, until.value) + 1
  }

  /** `visible` transactions are finalized when the request is served. */
  function Serve(h: seq<Tx>, visible: nat, before: Option<Signature>, until: Option<Signature>, limit: nat, shown: set<Signature>): seq<Entry> {
    var hi := if before.None? then Min(visible, |h|) else PositionOf(h, before.value);
    Response(h, Start(h, until), hi, limit, shown)
  }

  // ------------------------------------------------------------------ one page

  /** Successful entries, oldest first. */
  function WorkOf(entries: seq<Entry>): seq<Record> {
    if entries == [] then []
    else WorkOf(entries[1..]) + (if entries[0].failed then [] else [Record(entries[0].signature, entries[0].slot, entries[0].index)])
  }

  /** `build_signature_page`: the cursor is the last raw entry, failed or not. */
  function BuildPage(entries: seq<Entry>): Page {
    Page(WorkOf(entries), if entries == [] then None else Some(entries[|entries| - 1].signature))
  }

  function RecordOf(t: Tx, shown: set<Signature>): Record {
    Record(t.signature, t.slot, if t.signature in shown then Some(t.index) else None)
  }

  /** The successful transactions at positions a..b, oldest first. */
  function Successes(h: seq<Tx>, a: nat, b: nat, shown: set<Signature>): seq<Record>
    requires b <= |h|
    decreases b
  {
    if b <= a then [] else Successes(h, a, b - 1, shown) + (if h[b - 1].failed then [] else [RecordOf(h[b - 1], shown)])
  }

  lemma {:induction false} SuccessesSplit(h: seq<Tx>, a: nat, b: nat, c: nat, shown: set<Signature>)
    requires a <= b <= c <= |h|
    ensures Successes(h, a, b, shown) + Successes(h, b, c, shown) == Successes(h, a, c, shown)
    decreases c
  {
    if b < c { SuccessesSplit(h, a, b, c - 1, shown); }
  }

  function PageStart(lo: nat, hi: nat, limit: nat): nat {
    if lo + limit < hi then hi - limit else lo
  }

  /** A page is exactly the successes of its slice, and its cursor is the slice's oldest transaction, failed or not. */
  lemma {:induction false} PageIsSlice(h: seq<Tx>, lo: nat, hi: nat, limit: nat, shown: set<Signature>)
    requires lo <= hi <= |h| && limit > 0
    ensures var page := BuildPage(Response(h, lo, hi, limit, shown));
      && page.records == Successes(h, PageStart(lo, hi, limit), hi, shown)
      && page.next == (if lo == hi then None else Some(h[PageStart(lo, hi, limit)].signature))
    decreases hi
  {
    if lo < hi {
      var rest := Response(h, lo, hi - 1, limit - 1, shown);
      assert Response(h, lo, hi, limit, shown)[1..] == rest;
      if limit > 1 {
        PageIsSlice(h, lo, hi - 1, limit - 1, shown);
      } else {
        assert rest == [] && WorkOf(rest) == [] && PageStart(lo, hi, limit) == hi - 1;
        assert Successes(h, hi - 1, hi - 1, shown) == [];
        assert Response(h, lo, hi, limit, shown)[0] == EntryOf(h[hi - 1], shown);
      }
    }
  }

  // ---------------------------------------------------------------- the whole gap

  datatype Gap = CaughtUp(records: seq<Record>) | PageLimitReached | Failed

  function Flatten(pages: seq<seq<Record>>): seq<Record> {
    if pages == [] then [] else pages[0] + Flatten(pages[1..])
  }

  function Reverse(pages: seq<seq<Record>>): seq<seq<Record>> {
    if pages == [] then [] else Reverse(pages[1..]) + [pages[0]]
  }

  lemma {:induction false} FlattenAppend(a: seq<seq<Record>>, x: seq<Record>)
    ensures Flatten(a + [x]) == Flatten(a) + x
  {
    if a == [] {
      assert a + [x] == [x];
      assert Flatten([x]) == x + Flatten([]);
    } else {
      FlattenAppend(a[1..], x);
      assert (a + [x])[1..] == a[1..] + [x];
    }
  }

  /** A newly fetched, older page goes in front. */
  lemma {:induction false} ReverseAppend(pages: seq<seq<Record>>, x: seq<Record>)
    ensures Reverse(pages + [x]) == [x] + Reverse(pages)
  {
    if pages == [] {
      assert pages + [x] == [x];
      assert [x][1..] == [];
    } else {
      ReverseAppend(pages[1..], x);
      assert (pages + [x])[1..] == pages[1..] + [x];
    }
  }

  lemma OlderPageFirst(pages: seq<seq<Record>>, x: seq<Record>)
    ensures Flatten(Reverse(pages + [x])) == x + Flatten(Reverse(pages))
  {
    ReverseAppend(pages, x);
  }

  /** The server is honest: the boundary exists, and what it lists is the finalized prefix. */
  ghost predicate Honest(h: seq<Tx>, until: Option<Signature>, top: nat) {
    && Chronological(h) && top <= |h|
    && (until.Some? ==> PositionOf(h, until.value) < top)
  }

  /** After k full pages: everything from `pos` on is buffered, chunk by chunk. */
  ghost predicate Buffered(h: seq<Tx>, until: Option<Signature>, top: nat, limit: nat, shown: set<Signature>, k: nat, pos: nat,
                           before: Option<Signature>, pages: seq<seq<Record>>)
  {
    var lo := Start(h, until);
    && Honest(h, until, top) && limit > 0
    && lo <= pos <= top
    && (if k == 0 then pos == top && before.None? else pos < top && before == Some(h[pos].signature))
    && pos == PageStart(lo, top, k * limit)
    && (k > 0 ==> (k - 1) * limit < top - lo)
    && Flatten(Reverse(pages)) == Successes(h, pos, top, shown)
  }

  /** One more page of at most `limit` entries. */
  lemma BufferStep(h: seq<Tx>, until: Option<Signature>, top: nat, limit: nat, shown: set<Signature>, k: nat, pos: nat,
                   before: Option<Signature>, pages: seq<seq<Record>>, visible: nat)
    requires Buffered(h, until, top, limit, shown, k, pos, before, pages) && (k == 0 ==> visible == top)
    ensures var page := BuildPage(Serve(h, visible, before, until, limit, shown));
      var lo := Start(h, until);
      if page.next.None? then Flatten(Reverse(pages + [page.records])) == Successes(h, lo, top, shown) && top - lo <= k * limit
      else
        && page.next != before
        && Buffered(h, until, top, limit, shown, k + 1, PageStart(lo, pos, limit), page.next, pages + [page.records])
  {
    hide Flatten, Reverse, Successes, BuildPage, Response;
    var lo := Start(h, until);
    if k > 0 { PositionUnique(h, pos); }
    PageIsSlice(h, lo, pos, limit, shown);
    OlderPageFirst(pages, BuildPage(Serve(h, visible, before, until, limit, shown)).records);
    SuccessesSplit(h, PageStart(lo, pos, limit), pos, top, shown);
    assert (k + 1) * limit == k * limit + limit;
  }

  lemma BufferStarts(h: seq<Tx>, until: Option<Signature>, top: nat, limit: nat, shown: set<Signature>)
    requires Honest(h, until, top) && limit > 0
    ensures Buffered(h, until, top, limit, shown, 0, top, None, [])
  {
  }

  /**
   * `collect_gap_pages`: all or nothing. `visible` says how much history is finalized at each request; it may grow
   * while paging. Whatever it returns as caught up is exactly the successes between the boundary and the first
   * request, oldest first; the cap is only reached by a gap longer than the earlier pages could hold.
   */
  method CollectGapPages(h: seq<Tx>, visible: seq<nat>, until: Option<Signature>, pageLimit: nat, maxPages: nat, shown: set<Signature>, fails: set<nat>)
    returns (r: Gap)
    requires |visible| >= maxPages
    ensures pageLimit == 0 || maxPages == 0 ==> r.Failed?
    ensures maxPages > 0 && Honest(h, until, visible[0]) ==>
      var lo := Start(h, until);
      match r
      case CaughtUp(records) => records == Successes(h, lo, visible[0], shown) && visible[0] - lo <= (maxPages - 1) * pageLimit
      case PageLimitReached => (maxPages - 1) * pageLimit < visible[0] - lo
      case Failed => pageLimit == 0 || exists k :: 0 <= k < maxPages && k in fails
  {
    hide Buffered, Flatten, Reverse, Successes, BuildPage, Serve, Honest;
    if pageLimit == 0 || maxPages == 0 { return Failed; }
    ghost var top := visible[0];
    ghost var good := Honest(h, until, top);
    var before: Option<Signature>, pages: seq<seq<Record>> := None, [];
    ghost var pos: nat := top;
    if good {
      HonestBounds(h, until, top);
      BufferStarts(h, until, top, pageLimit, shown);
    }
    for k := 0 to maxPages
      invariant good ==> Buffered(h, until, top, pageLimit, shown, k, pos, before, pages)
    {
      if k in fails { return Failed; }
      var page := BuildPage(Serve(h, visible[k], before, until, pageLimit, shown));
      if good { BufferStep(h, until, top, pageLimit, shown, k, pos, before, pages, visible[k]); }
      pages := pages + [page.records];
      if page.next.None? {
        PagesMonotone(k, maxPages - 1, pageLimit);
        return CaughtUp(Flatten(Reverse(pages)));
      }
      if page.next == before { return Failed; }
      before := page.next;
      if good { pos := PageStart(Start(h, until), pos, pageLimit); }
    }
    if good { BufferLength(h, until, top, pageLimit, shown, maxPages, pos, before, pages); }
    r := PageLimitReached;
  }

  lemma PagesMonotone(a: nat, b: nat, limit: nat)
    requires a <= b
    ensures a * limit <= b * limit
  {
    assert b * limit == a * limit + (b - a) * limit;
  }

  lemma HonestBounds(h: seq<Tx>, until: Option<Signature>, top: nat)
    requires Honest(h, until, top)
    ensures Start(h, until) <= top <= |h|
  {
  }

  lemma BufferLength(h: seq<Tx>, until: Option<Signature>, top: nat, limit: nat, shown: set<Signature>, k: nat, pos: nat,
                     before: Option<Signature>, pages: seq<seq<Record>>)
    requires Buffered(h, until, top, limit, shown, k, pos, before, pages) && k > 0
    ensures (k - 1) * limit < top - Start(h, until)
  {
  }
}
