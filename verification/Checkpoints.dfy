/**
 * Durable indexing progress: source rows, the backfill cursor and the live checkpoint, rewritten by runs that may
 * fail or crash between any two durable writes. Nothing a checkpoint claims is ever unprocessed.
 */
module Checkpoints {
  import opened Base
  import opened Paging

  const I32_MAX: nat := 0x7FFF_FFFF

  /** A finalized position as stored: the execution index may be missing. */
  datatype Position = Position(slot: nat, index: Option<nat>)

  datatype Backfill = Backfill(before: Option<Signature>, completed: bool)

  datatype Decision = Keep | Replace | Refuse

  // --------------------------------------------------------------- checkpoint ordering

  /** `decide_update`; Refuse stands for its Backward, AmbiguousSameSlot and PositionConflict errors. */
  function DecideUpdate(stored: Record, incoming: Record): Decision {
    if stored.signature == incoming.signature then
      if stored.slot != incoming.slot
         || (stored.index.Some? && incoming.index.Some? && stored.index != incoming.index) then Refuse
      else if stored.index.None? && incoming.index.Some? then Replace
      else Keep
    else if incoming.slot > stored.slot then Replace
    else if incoming.slot < stored.slot then Refuse
    else if stored.index.Some? && incoming.index.Some? && incoming.index.value > stored.index.value then Replace
    else Refuse
  }

  /** The record describes the transaction at position p, possibly without its index. */
  ghost predicate Describes(h: seq<Tx>, r: Record, p: nat) {
    && p < |h| && h[p].signature == r.signature && h[p].slot == r.slot && !h[p].failed
    && (r.index.Some? ==> r.index.value == h[p].index)
  }

  /** Between true positions, an accepted update never moves backwards, and a kept one does not move at all. */
  lemma UpdateNeverMovesBack(h: seq<Tx>, stored: Record, incoming: Record, p: nat, q: nat)
    requires Chronological(h) && Describes(h, stored, p) && Describes(h, incoming, q)
    ensures DecideUpdate(stored, incoming).Replace? ==> p <= q
    ensures DecideUpdate(stored, incoming).Keep? ==> p == q
    ensures p < q && (h[p].slot < h[q].slot || (stored.index.Some? && incoming.index.Some?)) ==> DecideUpdate(stored, incoming).Replace?
  {
    if q < p {
      assert EarlierThan(h[q], h[p]);
    } else if p < q {
      assert EarlierThan(h[p], h[q]);
    }
  }

  /** For the same transaction an update may only add the missing index; any other difference is a conflict. */
  lemma SameTransactionUpdate(stored: Record, incoming: Record)
    requires stored.signature == incoming.signature
    ensures DecideUpdate(stored, incoming).Refuse? <==>
      stored.slot != incoming.slot || (stored.index.Some? && incoming.index.Some? && stored.index.value != incoming.index.value)
    ensures DecideUpdate(stored, incoming).Replace? <==> stored.slot == incoming.slot && stored.index.None? && incoming.index.Some?
  {
  }

  /** For another transaction it is kept never, and taken exactly when it is provably later. */
  lemma OtherTransactionUpdate(stored: Record, incoming: Record)
    requires stored.signature != incoming.signature
    ensures !DecideUpdate(stored, incoming).Keep?
    ensures DecideUpdate(stored, incoming).Replace? <==>
      stored.slot < incoming.slot
      || (stored.slot == incoming.slot && stored.index.Some? && incoming.index.Some? && stored.index.value < incoming.index.value)
  {
  }

  // ------------------------------------------------------------------ what is covered

  /** Every successful transaction at positions a..b has been processed. */
  ghost predicate Covered(h: seq<Tx>, source: map<Signature, Position>, a: nat, b: nat) {
    forall p | a <= p < b && p < |h| && !h[p].failed :: h[p].signature in source
  }

  ghost predicate RowAt(h: seq<Tx>, s: Signature, row: Position, bound: nat) {
    var p := PositionOf(h, s);
    p < bound && Describes(h, Record(s, row.slot, row.index), p)
  }

  /** Source rows are successful transactions among the first `bound` of the history. */
  ghost predicate RowsWithin(h: seq<Tx>, source: map<Signature, Position>, bound: nat) {
    forall s <- source :: RowAt(h, s, source[s], bound)
  }

  /** Every row has all successes before it processed too. */
  ghost predicate DownwardClosed(h: seq<Tx>, source: map<Signature, Position>) {
    forall s <- source :: Covered(h, source, 0, PositionOf(h, s) + 1)
  }

  ghost predicate BackfillSafe(h: seq<Tx>, source: map<Signature, Position>, backfill: Backfill, top: nat) {
    && (backfill.before.Some? ==> PositionOf(h, backfill.before.value) < top <= |h|)
    && (backfill.before.Some? ==> Covered(h, source, PositionOf(h, backfill.before.value), top))
    && (backfill.completed ==> top <= |h| && Covered(h, source, 0, top))
  }

  ghost predicate LiveSafe(h: seq<Tx>, source: map<Signature, Position>, live: Option<Record>) {
    live.Some? ==>
      var p := PositionOf(h, live.value.signature);
      Describes(h, live.value, p) && Covered(h, source, 0, p + 1)
  }

  /**
   * Nothing at or before the live checkpoint, nothing newer than the backfill cursor up to where that backfill began,
   * and after completion nothing of the paged history is unprocessed. `seen` is how much history was ever listed.
   */
  ghost predicate Safe(h: seq<Tx>, source: map<Signature, Position>, backfill: Backfill, live: Option<Record>, top: nat, seen: nat) {
    && Chronological(h) && seen <= |h|
    && RowsWithin(h, source, seen)
    && BackfillSafe(h, source, backfill, top)
    && (backfill.before.Some? || backfill.completed ==> top <= seen)
    && LiveSafe(h, source, live)
    && (live.Some? ==> backfill.completed && PositionOf(h, live.value.signature) < seen)
    && (live.None? && backfill.before.Some? && !backfill.completed ==> RowsWithin(h, source, top))
    && (live.None? && backfill.completed ==> DownwardClosed(h, source))
  }

  lemma CoveredGrows(h: seq<Tx>, source: map<Signature, Position>, source': map<Signature, Position>, a: nat, b: nat)
    requires Covered(h, source, a, b) && source.Keys <= source'.Keys
    ensures Covered(h, source', a, b)
  {
  }

  /** A persisted row only adds coverage. */
  lemma PersistKeepsSafe(h: seq<Tx>, source: map<Signature, Position>, backfill: Backfill, live: Option<Record>, top: nat, seen: nat, r: Record, p: nat)
    requires Safe(h, source, backfill, live, top, seen) && Describes(h, r, p) && r.signature !in source
    requires p < seen
    requires live.None? && !backfill.completed && backfill.before.Some? ==> p < top
    requires live.None? && backfill.completed ==> Covered(h, source, 0, p)
    ensures Safe(h, source[r.signature := Position(r.slot, r.index)], backfill, live, top, seen)
  {
    var source' := source[r.signature := Position(r.slot, r.index)];
    PositionUnique(h, p);
    forall a, b | Covered(h, source, a, b) ensures Covered(h, source', a, b) {
      CoveredGrows(h, source, source', a, b);
    }
    forall bound | RowsWithin(h, source, bound) && p < bound ensures RowsWithin(h, source', bound) {
      forall s <- source' ensures RowAt(h, s, source'[s], bound) {
        if s != r.signature { assert RowAt(h, s, source[s], bound); }
      }
    }
    if live.None? && backfill.completed {
      forall s <- source' ensures Covered(h, source', 0, PositionOf(h, s) + 1) {
        if s != r.signature { assert Covered(h, source, 0, PositionOf(h, s) + 1); }
      }
    }
  }

  /** Seeing more of the history costs nothing. */
  lemma SeenGrows(h: seq<Tx>, source: map<Signature, Position>, backfill: Backfill, live: Option<Record>, top: nat, seen: nat, more: nat)
    requires Safe(h, source, backfill, live, top, seen) && seen <= more <= |h|
    ensures Safe(h, source, backfill, live, top, more)
  {
    forall s <- source ensures RowAt(h, s, source[s], more) {
      assert RowAt(h, s, source[s], seen);
    }
  }

  // ---------------------------------------------------------- records and positions

  /** The i-th record of a slice, where it stands, and that the records before it are the successes before it. */
  lemma {:induction false} NthSuccess(h: seq<Tx>, a: nat, b: nat, shown: set<Signature>, i: nat) returns (p: nat)
    requires b <= |h| && i < |Successes(h, a, b, shown)|
    ensures a <= p < b && Describes(h, Successes(h, a, b, shown)[i], p)
    ensures Successes(h, a, p, shown) == Successes(h, a, b, shown)[..i]
    decreases b
  {
    var init := Successes(h, a, b - 1, shown);
    if i < |init| {
      p := NthSuccess(h, a, b - 1, shown, i);
      assert init[..i] == Successes(h, a, b, shown)[..i];
    } else {
      p := b - 1;
      assert init == Successes(h, a, b, shown)[..i];
    }
  }

  lemma {:induction false} SuccessListed(h: seq<Tx>, a: nat, b: nat, shown: set<Signature>, p: nat)
    requires b <= |h| && a <= p < b && !h[p].failed
    ensures RecordOf(h[p], shown) in Successes(h, a, b, shown)
    decreases b
  {
    if p < b - 1 { SuccessListed(h, a, b - 1, shown, p); }
  }

  ghost predicate AllPersisted(source: map<Signature, Position>, records: seq<Record>) {
    forall r <- records :: r.signature in source
  }

  /** Once every record of a slice is persisted, the slice is covered. */
  lemma SliceCovered(h: seq<Tx>, source: map<Signature, Position>, a: nat, b: nat, shown: set<Signature>)
    requires b <= |h| && AllPersisted(source, Successes(h, a, b, shown))
    ensures Covered(h, source, a, b)
  {
    forall p | a <= p < b && !h[p].failed ensures h[p].signature in source {
      SuccessListed(h, a, b, shown, p);
    }
  }

  lemma CoveredJoin(h: seq<Tx>, source: map<Signature, Position>, a: nat, b: nat, c: nat)
    requires Covered(h, source, a, b) && Covered(h, source, b, c)
    ensures Covered(h, source, a, c)
  {
  }

  /** A saved page moves the cursor over a covered slice. */
  lemma CursorKeepsSafe(h: seq<Tx>, source: map<Signature, Position>, backfill: Backfill, top: nat, seen: nat, top': nat,
                        cursor: nat, hi: nat, next: Option<Signature>)
    requires Safe(h, source, backfill, None, top, seen) && !backfill.completed
    requires if backfill.before.None? then top' == seen == hi else top' == top && hi == PositionOf(h, backfill.before.value)
    requires cursor <= hi && Covered(h, source, cursor, hi)
    requires if next.None? then cursor == 0 && hi == 0 else cursor < hi && next == Some(h[cursor].signature)
    ensures var before := if next.Some? then next else backfill.before;
      Safe(h, source, Backfill(before, next.None?), None, top', seen)
    ensures next.None? ==> Covered(h, source, 0, top')
  {
    if next.Some? { PositionUnique(h, cursor); }
    if backfill.before.Some? { CoveredJoin(h, source, cursor, hi, top); }
    if next.None? {
      assert Covered(h, source, 0, top');
      forall s <- source ensures Covered(h, source, 0, PositionOf(h, s) + 1) {
        assert RowAt(h, s, source[s], top');
      }
    }
  }

  /** Advancing the live checkpoint to a covered position. */
  lemma LiveKeepsSafe(h: seq<Tx>, source: map<Signature, Position>, backfill: Backfill, live: Option<Record>, top: nat, seen: nat, r: Record, p: nat)
    requires Safe(h, source, backfill, live, top, seen) && backfill.completed
    requires Describes(h, r, p) && Covered(h, source, 0, p + 1) && p < seen
    ensures Safe(h, source, backfill, Some(r), top, seen)
  {
    PositionUnique(h, p);
  }

  // ------------------------------------------------------------- when a run succeeds

  /** The checked conversions to BIGINT and INTEGER. */
  predicate Storable(r: Record) {
    r.slot <= I64_MAX && (r.index.Some? ==> r.index.value <= I32_MAX)
  }

  /** Writing the record again is an exact replay, or the first time. */
  predicate Replays(source: map<Signature, Position>, r: Record) {
    r.signature in source ==> source[r.signature] == Position(r.slot, r.index)
  }

  ghost predicate AllReplay(source: map<Signature, Position>, records: seq<Record>) {
    forall r <- records :: Storable(r) && Replays(source, r)
  }

  /** The order of two successive positions can be proved from what is stored. */
  predicate Advances(before: Option<Record>, r: Record) {
    before.Some? ==> before.value.slot < r.slot || (before.value.index.Some? && r.index.Some?)
  }

  /** Record i follows the checkpoint it meets: the one before it, or the old one. */
  predicate Follows(live: Option<Record>, records: seq<Record>, i: nat)
    requires i < |records|
  {
    Advances(if i == 0 then live else Some(records[i - 1]), records[i])
  }

  /** What it takes to process a gap: no row conflicts, and each position provably follows the one before. */
  ghost predicate Recoverable(source: map<Signature, Position>, live: Option<Record>, records: seq<Record>) {
    && AllReplay(source, records)
    && forall i :: 0 <= i < |records| ==> Follows(live, records, i)
  }

  lemma AdvancesExactly(h: seq<Tx>, before: Record, r: Record, p: nat, q: nat)
    requires Chronological(h) && Describes(h, before, p) && Describes(h, r, q) && p < q
    ensures DecideUpdate(before, r).Replace? <==> Advances(Some(before), r)
    ensures DecideUpdate(before, r).Refuse? <==> !Advances(Some(before), r)
  {
    assert EarlierThan(h[p], h[q]);
  }

  lemma {:induction false} SuccessWithin(h: seq<Tx>, a: nat, b: nat, shown: set<Signature>, r: Record)
    requires Chronological(h) && b <= |h| && r in Successes(h, a, b, shown)
    ensures a <= PositionOf(h, r.signature) < b && Describes(h, r, PositionOf(h, r.signature))
    ensures r == RecordOf(h[PositionOf(h, r.signature)], shown)
    decreases b
  {
    if r in Successes(h, a, b - 1, shown) {
      SuccessWithin(h, a, b - 1, shown, r);
    } else {
      PositionUnique(h, b - 1);
    }
  }

  lemma {:induction false} SuccessesLength(h: seq<Tx>, a: nat, b: nat, shown: set<Signature>)
    requires a <= b <= |h|
    ensures |Successes(h, a, b, shown)| <= b - a
    decreases b
  {
    if a < b { SuccessesLength(h, a, b - 1, shown); }
  }

  /** Rows are never altered, and new ones stand at position `pos` or later. */
  ghost predicate GrownFrom(h: seq<Tx>, source: map<Signature, Position>, source': map<Signature, Position>, pos: nat) {
    && (forall s <- source :: s in source' && source'[s] == source[s])
    && (forall s <- source' :: s !in source ==> PositionOf(h, s) >= pos)
  }

  ghost predicate RowsKept(source: map<Signature, Position>, source': map<Signature, Position>) {
    forall s <- source :: s in source' && source'[s] == source[s]
  }

  /** Rows further on do not matter to a slice. */
  lemma SliceReplays(h: seq<Tx>, source: map<Signature, Position>, source': map<Signature, Position>, a: nat, pos: nat, shown: set<Signature>)
    requires Chronological(h) && pos <= |h| && GrownFrom(h, source, source', pos)
    ensures AllReplay(source', Successes(h, a, pos, shown)) <==> AllReplay(source, Successes(h, a, pos, shown))
  {
    forall r <- Successes(h, a, pos, shown) ensures Replays(source', r) <==> Replays(source, r) {
      SuccessWithin(h, a, pos, shown, r);
    }
  }

  lemma ReplaySplit(h: seq<Tx>, source: map<Signature, Position>, a: nat, b: nat, c: nat, shown: set<Signature>)
    requires a <= b <= c <= |h|
    ensures AllReplay(source, Successes(h, a, c, shown))
      <==> AllReplay(source, Successes(h, a, b, shown)) && AllReplay(source, Successes(h, b, c, shown))
  {
    SuccessesSplit(h, a, b, c, shown);
    var x, y := Successes(h, a, b, shown), Successes(h, b, c, shown);
    assert forall r :: r in x + y <==> r in x || r in y;
  }

  /** The checkpoint has no index, and a later success stands in its slot. */
  ghost predicate StuckAt(h: seq<Tx>, live: Record, hi: nat) {
    live.index.None? && exists q :: PositionOf(h, live.signature) < q < hi && q < |h| && !h[q].failed && h[q].slot == live.slot
  }

  /** Then the next record is in that slot too, and is refused, whatever the server shows. */
  lemma StuckAtRefuses(h: seq<Tx>, live: Record, hi: nat, shown: set<Signature>)
    requires Chronological(h) && hi <= |h| && Describes(h, live, PositionOf(h, live.signature)) && StuckAt(h, live, hi)
    ensures var records := Successes(h, PositionOf(h, live.signature) + 1, hi, shown);
      records != [] && !Advances(Some(live), records[0])
  {
    hide Successes, PositionOf, Advances;
    var p := PositionOf(h, live.signature);
    var q :| p < q < hi && !h[q].failed && h[q].slot == live.slot;
    SuccessListed(h, p + 1, hi, shown, q);
    var records := Successes(h, p + 1, hi, shown);
    var first := NthSuccess(h, p + 1, hi, shown, 0);
    if q < first {
      SuccessListed(h, p + 1, first, shown, q);
      assert false;
    }
    assert EarlierThan(h[p], h[first]) && (first < q ==> EarlierThan(h[first], h[q]));
    assert !Advances(Some(live), records[0]) by { SlotMateRefused(live, records[0]); }
  }

  lemma SlotMateRefused(live: Record, r: Record)
    requires live.index.None? && r.slot == live.slot
    ensures !Advances(Some(live), r)
  {
  }

  /** A row stored without its index refuses every retry in which the server shows it. */
  lemma LateIndexIsRefused(h: seq<Tx>, source: map<Signature, Position>, live: Option<Record>, lo: nat, hi: nat, shown: set<Signature>, q: nat)
    requires hi <= |h| && lo <= q < hi && !h[q].failed && h[q].signature in shown
    requires h[q].signature in source && source[h[q].signature].index.None?
    ensures !Recoverable(source, live, Successes(h, lo, hi, shown))
  {
    SuccessListed(h, lo, hi, shown, q);
    assert !Replays(source, RecordOf(h[q], shown));
  }

  // -------------------------------------------------------------------- the database

  datatype BackfillOutcome = AlreadyComplete | Completed | MorePages | BackfillFailed

  datatype LiveOutcome = LiveCaughtUp(processed: nat) | LiveLimit | LiveFailed

  /** One attempt: how much is finalized at each request, which indexes and requests the server drops, and how many
      durable writes happen before a failure or crash. */
  datatype Attempt = Attempt(visible: seq<nat>, shown: set<Signature>, fails: set<nat>, writes: nat)

  /** Row order of `load_latest_source_position`: slot, then known index, then signature. */
  predicate NotAfter(a: Record, b: Record) {
    if a.slot != b.slot then a.slot < b.slot
    else if a.index != b.index then a.index.None? || (b.index.Some? && a.index.value < b.index.value)
    else a.signature <= b.signature
  }

  function RowRecord(source: map<Signature, Position>, s: Signature): Record
    requires s in source
  {
    Record(s, source[s].slot, source[s].index)
  }

  /** The newest row in that order. */
  ghost predicate IsLatest(source: map<Signature, Position>, r: Record) {
    r.signature in source && r == RowRecord(source, r.signature) && forall s <- source :: NotAfter(RowRecord(source, s), r)
  }

  function SignatureOf(r: Option<Record>): Option<Signature> {
    if r.None? then None else Some(r.value.signature)
  }

  /** Where a processed gap leaves the checkpoint. */
  function LastOf(live: Option<Record>, records: seq<Record>): Option<Record> {
    if records == [] then live else Some(records[|records| - 1])
  }

  /** Where live recovery starts: the checkpoint, or else the newest row. */
  ghost predicate IsBoundary(source: map<Signature, Position>, live: Option<Record>, boundary: Option<Record>) {
    if live.Some? then boundary == live
    else (boundary.None? <==> source == map[]) && (boundary.Some? ==> IsLatest(source, boundary.value))
  }

  class Store {
    /** Everything that is ever finalized for the program; requests only see prefixes of it. */
    const history: seq<Tx>
    var source: map<Signature, Position>
    var backfill: Backfill
    var live: Option<Record>
    /** Durable writes left before the next failure. */
    var writes: nat
    ghost var top: nat
    ghost var seen: nat

    ghost predicate Valid()
      reads this
    {
      Safe(history, source, backfill, live, top, seen)
    }

    constructor (history: seq<Tx>)
      requires Chronological(history)
      ensures Valid() && this.history == history && source == map[] && live.None? && backfill == Backfill(None, false) && seen == 0
    {
      this.history := history;
      source, backfill, live, writes := map[], Backfill(None, false), None, 0;
      top, seen := 0, 0;
    }

    /** `persist_transaction`: a new row or an exact replay succeeds, a different row with the same signature fails. */
    method Persist(r: Record) returns (ok: bool)
      modifies this`source, this`writes
      ensures ok <==> old(writes) > 0 && Storable(r) && Replays(old(source), r)
      ensures source == if ok then old(source)[r.signature := Position(r.slot, r.index)] else old(source)
      ensures old(source).Keys <= source.Keys
      ensures ok ==> writes == old(writes) - 1
    {
      if !Storable(r) || writes == 0 { return false; }
      writes := writes - 1;
      if r.signature in source {
        ok := source[r.signature] == Position(r.slot, r.index);
        return;
      }
      source := source[r.signature := Position(r.slot, r.index)];
      ok := true;
    }

    /** `save_backfill_checkpoint`. */
    method SaveBackfill(before: Option<Signature>, completed: bool) returns (ok: bool)
      modifies this`backfill, this`writes
      ensures ok <==> old(writes) > 0
      ensures ok ==> writes == old(writes) - 1
      ensures backfill == if ok then Backfill(before, completed) else old(backfill)
    {
      if writes == 0 { return false; }
      writes := writes - 1;
      backfill := Backfill(before, completed);
      ok := true;
    }

    /** `save_live_checkpoint`: inserts, advances or keeps; anything that is not provably forward is refused. */
    method SaveLive(incoming: Record) returns (ok: bool)
      modifies this`live, this`writes
      ensures ok <==> old(writes) > 0 && Storable(incoming) && (old(live).Some? ==> !DecideUpdate(old(live).value, incoming).Refuse?)
      ensures ok ==> writes == old(writes) - 1
      ensures !ok ==> live == old(live)
      ensures ok ==> live == if old(live).None? || DecideUpdate(old(live).value, incoming).Replace? then Some(incoming) else old(live)
    {
      if !Storable(incoming) || writes == 0 { return false; }
      if live.None? {
        live := Some(incoming);
      } else {
        var decision := DecideUpdate(live.value, incoming);
        if decision.Refuse? { return false; }
        if decision.Replace? { live := Some(incoming); }
      }
      writes := writes - 1;
      ok := true;
    }

    /** The record loop of one backfill page. */
    method PersistPage(records: seq<Record>, ghost a: nat, ghost b: nat, ghost shown: set<Signature>) returns (ok: bool)
      requires Valid() && live.None? && !backfill.completed
      requires b <= seen && records == Successes(history, a, b, shown)
      requires backfill.before.Some? ==> b <= top
      modifies this`source, this`writes
      ensures Valid() && GrownFrom(history, old(source), source, a)
      ensures ok ==> AllPersisted(source, records) && AllReplay(old(source), records) && writes == old(writes) - |records|
      ensures old(writes) >= |records| ==> (ok <==> AllReplay(old(source), records))
    {
      hide Safe, Successes, Storable;
      SeenBound(history, source, backfill, live, top, seen);
      ghost var source0 := source;
      for i := 0 to |records|
        invariant Valid() && writes == old(writes) - i
        invariant AllPersisted(source, records[..i]) && AllReplay(source0, records[..i])
        invariant GrownFrom(history, source0, source, a)
        invariant forall s <- source :: s in source0 || exists j :: 0 <= j < i && records[j].signature == s
      {
        ghost var p := NthSuccess(history, a, b, shown, i);
        PositionUnique(history, p);
        EarlierRecordsDiffer(history, a, b, shown, i, p);
        ghost var before := source;
        assert Replays(before, records[i]) <==> Replays(source0, records[i]);
        ok := Persist(records[i]);
        if source != before {
          PersistKeepsSafe(history, before, backfill, live, top, seen, records[i], p);
        }
        if !ok {
          assert records[i] in records;
          return;
        }
        assert records[..i + 1] == records[..i] + [records[i]];
      }
      assert records[..|records|] == records;
      ok := true;
    }

    /** One page of `run_pages`: every record, then the cursor. */
    method CommitPage(page: Page, ghost a: nat, ghost b: nat, ghost shown: set<Signature>) returns (ok: bool)
      requires Valid() && live.None? && !backfill.completed
      requires a <= b <= seen && page.records == Successes(history, a, b, shown)
      requires if backfill.before.None? then b == seen else b == PositionOf(history, backfill.before.value) <= top
      requires if page.next.None? then a == 0 && b == 0 else a < b && page.next == Some(history[a].signature)
      modifies this`source, this`writes, this`backfill, this`top
      ensures Valid() && GrownFrom(history, old(source), source, a)
      ensures backfill == if ok then Backfill(if page.next.Some? then page.next else old(backfill.before), page.next.None?) else old(backfill)
      ensures ok ==> AllReplay(old(source), page.records) && writes == old(writes) - |page.records| - 1
      ensures old(writes) > |page.records| ==> (ok <==> AllReplay(old(source), page.records))
    {
      hide Safe, Successes, Covered, AllReplay, GrownFrom;
      SeenBound(history, source, backfill, live, top, seen);
      ok := PersistPage(page.records, a, b, shown);
      if !ok { return; }
      SliceCovered(history, source, a, b, shown);
      ghost var top' := if backfill.before.None? then seen else top;
      CursorKeepsSafe(history, source, backfill, top, seen, top', a, b, page.next);
      ok := SaveBackfill(if page.next.Some? then page.next else backfill.before, page.next.None?);
      if ok { top := top'; }
    }

    /**
     * `run_backfill` and `run_pages`: the cursor moves only after its whole page is persisted. When requests and writes
     * succeed it fails exactly when a row of the pages in reach conflicts, and completes exactly when they are enough.
     */
    method RunBackfill(limit: nat, maxPages: nat, attempt: Attempt) returns (outcome: BackfillOutcome)
      requires Valid()
      requires |attempt.visible| >= maxPages && (maxPages > 0 ==> seen <= attempt.visible[0] <= |history|)
      modifies this
      ensures Valid() && live == old(live) && seen >= old(seen) && (maxPages > 0 ==> seen <= attempt.visible[0])
      ensures outcome.AlreadyComplete? <==> old(backfill.completed)
      ensures outcome.AlreadyComplete? ==> backfill == old(backfill) && source == old(source)
      ensures outcome.Completed? || outcome.AlreadyComplete? ==> backfill.completed && top <= |history| && Covered(history, source, 0, top)
      ensures old(backfill.completed) ==> backfill.completed
      ensures maxPages > 0 && !old(backfill.completed) && Untroubled(limit, maxPages, attempt) ==>
        var hi := old(BackfillStart(attempt));
        var reach := PageStart(0, hi, maxPages * limit);
        && hi <= |history|
        && (outcome.BackfillFailed? <==> !AllReplay(old(source), Successes(history, reach, hi, attempt.shown)))
        && (outcome.Completed? <==> AllReplay(old(source), Successes(history, reach, hi, attempt.shown)) && hi <= (maxPages - 1) * limit)
    {
      hide Safe, Successes, Covered, BuildPage, Serve, BackfillSafe, AllReplay, GrownFrom, Storable, Paged, PageStart, RowsWithin, LiveSafe,
        DownwardClosed, Chronological;
      writes := attempt.writes;
      if backfill.completed {
        CompletedCovers(history, source, backfill, live, top, seen);
        return AlreadyComplete;
      }
      IncompleteHasNoLive(history, source, backfill, live, top, seen);
      ghost var source0, shown, fine := source, attempt.shown, Untroubled(limit, maxPages, attempt);
      ghost var hi0: nat := if maxPages > 0 then BackfillStart(attempt) else 0;
      ghost var pos: nat := hi0;
      BackfillBegins(history, source, backfill, top, seen, hi0, shown);
      for k := 0 to maxPages
        invariant Valid() && live.None? && old(live).None? && !backfill.completed && seen >= old(seen)
        invariant maxPages > 0 ==> seen <= attempt.visible[0] <= |history|
        invariant k > 0 ==> backfill.before.Some?
        invariant maxPages > 0 ==> pos == BackfillStart(attempt)
        invariant Paged(history, source0, source, limit, k, hi0, pos, shown)
        invariant fine ==> attempt.writes - writes <= (hi0 - pos) + k
      {
        if k in attempt.fails || limit == 0 { return BackfillFailed; }
        if backfill.before.None? {
          SeenGrows(history, source, backfill, live, top, seen, attempt.visible[0]);
          seen := attempt.visible[0];
        }
        var page := BuildPage(Serve(history, attempt.visible[k], backfill.before, None, limit, attempt.shown));
        ghost var hi := if backfill.before.None? then seen else PositionOf(history, backfill.before.value);
        ghost var cursor := PageStart(0, hi, limit);
        ServedPage(history, source, backfill, top, seen, attempt.visible[k], limit, attempt.shown);
        PageStep(history, source0, source, limit, maxPages, k, hi0, pos, shown);
        ghost var before := source;
        var saved := CommitPage(page, cursor, hi, attempt.shown);
        if !saved { return BackfillFailed; }
        PagePersisted(history, source0, before, source, limit, k, hi0, pos, shown);
        if page.next.None? {
          CompletedCovers(history, source, backfill, live, top, seen);
          return Completed;
        }
        pos := cursor;
      }
      PagesEnd(history, source0, source, limit, maxPages, hi0, pos, shown);
      outcome := MorePages;
    }

    /** Where the next backfill page ends. */
    ghost function BackfillStart(attempt: Attempt): nat
      reads this
      requires |attempt.visible| > 0
    {
      if backfill.before.None? then attempt.visible[0] else PositionOf(history, backfill.before.value)
    }

    /** No request fails, and there are writes for every row and checkpoint. */
    ghost predicate Untroubled(limit: nat, maxPages: nat, attempt: Attempt)
    {
      limit > 0 && (forall k :: 0 <= k < maxPages ==> k !in attempt.fails) && attempt.writes >= 2 * |history| + maxPages + 1
    }

    /** `load_latest_source_position`: the last row in slot, known-index and signature order. */
    method LatestSource() returns (r: Option<Record>)
      ensures r.None? <==> source == map[]
      ensures r.Some? ==> r.value.signature in source && r.value == RowRecord(source, r.value.signature)
                          && forall s <- source :: NotAfter(RowRecord(source, s), r.value)
      ensures r.Some? ==> forall s <- source ::
        && source[s].slot <= r.value.slot
        && (source[s].slot == r.value.slot && source[s].index.Some? ==> r.value.index.Some? && source[s].index.value <= r.value.index.value)
        && (source[s].slot == r.value.slot && source[s].index == r.value.index ==> s <= r.value.signature)
    {
      r := None;
      var left := source.Keys;
      while left != {}
        invariant left <= source.Keys
        invariant r.None? <==> left == source.Keys
        invariant r.Some? ==> r.value.signature in source && r.value == RowRecord(source, r.value.signature)
        invariant r.Some? ==> forall s <- source.Keys - left :: NotAfter(RowRecord(source, s), r.value)
        decreases |left|
      {
        var s :| s in left;
        left := left - {s};
        if r.None? || NotAfter(r.value, RowRecord(source, s)) { r := Some(RowRecord(source, s)); }
      }
    }

    /** `load_or_initialize_live_checkpoint`: existing progress wins, otherwise the newest source row is saved. */
    method LoadOrInitialize() returns (ok: bool, checkpoint: Option<Record>, ghost boundary: Option<Record>)
      requires Valid() && backfill.completed
      modifies this`live, this`writes
      ensures Valid() && IsBoundary(source, old(live), boundary)
      ensures ok <==> old(live).Some? || boundary.None? || (old(writes) > 0 && Storable(boundary.value))
      ensures ok ==> checkpoint == live == boundary && writes >= old(writes) - 1
      ensures !ok ==> live == old(live)
      ensures old(live).Some? ==> live == old(live)
    {
      hide Safe;
      boundary := live;
      if live.Some? { return true, live, boundary; }
      var latest := LatestSource();
      boundary := latest;
      if latest.None? { return true, None, boundary; }
      ghost var p := RowPosition(history, source, backfill, top, seen, latest.value.signature);
      LiveKeepsSafe(history, source, backfill, live, top, seen, latest.value, p);
      ok := SaveLive(latest.value);
      checkpoint := live;
    }

    /** One record of a gap: its source row, and only then the checkpoint. */
    method ProcessRecord(r: Record, ghost p: nat) returns (ok: bool)
      requires Valid() && backfill.completed && Describes(history, r, p) && p < seen && Covered(history, source, 0, p)
      requires live.Some? ==> PositionOf(history, live.value.signature) < p
      modifies this`source, this`live, this`writes
      ensures Valid()
      ensures source == old(source) || (r.signature !in old(source) && source == old(source)[r.signature := Position(r.slot, r.index)])
      ensures ok ==> r.signature in source && live == Some(r) && writes == old(writes) - 2
      ensures ok ==> Storable(r) && Replays(old(source), r) && Advances(old(live), r)
      ensures Storable(r) && Replays(old(source), r) && Advances(old(live), r) && old(writes) >= 2 ==> ok
      ensures !ok ==> live == old(live)
    {
      hide Safe, Covered, Describes, Storable, Advances, DecideUpdate;
      ghost var before := source;
      ok := Persist(r);
      if source != before {
        PersistKeepsSafe(history, before, backfill, live, top, seen, r, p);
        CoveredGrows(history, before, source, 0, p);
      }
      if !ok { return; }
      CoveredNext(history, source, r, p);
      LiveKeepsSafe(history, source, backfill, live, top, seen, r, p);
      LiveAdvances(history, source, backfill, live, top, seen, r, p);
      ok := SaveLive(r);
    }

    /**
     * `process_gap_records`: source row first, checkpoint second, one transaction at a time. With enough writes it
     * gets to the end exactly when the gap is recoverable; a refused first record leaves the checkpoint where it was.
     */
    method ProcessGap(gap: Gap, ghost lo: nat, ghost hi: nat, ghost shown: set<Signature>) returns (outcome: LiveOutcome)
      requires Valid() && backfill.completed && hi <= seen
      requires gap.CaughtUp? ==> gap.records == Successes(history, lo, hi, shown) && Covered(history, source, 0, lo)
      requires live.Some? ==> PositionOf(history, live.value.signature) < lo
      modifies this`source, this`live, this`writes
      ensures Valid() && RowsKept(old(source), source)
      ensures outcome.LiveCaughtUp? ==> gap.CaughtUp? && outcome.processed == |gap.records| && Covered(history, source, 0, hi)
      ensures outcome.LiveCaughtUp? ==> Recoverable(old(source), old(live), gap.records) && live == LastOf(old(live), gap.records)
      ensures gap.CaughtUp? && Recoverable(old(source), old(live), gap.records) && old(writes) >= 2 * |gap.records| ==> outcome.LiveCaughtUp?
      ensures gap.CaughtUp? && gap.records != [] && !Advances(old(live), gap.records[0]) ==> live == old(live)
      ensures !gap.CaughtUp? ==> source == old(source) && live == old(live)
      ensures outcome.LiveLimit? <==> gap.PageLimitReached?
    {
      hide Safe, Successes, Covered, Describes, Storable, Replays, Advances, Recoverable, Partway, RowsKept;
      if gap.PageLimitReached? { KeepAll(source); return LiveLimit; }
      if gap.Failed? { KeepAll(source); return LiveFailed; }
      var records := gap.records;
      ghost var source0, live0 := source, live;
      SeenBound(history, source, backfill, live, top, seen);
      PartwayStarts(source, live, records);
      for i := 0 to |records|
        invariant Valid() && writes == old(writes) - 2 * i
        invariant Covered(history, source, 0, lo) && AllPersisted(source, records[..i])
        invariant Partway(source0, live0, source, live, records, i)
      {
        ghost var p := NthSuccess(history, lo, hi, shown, i);
        EarlierRecordsDiffer(history, lo, hi, shown, i, p);
        SliceCovered(history, source, lo, p, shown);
        CoveredJoin(history, source, 0, lo, p);
        ghost var before, liveBefore := source, live;
        PartwayRecord(source0, live0, source, live, records, i);
        var processed := ProcessRecord(records[i], p);
        PartwayStep(source0, live0, before, liveBefore, source, records, i);
        if !processed { return LiveFailed; }
        CoveredGrows(history, before, source, 0, lo);
        assert records[..i + 1] == records[..i] + [records[i]];
      }
      assert records[..|records|] == records;
      PartwayEnds(source0, live0, source, live, records);
      SliceCovered(history, source, lo, hi, shown);
      CoveredJoin(history, source, 0, lo, hi);
      outcome := LiveCaughtUp(|records|);
    }

    /**
     * `recover_live_gap`: whenever it reports caught up, nothing finalized at its first request is unprocessed. When
     * requests and writes succeed it is caught up exactly when the boundary can be stored, the gap fits the pages, no
     * row conflicts, and every position provably follows the one before. Behind a checkpoint without an index it is
     * stuck for good as soon as another success stands in that slot.
     */
    method RecoverLiveGap(limit: nat, maxPages: nat, attempt: Attempt) returns (outcome: LiveOutcome, ghost boundary: Option<Record>)
      requires Valid() && backfill.completed
      requires |attempt.visible| >= maxPages && (maxPages > 0 ==> seen <= attempt.visible[0] <= |history|)
      modifies this
      ensures Valid() && backfill == old(backfill) && seen >= old(seen) && (maxPages > 0 ==> seen <= attempt.visible[0])
      ensures RowsKept(old(source), source) && IsBoundary(old(source), old(live), boundary)
      ensures outcome.LiveCaughtUp? ==> maxPages > 0 && Covered(history, source, 0, attempt.visible[0])
      ensures outcome.LiveCaughtUp? ==>
        Start(history, SignatureOf(boundary)) <= attempt.visible[0]
        && live == LastOf(boundary, Successes(history, Start(history, SignatureOf(boundary)), attempt.visible[0], attempt.shown))
      ensures outcome.LiveLimit? ==> source == old(source)
      ensures maxPages > 0 && Untroubled(limit, maxPages, attempt) ==>
        var lo, hi := Start(history, SignatureOf(boundary)), attempt.visible[0];
        && lo <= hi
        && (outcome.LiveCaughtUp? <==>
              && (old(live).None? && boundary.Some? ==> Storable(boundary.value))
              && hi - lo <= (maxPages - 1) * limit
              && Recoverable(old(source), boundary, Successes(history, lo, hi, attempt.shown)))
      ensures maxPages > 0 && old(live).Some? && StuckAt(history, old(live).value, attempt.visible[0]) ==>
        !outcome.LiveCaughtUp? && live == old(live)
    {
      hide Safe, Successes, Covered, Describes, Serve, Honest, Storable, Recoverable, StuckAt, IsLatest, Advances;
      writes := attempt.writes;
      var ok, checkpoint;
      ok, checkpoint, boundary := LoadOrInitialize();
      SeenBound(history, source, backfill, live, top, seen);
      BoundaryPosition(history, source, backfill, live, top, seen, old(live), boundary, if maxPages > 0 then attempt.visible[0] else seen);
      if !ok { return LiveFailed, boundary; }
      var until := SignatureOf(checkpoint);
      var gap := CollectGapPages(history, attempt.visible, until, limit, maxPages, attempt.shown, attempt.fails);
      ghost var lo := Start(history, until);
      if maxPages > 0 {
        BoundaryCovered(history, source, backfill, live, top, seen, attempt.visible[0]);
        SeenGrows(history, source, backfill, live, top, seen, attempt.visible[0]);
        seen := attempt.visible[0];
        SuccessesLength(history, lo, seen, attempt.shown);
        if live.Some? && StuckAt(history, live.value, seen) { StuckRecovery(history, source, backfill, live, top, seen, attempt.shown); }
      }
      outcome := ProcessGap(gap, lo, seen, attempt.shown);
    }

    /**
     * Any sequence of process starts, backfill runs and live recoveries, each failing or crashing wherever it likes:
     * every checkpoint stays safe. As in `main`, live recovery only runs after the backfill has completed.
     */
    method RunAll(limit: nat, maxPages: nat, steps: seq<(bool, Attempt)>)
      requires Valid() && maxPages > 0
      requires forall i :: 0 <= i < |steps| ==> |steps[i].1.visible| >= maxPages && seen <= steps[i].1.visible[0] <= |history|
      requires forall i, j :: 0 <= i < j < |steps| ==> steps[i].1.visible[0] <= steps[j].1.visible[0]
      modifies this
      ensures Valid()
    {
      hide Safe;
      for i := 0 to |steps|
        invariant Valid()
        invariant forall j :: i <= j < |steps| ==> seen <= steps[j].1.visible[0]
      {
        if steps[i].0 {
          var _ := RunBackfill(limit, maxPages, steps[i].1);
        } else if backfill.completed {
          var _, _ := RecoverLiveGap(limit, maxPages, steps[i].1);
        }
      }
    }
  }

  /** After k pages: everything from `pos` on was an exact replay or new. */
  ghost predicate Paged(h: seq<Tx>, source0: map<Signature, Position>, source: map<Signature, Position>, limit: nat, k: nat, hi: nat,
                        pos: nat, shown: set<Signature>)
  {
    && Chronological(h) && pos <= hi <= |h|
    && pos == PageStart(0, hi, k * limit)
    && (k > 0 ==> (k - 1) * limit < hi)
    && GrownFrom(h, source0, source, pos)
    && AllReplay(source0, Successes(h, pos, hi, shown))
  }

  lemma BackfillBegins(h: seq<Tx>, source: map<Signature, Position>, backfill: Backfill, top: nat, seen: nat, hi: nat, shown: set<Signature>)
    requires Safe(h, source, backfill, None, top, seen)
    requires hi <= |h| || (backfill.before.Some? && hi == PositionOf(h, backfill.before.value))
    ensures forall limit: nat :: Paged(h, source, source, limit, 0, hi, hi, shown)
  {
    forall limit: nat ensures Paged(h, source, source, limit, 0, hi, hi, shown) {
      assert 0 * limit == 0;
      assert Successes(h, hi, hi, shown) == [];
    }
  }

  /** The next page is a slice of what is in reach; a conflict in it is a conflict with a row there was at the start. */
  lemma PageStep(h: seq<Tx>, source0: map<Signature, Position>, source: map<Signature, Position>, limit: nat, maxPages: nat, k: nat, hi: nat,
                 pos: nat, shown: set<Signature>)
    requires Paged(h, source0, source, limit, k, hi, pos, shown) && k < maxPages
    ensures var next, reach := PageStart(0, pos, limit), PageStart(0, hi, maxPages * limit);
      && reach <= next <= pos <= hi <= |h| && next == PageStart(0, hi, (k + 1) * limit)
      && |Successes(h, next, pos, shown)| <= pos - next
      && (AllReplay(source, Successes(h, next, pos, shown)) <==> AllReplay(source0, Successes(h, next, hi, shown)))
      && (AllReplay(source0, Successes(h, reach, hi, shown)) ==> AllReplay(source0, Successes(h, next, hi, shown)))
      && (pos == 0 ==> hi <= (maxPages - 1) * limit && reach == 0)
      && (pos > 0 ==> k * limit < hi)
  {
    hide Successes, AllReplay, GrownFrom;
    var next, reach := PageStart(0, pos, limit), PageStart(0, hi, maxPages * limit);
    assert (k + 1) * limit == k * limit + limit;
    PagesMonotone(k + 1, maxPages, limit);
    PagesMonotone(k, maxPages - 1, limit);
    SuccessesLength(h, next, pos, shown);
    SliceReplays(h, source0, source, next, pos, shown);
    ReplaySplit(h, source0, next, pos, hi, shown);
    ReplaySplit(h, source0, reach, next, hi, shown);
  }

  lemma PagePersisted(h: seq<Tx>, source0: map<Signature, Position>, source: map<Signature, Position>, source': map<Signature, Position>,
                      limit: nat, k: nat, hi: nat, pos: nat, shown: set<Signature>)
    requires Paged(h, source0, source, limit, k, hi, pos, shown) && limit > 0
    requires var next := PageStart(0, pos, limit);
      GrownFrom(h, source, source', next) && AllReplay(source, Successes(h, next, pos, shown))
    ensures var next := PageStart(0, pos, limit);
      pos > 0 ==> Paged(h, source0, source', limit, k + 1, hi, next, shown) && next < |h| && PositionOf(h, h[next].signature) == next
    ensures pos == 0 ==> AllReplay(source0, Successes(h, 0, hi, shown))
  {
    hide Successes, AllReplay;
    PageStep(h, source0, source, limit, k + 1, k, hi, pos, shown);
    if pos > 0 { PositionUnique(h, PageStart(0, pos, limit)); }
  }

  lemma PagesEnd(h: seq<Tx>, source0: map<Signature, Position>, source: map<Signature, Position>, limit: nat, maxPages: nat, hi: nat, pos: nat,
                 shown: set<Signature>)
    requires Paged(h, source0, source, limit, maxPages, hi, pos, shown)
    ensures pos == PageStart(0, hi, maxPages * limit) && AllReplay(source0, Successes(h, pos, hi, shown)) && hi <= |h|
    ensures maxPages > 0 ==> (maxPages - 1) * limit < hi
  {
  }

  /** A processed record's checkpoint is accepted exactly when its place can be proved, and is then the new one. */
  lemma LiveAdvances(h: seq<Tx>, source: map<Signature, Position>, backfill: Backfill, live: Option<Record>, top: nat, seen: nat, r: Record, p: nat)
    requires Safe(h, source, backfill, live, top, seen) && Describes(h, r, p)
    requires live.Some? ==> PositionOf(h, live.value.signature) < p
    ensures live.None? ==> Advances(live, r)
    ensures live.Some? ==> (DecideUpdate(live.value, r).Replace? <==> Advances(live, r)) && (DecideUpdate(live.value, r).Refuse? <==> !Advances(live, r))
  {
    if live.Some? { AdvancesExactly(h, live.value, r, PositionOf(h, live.value.signature), p); }
  }

  /** After i records of a gap: the checkpoint is the last of them, and each was recoverable from the start. */
  ghost predicate Partway(source0: map<Signature, Position>, live0: Option<Record>, source: map<Signature, Position>, live: Option<Record>,
                          records: seq<Record>, i: nat)
  {
    && i <= |records|
    && live == (if i == 0 then live0 else Some(records[i - 1]))
    && RowsKept(source0, source)
    && (forall s <- source :: s in source0 || exists j :: 0 <= j < i && records[j].signature == s)
    && (forall j {:trigger records[j]} :: 0 <= j < i ==> Storable(records[j]) && Replays(source0, records[j]) && Follows(live0, records, j))
  }

  lemma KeepAll(source: map<Signature, Position>)
    ensures RowsKept(source, source)
  {
  }

  lemma PartwayStarts(source: map<Signature, Position>, live: Option<Record>, records: seq<Record>)
    ensures Partway(source, live, source, live, records, 0)
  {
  }

  lemma PartwayRecord(source0: map<Signature, Position>, live0: Option<Record>, source: map<Signature, Position>, live: Option<Record>,
                      records: seq<Record>, i: nat)
    requires Partway(source0, live0, source, live, records, i) && i < |records|
    requires forall j :: 0 <= j < i ==> records[j].signature != records[i].signature
    ensures live == if i == 0 then live0 else Some(records[i - 1])
    ensures Replays(source, records[i]) <==> Replays(source0, records[i])
    ensures Recoverable(source0, live0, records) ==> Storable(records[i]) && Replays(source0, records[i]) && Advances(live, records[i])
    ensures i > 0 ==> Advances(live0, records[0])
    ensures RowsKept(source0, source)
  {
    hide Storable, Advances;
    if i > 0 { assert Follows(live0, records, 0); }
    if Recoverable(source0, live0, records) { assert Follows(live0, records, i) && records[i] in records; }
  }

  lemma PartwayStep(source0: map<Signature, Position>, live0: Option<Record>, source: map<Signature, Position>, live: Option<Record>,
                    source': map<Signature, Position>, records: seq<Record>, i: nat)
    requires Partway(source0, live0, source, live, records, i) && i < |records|
    requires var r := records[i];
      source' == source || (r.signature !in source && source' == source[r.signature := Position(r.slot, r.index)])
    ensures RowsKept(source0, source')
    ensures Storable(records[i]) && Replays(source0, records[i]) && Advances(live, records[i]) ==>
      Partway(source0, live0, source', Some(records[i]), records, i + 1)
  {
    hide Storable, Advances, Replays;
    forall s <- source' | s !in source0 ensures exists j :: 0 <= j < i + 1 && records[j].signature == s {
      if s in source {
        var j :| 0 <= j < i && records[j].signature == s;
      } else {
        assert records[i].signature == s;
      }
    }
    if Storable(records[i]) && Replays(source0, records[i]) && Advances(live, records[i]) {
      assert Follows(live0, records, i);
      forall j | 0 <= j < i + 1 ensures Storable(records[j]) && Replays(source0, records[j]) && Follows(live0, records, j) {
        if j < i { assert Partway(source0, live0, source, live, records, i); }
      }
    }
  }

  lemma PartwayEnds(source0: map<Signature, Position>, live0: Option<Record>, source: map<Signature, Position>, live: Option<Record>, records: seq<Record>)
    requires Partway(source0, live0, source, live, records, |records|)
    ensures Recoverable(source0, live0, records) && RowsKept(source0, source)
    ensures records != [] ==> Advances(live0, records[0])
    ensures live == LastOf(live0, records)
  {
    hide Storable, Advances, Replays;
    assert records != [] ==> Follows(live0, records, 0);
    forall i | 0 <= i < |records| ensures Follows(live0, records, i) {
      var _ := records[i];
    }
  }

  /** The boundary stands in the seen history. */
  lemma BoundaryPosition(h: seq<Tx>, source: map<Signature, Position>, backfill: Backfill, live: Option<Record>, top: nat, seen: nat,
                         live0: Option<Record>, boundary: Option<Record>, visible: nat)
    requires Safe(h, source, backfill, live, top, seen) && IsBoundary(source, live0, boundary) && seen <= visible <= |h|
    requires live0.Some? ==> live == live0
    ensures Start(h, SignatureOf(boundary)) <= visible
  {
    if live0.None? && boundary.Some? {
      assert RowAt(h, boundary.value.signature, source[boundary.value.signature], seen);
    }
  }

  lemma StuckRecovery(h: seq<Tx>, source: map<Signature, Position>, backfill: Backfill, live: Option<Record>, top: nat, seen: nat, shown: set<Signature>)
    requires Safe(h, source, backfill, live, top, seen) && live.Some? && StuckAt(h, live.value, seen)
    ensures var records := Successes(h, Start(h, SignatureOf(live)), seen, shown);
      records != [] && !Advances(live, records[0]) && !Recoverable(source, live, records)
  {
    StuckAtRefuses(h, live.value, seen, shown);
    var records := Successes(h, Start(h, SignatureOf(live)), seen, shown);
    hide Advances, Successes;
    assert !Follows(live, records, 0);
  }

  /** The records before one have other signatures and earlier positions. */
  lemma EarlierRecordsDiffer(h: seq<Tx>, a: nat, b: nat, shown: set<Signature>, i: nat, p: nat)
    requires Chronological(h) && b <= |h| && i < |Successes(h, a, b, shown)| && a <= p < b
    requires Describes(h, Successes(h, a, b, shown)[i], p) && Successes(h, a, p, shown) == Successes(h, a, b, shown)[..i]
    ensures var records := Successes(h, a, b, shown);
      forall j :: 0 <= j < i ==> records[j].signature != records[i].signature && Describes(h, records[j], PositionOf(h, records[j].signature))
                                 && PositionOf(h, records[j].signature) < p
  {
    hide Successes;
    var records := Successes(h, a, b, shown);
    PositionUnique(h, p);
    forall j | 0 <= j < i
      ensures records[j].signature != records[i].signature && Describes(h, records[j], PositionOf(h, records[j].signature))
              && PositionOf(h, records[j].signature) < p
    {
      assert records[j] == records[..i][j];
      SuccessWithin(h, a, p, shown, records[j]);
    }
  }

  lemma RowPosition(h: seq<Tx>, source: map<Signature, Position>, backfill: Backfill, top: nat, seen: nat, s: Signature) returns (p: nat)
    requires Safe(h, source, backfill, None, top, seen) && backfill.completed && s in source
    ensures Describes(h, RowRecord(source, s), p) && Covered(h, source, 0, p + 1) && p < seen
  {
    p := PositionOf(h, s);
    assert RowAt(h, s, source[s], seen);
  }

  lemma CoveredNext(h: seq<Tx>, source: map<Signature, Position>, r: Record, p: nat)
    requires Covered(h, source, 0, p) && Describes(h, r, p) && r.signature in source
    ensures Covered(h, source, 0, p + 1)
  {
  }

  /** The live boundary, if any, and everything before it is covered; without one there is nothing to cover. */
  lemma BoundaryCovered(h: seq<Tx>, source: map<Signature, Position>, backfill: Backfill, live: Option<Record>, top: nat, seen: nat, visible: nat)
    requires Safe(h, source, backfill, live, top, seen) && seen <= visible <= |h|
    ensures var until := if live.None? then None else Some(live.value.signature);
      && Honest(h, until, visible)
      && Covered(h, source, 0, Start(h, until))
  {
    hide RowsWithin, DownwardClosed;
  }

  lemma SeenBound(h: seq<Tx>, source: map<Signature, Position>, backfill: Backfill, live: Option<Record>, top: nat, seen: nat)
    requires Safe(h, source, backfill, live, top, seen)
    ensures seen <= |h| && Chronological(h)
  {
  }

  lemma CompletedCovers(h: seq<Tx>, source: map<Signature, Position>, backfill: Backfill, live: Option<Record>, top: nat, seen: nat)
    requires Safe(h, source, backfill, live, top, seen) && backfill.completed
    ensures top <= |h| && Covered(h, source, 0, top)
  {
  }

  lemma IncompleteHasNoLive(h: seq<Tx>, source: map<Signature, Position>, backfill: Backfill, live: Option<Record>, top: nat, seen: nat)
    requires Safe(h, source, backfill, live, top, seen) && !backfill.completed
    ensures live.None?
  {
  }

  /** What one backfill request returns, from the stored cursor. */
  lemma ServedPage(h: seq<Tx>, source: map<Signature, Position>, backfill: Backfill, top: nat, seen: nat, visible: nat, limit: nat, shown: set<Signature>)
    requires Safe(h, source, backfill, None, top, seen) && limit > 0 && (backfill.before.None? ==> visible == seen)
    ensures var hi := if backfill.before.None? then seen else PositionOf(h, backfill.before.value);
      var cursor := PageStart(0, hi, limit);
      var page := BuildPage(Serve(h, visible, backfill.before, None, limit, shown));
      && hi <= seen <= |h| && (backfill.before.Some? ==> hi <= top)
      && page.records == Successes(h, cursor, hi, shown)
      && (if page.next.None? then cursor == 0 && hi == 0 else cursor < hi && page.next == Some(h[cursor].signature))
  {
    hide RowsWithin, Covered, BuildPage, Response, Successes;
    var hi := if backfill.before.None? then seen else PositionOf(h, backfill.before.value);
    PageIsSlice(h, 0, hi, limit, shown);
  }

  /**
   * Two successes of one slot, the first listed without its index: after the first is checkpointed, no recovery that
   * can see the second ever catches up, even when the server then shows both indexes.
   */
  method IndexlessCheckpointSticks(h: seq<Tx>, second: Attempt) returns (first: LiveOutcome, next: LiveOutcome)
    requires Chronological(h) && |h| == 2 && h[0].slot == h[1].slot <= I64_MAX && !h[0].failed && !h[1].failed
    requires second.visible == [2, 2]
    ensures first.LiveCaughtUp? && !next.LiveCaughtUp?
  {
    hide Safe;
    var store := new Store(h);
    var nothing, one := Attempt([0, 0], {}, {}, 7), Attempt([1, 1], {}, {}, 7);
    var done := store.RunBackfill(1, 2, nothing);
    assert Successes(h, 0, 0, {}) == [];
    assert store.source == map[] by { NoRows(h, store.source, store.backfill, store.live, store.top, store.seen); }
    ghost var boundary;
    first, boundary := store.RecoverLiveGap(1, 2, one);
    assert Successes(h, 0, 1, {}) == [RecordOf(h[0], {})] by { assert Successes(h, 0, 0, {}) == []; }
    assert Recoverable(map[], None, Successes(h, 0, 1, {}));
    PositionUnique(h, 0);
    assert StuckAt(h, store.live.value, 2);
    next, boundary := store.RecoverLiveGap(1, 2, second);
  }

  lemma NoRows(h: seq<Tx>, source: map<Signature, Position>, backfill: Backfill, live: Option<Record>, top: nat, seen: nat)
    requires Safe(h, source, backfill, live, top, seen) && seen == 0
    ensures source == map[]
  {
    hide Covered, LiveSafe, BackfillSafe;
    assert forall s <- source :: RowAt(h, s, source[s], seen) && PositionOf(h, s) < 0;
  }
}
