/**
 * The life of a prediction market on its published clock: opened, frozen, proposed, corrected, finalized, or timed out.
 * Resolution only ever picks the payout schedule. Over every run a verdict stands for its full review delay before it
 * is final, is final for good, and comes from whoever was entitled to propose at that time.
 */
module Lifecycle {
  import opened Base
  import BookHeap

  type Pubkey = BookHeap.Pubkey

  /** Unix seconds of Rust type i64. */
  type Time = t: int | -(I64_MAX as int) - 1 <= t <= I64_MAX

  datatype MarketStatus = Draft | Trading | Frozen | Proposed | Resolved
  datatype Phase = Primary | Backup
  datatype Verdict = YesWins | NoWins | Invalid

  datatype Fallback = Fallback(resolver: Pubkey, available: Time, deadline: Option<Time>)

  datatype Terms = Terms(creator: Pubkey, resolver: Pubkey, close: Time, earliest: Option<Time>, delay: u64, fallback: Option<Fallback>)

  datatype Proposal = Proposal(verdict: Verdict, at: Time)

  datatype Life = Life(status: MarketStatus, phase: Phase, proposal: Option<Proposal>, final: Option<Verdict>)

  const NewDraft: Life := Life(Draft, Primary, None, None)

  /** No earliest time means the close. */
  function Opening(t: Terms): Time {
    if t.earliest.Some? then t.earliest.value else t.close
  }

  /** The clock part of `validate_prediction_market_config`; `noKey` is the default public key. */
  predicate ValidTerms(t: Terms, now: Time, noKey: Pubkey) {
    && t.close > now && Opening(t) >= t.close
    && t.resolver != noKey
    && 0 < t.delay <= I64_MAX && Opening(t) + t.delay <= I64_MAX
    && (t.fallback.Some? ==>
          var f := t.fallback.value;
          && f.resolver != noKey && f.resolver != t.resolver && f.available > Opening(t)
          && f.available + t.delay <= I64_MAX
          && (f.deadline.Some? ==> f.deadline.value > f.available && f.deadline.value - 1 + t.delay <= I64_MAX))
  }

  /** The current resolver's window: the primary's ends where the fallback's begins. */
  predicate InWindow(t: Terms, phase: Phase, now: Time) {
    && now >= t.close && now >= Opening(t)
    && match phase
       case Primary => t.fallback.Some? ==> now < t.fallback.value.available
       case Backup => t.fallback.Some? && now >= t.fallback.value.available
                      && (t.fallback.value.deadline.Some? ==> now < t.fallback.value.deadline.value)
  }

  function ResolverOf(t: Terms, phase: Phase): Pubkey {
    if phase.Backup? && t.fallback.Some? then t.fallback.value.resolver else t.resolver
  }

  /** `resolver_window`. */
  predicate ResolverWindow(t: Terms, phase: Phase, signer: Pubkey, now: Time) {
    InWindow(t, phase, now) && signer == ResolverOf(t, phase)
  }

  /** `maturity`; None stands for its overflow errors. */
  function Maturity(t: Terms, p: Proposal): Option<Time> {
    if t.delay > I64_MAX || p.at + t.delay > I64_MAX then None else Some(p.at + t.delay)
  }

  /** `active` is the signer's admin record, `evidence` the check of the submitted evidence. */
  datatype Move =
    | OpenMarket(signer: Pubkey, active: bool)
    | CloseEarly(signer: Pubkey, active: bool)
    | Propose(signer: Pubkey, active: bool, verdict: Verdict, evidence: bool, correction: bool)
    | FreezeAtClose
    | ActivateFallback
    | Finalize
    | TimeOut

  predicate Unproposed(life: Life) {
    (life.status.Trading? || life.status.Frozen?) && life.proposal.None?
  }

  /** One lifecycle instruction; None stands for a refusal, which leaves the market as it was. */
  function Take(t: Terms, life: Life, m: Move, now: Time): Option<Life> {
    match m
    case OpenMarket(signer, active) =>
      if active && signer == t.creator == t.resolver && life.status.Draft? && now < t.close then Some(life.(status := Trading)) else None
    case CloseEarly(signer, active) =>
      if active && signer == t.creator && life.status.Trading? then Some(life.(status := Frozen)) else None
    case Propose(signer, active, verdict, evidence, correction) =>
      if !active || !ResolverWindow(t, life.phase, signer, now) || life.final.Some? || !evidence then None
      else if correction && !(life.status.Proposed? && life.proposal.Some? && Maturity(t, life.proposal.value).Some?
                              && now < Maturity(t, life.proposal.value).value) then None
      else if !correction && !Unproposed(life) then None
      else if Maturity(t, Proposal(verdict, now)).None? then None
      else Some(life.(status := Proposed, proposal := Some(Proposal(verdict, now))))
    case FreezeAtClose =>
      if life.final.None? && life.status.Trading? && now >= t.close then Some(life.(status := Frozen)) else None
    case ActivateFallback =>
      if life.final.Some? || t.fallback.None? || !Unproposed(life) || !life.phase.Primary? || now < t.fallback.value.available
         || (t.fallback.value.deadline.Some? && now >= t.fallback.value.deadline.value) then None
      else Some(life.(status := Frozen, phase := Backup))
    case Finalize =>
      if life.final.Some? || !life.status.Proposed? || life.proposal.None? || Maturity(t, life.proposal.value).None?
         || now < Maturity(t, life.proposal.value).value then None
      else Some(life.(status := Resolved, final := Some(life.proposal.value.verdict)))
    case TimeOut =>
      if life.final.Some? || t.fallback.None? || t.fallback.value.deadline.None? || !Unproposed(life) || now < t.fallback.value.deadline.value then None
      else Some(life.(status := Resolved, phase := Backup, final := Some(Invalid)))
  }

  // ------------------------------------------------------------------ over every run

  /** A standing proposal was made in its resolver's window, and its maturity exists. */
  ghost predicate ProposalSound(t: Terms, life: Life, now: Time) {
    life.proposal.Some? ==>
      && (life.status.Proposed? || life.status.Resolved?)
      && life.proposal.value.at <= now
      && InWindow(t, life.phase, life.proposal.value.at)
      && Maturity(t, life.proposal.value).Some?
  }

  /** A final verdict is a proposal that stood for its whole delay, or the agreed timeout. */
  ghost predicate VerdictSound(t: Terms, life: Life, now: Time) {
    && (life.final.Some? <==> life.status.Resolved?)
    && (life.final.Some? ==>
          if life.proposal.Some? then
            life.final == Some(life.proposal.value.verdict) && life.proposal.value.at + t.delay <= now
          else
            life.final == Some(Invalid) && t.fallback.Some? && t.fallback.value.deadline.Some? && t.fallback.value.deadline.value <= now)
  }

  ghost predicate Sound(t: Terms, life: Life, now: Time) {
    && (life.status.Proposed? ==> life.proposal.Some?)
    && (life.status.Draft? ==> life == NewDraft)
    && (life.phase.Backup? ==> t.fallback.Some? && (life.final.None? ==> t.fallback.value.available <= now))
    && ProposalSound(t, life, now) && VerdictSound(t, life, now)
  }

  lemma TakeKeepsSound(t: Terms, life: Life, m: Move, now: Time, later: Time)
    requires Sound(t, life, now) && now <= later
    ensures Take(t, life, m, later).Some? ==> Sound(t, Take(t, life, m, later).value, later)
    ensures Sound(t, life, later)
  {
  }

  datatype Step = Step(move: Move, now: Time)

  ghost predicate Forward(steps: seq<Step>, from: Time) {
    && (forall i :: 0 <= i < |steps| ==> from <= steps[i].now)
    && (forall i, j :: 0 <= i < j < |steps| ==> steps[i].now <= steps[j].now)
  }

  function After(t: Terms, life: Life, s: Step): Life {
    var next := Take(t, life, s.move, s.now);
    if next.Some? then next.value else life
  }

  /** Any moves by anyone; refused ones change nothing. */
  function RunSteps(t: Terms, life: Life, steps: seq<Step>): Life
    decreases |steps|
  {
    if steps == [] then life else RunSteps(t, After(t, life, steps[0]), steps[1..])
  }

  lemma {:induction false} RunKeepsSound(t: Terms, life: Life, steps: seq<Step>, now: Time, end: Time)
    requires Sound(t, life, now) && now <= end && Forward(steps, now)
    requires forall s <- steps :: s.now <= end
    ensures Sound(t, RunSteps(t, life, steps), end)
    decreases |steps|
  {
    hide Sound, Take;
    if steps == [] {
      TakeKeepsSound(t, life, Finalize, now, end);
    } else {
      TakeKeepsSound(t, life, steps[0].move, now, steps[0].now);
      assert steps[0] in steps;
      RunKeepsSound(t, After(t, life, steps[0]), steps[1..], steps[0].now, end);
    }
  }

  /** Once published, a verdict can never change, whoever acts and whenever. */
  lemma {:induction false} VerdictIsIrrevocable(t: Terms, life: Life, steps: seq<Step>, now: Time)
    requires Sound(t, life, now) && life.final.Some?
    ensures RunSteps(t, life, steps) == life
    decreases |steps|
  {
    if steps != [] {
      assert Take(t, life, steps[0].move, steps[0].now).None?;
      hide Take, Sound;
      VerdictIsIrrevocable(t, life, steps[1..], now);
    }
  }

  /** What a draft becomes: every verdict it may reach was open to correction for the whole agreed delay. */
  lemma EveryVerdictWasReviewable(t: Terms, steps: seq<Step>, start: Time, end: Time)
    requires Forward(steps, start) && start <= end && forall s <- steps :: s.now <= end
    ensures var life := RunSteps(t, NewDraft, steps);
      life.final.Some? ==>
        if life.proposal.Some? then
          && life.final == Some(life.proposal.value.verdict) && life.proposal.value.at + t.delay <= end
          && InWindow(t, life.phase, life.proposal.value.at)
        else life.final == Some(Invalid) && t.fallback.Some? && t.fallback.value.deadline.Some? && t.fallback.value.deadline.value <= end
  {
    assert Sound(t, NewDraft, start);
    RunKeepsSound(t, NewDraft, steps, start, end);
  }

  /** Correction and finalization never overlap: before maturity only the entitled resolver, from then on only finality. */
  lemma CorrectionOrFinality(t: Terms, life: Life, now: Time, later: Time)
    requires Sound(t, life, now) && now <= later && life.status.Proposed?
    ensures var ready := life.proposal.value.at + t.delay <= later;
      && Take(t, life, Finalize, later).Some? == ready
      && (forall m: Move :: !m.Finalize? && Take(t, life, m, later).Some? ==>
            && !ready && m.Propose? && m.correction && m.active && m.evidence && m.signer == ResolverOf(t, life.phase)
            && Take(t, life, m, later).value.proposal == Some(Proposal(m.verdict, later)))
      && (forall signer, verdict :: Take(t, life, Propose(signer, true, verdict, true, true), later).Some? <==>
            !ready && ResolverWindow(t, life.phase, signer, later) && later + t.delay <= I64_MAX)
  {
  }

  /** A first proposal needs exactly the entitled resolver in an open window of an unproposed market. */
  lemma ProposalExactly(t: Terms, life: Life, now: Time, signer: Pubkey, active: bool, verdict: Verdict, evidence: bool)
    requires Sound(t, life, now) && 0 < t.delay <= I64_MAX
    ensures var next := Take(t, life, Propose(signer, active, verdict, evidence, false), now);
      && (next.Some? <==>
            && active && evidence && (life.status.Trading? || life.status.Frozen?) && life.proposal.None?
            && ResolverWindow(t, life.phase, signer, now) && now + t.delay <= I64_MAX)
      && (next.Some? ==> next.value == Life(Proposed, life.phase, Some(Proposal(verdict, now)), None))
    ensures !ResolverWindow(t, Primary, signer, now) || !ResolverWindow(t, Backup, signer, now)
  {
  }

  /** Who may propose when: the primary from the earliest time until the fallback's, the fallback from then until its deadline. */
  lemma WindowExactly(t: Terms, phase: Phase, signer: Pubkey, now: Time)
    ensures ResolverWindow(t, phase, signer, now) <==>
      && t.close <= now && (t.earliest.Some? ==> t.earliest.value <= now)
      && (phase.Primary? ==> signer == t.resolver && (t.fallback.Some? ==> now < t.fallback.value.available))
      && (phase.Backup? ==>
            && t.fallback.Some? && signer == t.fallback.value.resolver && t.fallback.value.available <= now
            && (t.fallback.value.deadline.Some? ==> now < t.fallback.value.deadline.value))
  {
  }

  /** A draft opens exactly by its active creator, who must be its resolver, before the close; nothing else opens trading. */
  lemma OpeningExactly(t: Terms, life: Life, now: Time, later: Time, m: Move)
    requires Sound(t, life, now) && now <= later
    ensures m.OpenMarket? ==>
      (Take(t, life, m, later).Some? <==> life == NewDraft && m.active && m.signer == t.creator && m.signer == t.resolver && later < t.close)
    ensures Take(t, life, m, later).Some? && Take(t, life, m, later).value.status.Trading? ==>
      m.OpenMarket? && Take(t, life, m, later).value == Life(Trading, Primary, None, None)
  {
  }

  /** Trading is frozen by anyone exactly from the close on, and at any time exactly by the active creator. */
  lemma FreezingExactly(t: Terms, life: Life, now: Time, later: Time, signer: Pubkey, active: bool)
    requires Sound(t, life, now) && now <= later
    ensures Take(t, life, FreezeAtClose, later) == if life.status.Trading? && t.close <= later then Some(Life(Frozen, life.phase, life.proposal, None)) else None
    ensures Take(t, life, CloseEarly(signer, active), later)
         == if life.status.Trading? && active && signer == t.creator then Some(Life(Frozen, life.phase, life.proposal, None)) else None
  {
  }

  /** The fallback takes over exactly in its own window, from a primary resolver who has not proposed. */
  lemma FallbackExactly(t: Terms, life: Life, now: Time, later: Time)
    requires Sound(t, life, now) && now <= later
    ensures Take(t, life, ActivateFallback, later).Some? <==>
      && (life.status.Trading? || life.status.Frozen?) && life.proposal.None? && life.phase.Primary?
      && t.fallback.Some? && t.fallback.value.available <= later
      && (t.fallback.value.deadline.Some? ==> later < t.fallback.value.deadline.value)
    ensures Take(t, life, ActivateFallback, later).Some? ==> Take(t, life, ActivateFallback, later).value == Life(Frozen, Backup, None, None)
  {
  }

  /** An unproposed market times out exactly from its fallback deadline on, and is then Invalid. */
  lemma TimeOutExactly(t: Terms, life: Life, now: Time, later: Time)
    requires Sound(t, life, now) && now <= later
    ensures Take(t, life, TimeOut, later).Some? <==>
      && (life.status.Trading? || life.status.Frozen?) && life.proposal.None?
      && t.fallback.Some? && t.fallback.value.deadline.Some? && t.fallback.value.deadline.value <= later
    ensures Take(t, life, TimeOut, later).Some? ==> Take(t, life, TimeOut, later).value == Life(Resolved, Backup, None, Some(Invalid))
  {
  }

  /** The creator stops trading early. */
  predicate StopsEarly(t: Terms, s: Step) {
    s.move.CloseEarly? && s.move.active && s.move.signer == t.creator
  }

  /** Under validated terms an open market trades until its close, whatever anyone does, unless its active creator stops it. */
  lemma {:induction false} TradesUntilClose(t: Terms, life: Life, steps: seq<Step>, created: Time, noKey: Pubkey)
    requires ValidTerms(t, created, noKey) && life.status.Trading?
    requires forall s <- steps :: s.now < t.close && !StopsEarly(t, s)
    ensures RunSteps(t, life, steps).status.Trading?
    decreases |steps|
  {
    if steps != [] {
      assert steps[0] in steps;
      assert After(t, life, steps[0]).status.Trading?;
      hide Take;
      TradesUntilClose(t, After(t, life, steps[0]), steps[1..], created, noKey);
    }
  }

  /** Once trading has stopped it never starts again. */
  lemma {:induction false} TradingNeverResumes(t: Terms, life: Life, steps: seq<Step>)
    requires !life.status.Draft? && !life.status.Trading?
    ensures !RunSteps(t, life, steps).status.Trading?
    decreases |steps|
  {
    if steps != [] {
      assert !After(t, life, steps[0]).status.Draft? && !After(t, life, steps[0]).status.Trading?;
      hide Take;
      TradingNeverResumes(t, After(t, life, steps[0]), steps[1..]);
    }
  }

  /** With a fallback deadline the maturity of any proposal is representable, and at most a delay after the deadline. */
  lemma ProposalsMatureInTime(t: Terms, phase: Phase, at: Time, created: Time, noKey: Pubkey)
    requires ValidTerms(t, created, noKey) && t.fallback.Some? && t.fallback.value.deadline.Some? && InWindow(t, phase, at)
    ensures at + t.delay <= t.fallback.value.deadline.value - 1 + t.delay <= I64_MAX
  {
  }

  predicate Resolves(t: Terms, life: Life, m: Move, now: Time) {
    Take(t, life, m, now).Some? && Take(t, life, m, now).value.final.Some?
  }

  /**
   * With a fallback deadline nobody can hold a market open: at every moment of every run there is a time, less than a
   * delay after the deadline if not already past, from which one step that needs no signer resolves it.
   */
  lemma AlwaysResolvable(t: Terms, life: Life, now: Time, later: Time, created: Time, noKey: Pubkey)
    requires ValidTerms(t, created, noKey) && t.fallback.Some? && t.fallback.value.deadline.Some?
    requires Sound(t, life, now) && !life.status.Draft? && life.final.None?
    ensures var due := if life.proposal.Some? then life.proposal.value.at + t.delay else t.fallback.value.deadline.value;
      && due <= t.fallback.value.deadline.value - 1 + t.delay <= I64_MAX
      && (later >= due && later >= now ==> Resolves(t, life, if life.proposal.Some? then Finalize else TimeOut, later))
  {
    if life.proposal.Some? { ProposalsMatureInTime(t, life.phase, life.proposal.value.at, created, noKey); }
  }

  predicate NeedsNoSigner(m: Move) {
    m.FreezeAtClose? || m.ActivateFallback? || m.Finalize? || m.TimeOut?
  }

  ghost predicate Unsigned(steps: seq<Step>) {
    forall s <- steps :: NeedsNoSigner(s.move)
  }

  lemma {:induction false} NobodyResolves(t: Terms, life: Life, steps: seq<Step>)
    requires Unsigned(steps) && life.final.None? && life.proposal.None? && (t.fallback.None? || t.fallback.value.deadline.None?)
    ensures var end := RunSteps(t, life, steps); end.final.None? && end.proposal.None?
    decreases |steps|
  {
    if steps != [] {
      assert steps[0] in steps;
      hide InWindow;
      NobodyResolves(t, After(t, life, steps[0]), steps[1..]);
    }
  }

  /** Without a proposal, the public can resolve an open market exactly when a fallback deadline was agreed. */
  lemma PublicResolutionExactly(t: Terms, life: Life, now: Time)
    requires Sound(t, life, now) && Unproposed(life)
    ensures (exists steps :: Unsigned(steps) && Forward(steps, now) && RunSteps(t, life, steps).final.Some?)
      <==> t.fallback.Some? && t.fallback.value.deadline.Some?
  {
    if t.fallback.Some? && t.fallback.value.deadline.Some? {
      var end := t.fallback.value.deadline.value;
      var steps := [Step(TimeOut, if end < now then now else end)];
      assert steps[1..] == [];
      assert Unsigned(steps) && Forward(steps, now);
      assert RunSteps(t, life, steps).final.Some? by {
        assert RunSteps(t, life, steps) == RunSteps(t, After(t, life, steps[0]), []);
      }
    } else {
      forall steps | Unsigned(steps) ensures RunSteps(t, life, steps).final.None? {
        NobodyResolves(t, life, steps);
      }
    }
  }
}
