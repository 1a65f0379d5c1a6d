/**
 * `createRpcFetch` as a step machine. JavaScript runs each handler to completion, so every interleaving is a sequence
 * of the atomic steps below: calls arriving, providers chosen, permits handed over, requests sent and answered, time
 * passing. Over every such sequence at most three requests hold a permit, nothing is sent twice, and no cached or
 * shared reply crosses a write.
 */
module RpcTransport {
  import opened Base

  const PERMITS: nat := 3
  const CACHE_LIMIT: nat := 128

  /** `JSON.stringify([generation, method, params])`; `call` stands for method and params. */
  datatype CacheKey = CacheKey(generation: nat, call: nat)

  datatype ReqPhase = Waiting | Holding | InFlight | Closed

  /** One `request(...)`: for a job, or None for a cluster probe; `opener` is the job whose signal it carries. */
  datatype Req = Req(job: Option<nat>, opener: nat, provider: nat, phase: ReqPhase)

  datatype Phase = Choosing | AwaitProbe | Ready | AwaitReply(req: nat) | Finished

  /** One `execute(...)`: what it was called for, and whether it has received a result. */
  datatype Job = Job(isRead: bool, call: nat, good: bool, key: Option<CacheKey>, cacheable: bool, abortable: bool, order: seq<nat>, next: nat, phase: Phase,
                     sent: set<nat>, started: nat)

  datatype Provider = Provider(cooling: bool, wrong: bool, verified: bool, probe: Option<nat>)

  /** What an observer sees, in order. */
  datatype Event = Started(job: nat) | WriteStarted(job: nat) | WriteDone(job: nat) | SentTo(job: nat, provider: nat) | Served(job: nat, call: nat)

  /** How a request ends: a result, an RPC error, a busy provider, no usable reply at all, or another cluster's hash. */
  datatype Outcome = Good | RpcError | Busy | Broken | WrongCluster

  // --------------------------------------------------------------------------- permits

  predicate Holds(q: Req) {
    q.phase.Holding? || q.phase.InFlight?
  }

  function Holders(requests: seq<Req>): set<nat> {
    set r | 0 <= r < |requests| && Holds(requests[r])
  }

  /** `active` counts the permit holders, never above three; requests queue only while all three are held. */
  ghost predicate PermitsOk(active: nat, waiters: seq<nat>, requests: seq<Req>) {
    && active == |Holders(requests)| <= PERMITS
    && (waiters != [] ==> active == PERMITS)
    && Distinct(waiters)
    && (forall r: nat :: r in waiters <==> r < |requests| && requests[r].phase.Waiting?)
  }

  lemma HoldersAfter(requests: seq<Req>, r: nat, q: Req)
    requires r < |requests|
    ensures Holders(requests[r := q]) == if Holds(q) then Holders(requests) + {r} else Holders(requests) - {r}
  {
  }

  lemma HoldersPush(requests: seq<Req>, q: Req)
    ensures Holders(requests + [q]) == if Holds(q) then Holders(requests) + {|requests|} else Holders(requests)
  {
    var after := requests + [q];
    forall r: nat ensures r in Holders(after) <==> r in Holders(requests) || (r == |requests| && Holds(q)) {
      if r < |requests| { assert after[r] == requests[r]; }
    }
  }

  // ------------------------------------------------------------------------------ jobs

  /** The job's current request is on the wire. */
  predicate OnWire(job: Job, requests: seq<Req>) {
    job.phase.AwaitReply? && job.phase.req < |requests| && requests[job.phase.req].phase.InFlight?
  }

  /** Providers come in a fixed order without repetition; what was sent went to earlier ones, or is on the wire now. */
  ghost predicate JobOk(job: Job, j: nat, requests: seq<Req>, n: nat) {
    && Distinct(job.order) && (forall i <- job.order :: i < n)
    && job.next <= |job.order|
    && (job.phase.AwaitProbe? || job.phase.Ready? || job.phase.AwaitReply? ==> job.next < |job.order|)
    && (job.phase.AwaitReply? ==>
          && job.phase.req < |requests|
          && requests[job.phase.req].job == Some(j) && requests[job.phase.req].provider == job.order[job.next]
          && !requests[job.phase.req].phase.Closed?)
    && (!job.phase.Finished? ==> forall p <- job.sent :: p in job.order[..job.next] || (OnWire(job, requests) && p == job.order[job.next]))
    && (!job.isRead && !job.phase.Finished? && !OnWire(job, requests) ==> job.sent == {})
  }

  ghost predicate JobsOk(jobs: seq<Job>, requests: seq<Req>, n: nat) {
    && (forall j {:trigger jobs[j]} :: 0 <= j < |jobs| ==> JobOk(jobs[j], j, requests, n))
    && (forall r {:trigger requests[r]} :: 0 <= r < |requests| ==>
          && requests[r].provider < n
          && (requests[r].job.Some? && !requests[r].phase.Closed? ==>
                requests[r].job.value < |jobs| && jobs[requests[r].job.value].phase == AwaitReply(r)))
  }

  // ----------------------------------------------------------------------- observations

  ghost predicate IsWrite(e: Event) {
    e.WriteStarted? || e.WriteDone?
  }

  /** A write reaches a provider at most once in all; a read reaches each provider at most once. */
  ghost predicate SentOnce(trace: seq<Event>, jobs: seq<Job>) {
    && (forall a {:trigger trace[a]} :: 0 <= a < |trace| && trace[a].SentTo? ==> trace[a].job < |jobs| && trace[a].provider in jobs[trace[a].job].sent)
    && (forall a, b {:trigger trace[a], trace[b]} :: 0 <= a < b < |trace| && trace[a].SentTo? && trace[b].SentTo? && trace[a].job == trace[b].job ==>
          jobs[trace[a].job].isRead && trace[a].provider != trace[b].provider)
  }

  /** Job j started at its recorded moment, and no write has started or succeeded since. */
  ghost predicate FreshSince(trace: seq<Event>, s: nat, t: nat, j: nat) {
    && s < t <= |trace| && trace[s] == Started(j)
    && forall i :: s <= i < t ==> !IsWrite(trace[i])
  }

  /** Every reply that was served from the cache or shared came from a read of the same call, with no write since it started. */
  ghost predicate ServedFresh(trace: seq<Event>, jobs: seq<Job>) {
    forall t {:trigger trace[t]} :: 0 <= t < |trace| && trace[t].Served? ==>
      && trace[t].job < |jobs| && FreshSince(trace, jobs[trace[t].job].started, t, trace[t].job)
      && jobs[trace[t].job].isRead && jobs[trace[t].job].call == trace[t].call
  }

  /** An entry names a read of its own call, and a current one a job that started after the last write. */
  ghost predicate EntryOk(k: CacheKey, j: nat, generation: nat, jobs: seq<Job>, trace: seq<Event>) {
    && k.generation <= generation && j < |jobs| && jobs[j].isRead && jobs[j].call == k.call
    && (k.generation == generation ==> FreshSince(trace, jobs[j].started, |trace|, j))
  }

  ghost predicate KeysOk(entries: map<CacheKey, nat>, generation: nat, jobs: seq<Job>, trace: seq<Event>) {
    forall k <- entries :: EntryOk(k, entries[k], generation, jobs, trace)
  }

  /** The key a job will cache its reply under was of its own generation. */
  ghost predicate JobKeysOk(generation: nat, jobs: seq<Job>, trace: seq<Event>) {
    forall j {:trigger jobs[j]} :: 0 <= j < |jobs| && jobs[j].key.Some? ==> EntryOk(jobs[j].key.value, j, generation, jobs, trace)
  }

  /** Only results of cacheable reads are in the cache. */
  ghost predicate CacheGood(cache: map<CacheKey, nat>, jobs: seq<Job>) {
    forall k <- cache :: cache[k] < |jobs| && jobs[cache[k]].cacheable && jobs[cache[k]].good
  }

  ghost predicate TraceOk(trace: seq<Event>, jobs: seq<Job>, generation: nat, cache: map<CacheKey, nat>, pending: map<CacheKey, nat>) {
    && SentOnce(trace, jobs) && ServedFresh(trace, jobs)
    && KeysOk(cache, generation, jobs, trace) && KeysOk(pending, generation, jobs, trace) && JobKeysOk(generation, jobs, trace)
    && |cache| <= CACHE_LIMIT && CacheGood(cache, jobs)
  }

  /** A job with a request, or about to make one, has a provider that passed the cluster check. */
  predicate Cleared(job: Job, providers: seq<Provider>) {
    job.phase.Ready? || job.phase.AwaitReply? ==>
      job.next < |job.order| && job.order[job.next] < |providers| && providers[job.order[job.next]].verified
  }

  /** Nothing is ever sent to a provider that has not passed the cluster check. */
  ghost predicate SentVerified(trace: seq<Event>, providers: seq<Provider>) {
    forall e <- trace :: e.SentTo? ==> e.provider < |providers| && providers[e.provider].verified
  }

  ghost predicate ClusterOk(trace: seq<Event>, jobs: seq<Job>, providers: seq<Provider>) {
    && SentVerified(trace, providers)
    && forall j {:trigger jobs[j]} :: 0 <= j < |jobs| ==> Cleared(jobs[j], providers)
  }

  lemma ClusterMoves(trace: seq<Event>, jobs: seq<Job>, providers: seq<Provider>, j: nat, job: Job)
    requires ClusterOk(trace, jobs, providers) && j < |jobs| && Cleared(job, providers)
    ensures ClusterOk(trace, jobs[j := job], providers)
  {
  }

  lemma ClusterAppends(trace: seq<Event>, jobs: seq<Job>, providers: seq<Provider>, e: Event)
    requires ClusterOk(trace, jobs, providers) && (e.SentTo? ==> e.provider < |providers| && providers[e.provider].verified)
    ensures ClusterOk(trace + [e], jobs, providers)
  {
    hide Cleared;
  }

  lemma ClusterJob(trace: seq<Event>, jobs: seq<Job>, providers: seq<Provider>, job: Job)
    requires ClusterOk(trace, jobs, providers) && job.phase.Choosing?
    ensures ClusterOk(trace, jobs + [job], providers)
  {
    hide SentVerified;
  }

  /** A provider stays verified. */
  lemma ClusterProvider(trace: seq<Event>, jobs: seq<Job>, providers: seq<Provider>, i: nat, p: Provider)
    requires ClusterOk(trace, jobs, providers) && i < |providers| && (providers[i].verified ==> p.verified)
    ensures ClusterOk(trace, jobs, providers[i := p])
  {
    forall j | 0 <= j < |jobs| ensures Cleared(jobs[j], providers[i := p]) {
      assert Cleared(jobs[j], providers);
    }
  }

  /** A shared call that can still be joined: its job was started for it and has not ended. */
  ghost predicate PendingOk(pending: map<CacheKey, nat>, jobs: seq<Job>) {
    forall k <- pending :: pending[k] < |jobs| && jobs[pending[k]].key == Some(k) && !jobs[pending[k]].phase.Finished?
  }

  lemma PendingMoves(pending: map<CacheKey, nat>, jobs: seq<Job>, j: nat, job: Job)
    requires PendingOk(pending, jobs) && j < |jobs| && job.key == jobs[j].key
    requires job.phase.Finished? ==> forall k <- pending :: pending[k] != j
    ensures PendingOk(pending, jobs[j := job])
  {
  }

  lemma PendingStarts(pending: map<CacheKey, nat>, jobs: seq<Job>, job: Job)
    requires PendingOk(pending, jobs) && job.phase.Choosing?
    ensures PendingOk(if job.key.Some? then pending[job.key.value := |jobs|] else pending, jobs + [job])
  {
  }

  // ---------------------------------------------------------------- small preservations

  /** Jobs may move on as long as identity, start and key stay, and nothing sent is forgotten. */
  ghost predicate JobsMove(jobs: seq<Job>, jobs': seq<Job>) {
    && |jobs| <= |jobs'|
    && forall j {:trigger jobs'[j]} :: 0 <= j < |jobs| ==>
         && jobs'[j].isRead == jobs[j].isRead && jobs'[j].call == jobs[j].call && jobs'[j].cacheable == jobs[j].cacheable
         && (jobs[j].good ==> jobs'[j].good)
         && jobs'[j].started == jobs[j].started && jobs'[j].key == jobs[j].key && jobs[j].sent <= jobs'[j].sent
  }

  lemma MoveKeepsTrace(trace: seq<Event>, jobs: seq<Job>, jobs': seq<Job>, generation: nat, cache: map<CacheKey, nat>, pending: map<CacheKey, nat>)
    requires TraceOk(trace, jobs, generation, cache, pending) && JobsMove(jobs, jobs') && |jobs'| == |jobs|
    ensures TraceOk(trace, jobs', generation, cache, pending)
  {
    forall k <- cache ensures EntryOk(k, cache[k], generation, jobs', trace) {
      assert EntryOk(k, cache[k], generation, jobs, trace);
    }
    forall k <- pending ensures EntryOk(k, pending[k], generation, jobs', trace) {
      assert EntryOk(k, pending[k], generation, jobs, trace);
    }
    forall j | 0 <= j < |jobs'| && jobs'[j].key.Some? ensures EntryOk(jobs'[j].key.value, j, generation, jobs', trace) {
      assert EntryOk(jobs[j].key.value, j, generation, jobs, trace);
    }
    hide FreshSince;
  }

  lemma FewerEntries(entries: map<CacheKey, nat>, fewer: map<CacheKey, nat>, generation: nat, jobs: seq<Job>, trace: seq<Event>)
    requires KeysOk(entries, generation, jobs, trace)
    requires forall k <- fewer :: k in entries && fewer[k] == entries[k]
    ensures KeysOk(fewer, generation, jobs, trace)
  {
    forall k <- fewer ensures EntryOk(k, fewer[k], generation, jobs, trace) {
      assert EntryOk(k, entries[k], generation, jobs, trace);
    }
  }

  lemma FreshExtends(trace: seq<Event>, s: nat, j: nat, e: Event)
    requires FreshSince(trace, s, |trace|, j) && !IsWrite(e)
    ensures FreshSince(trace + [e], s, |trace| + 1, j)
  {
  }

  lemma FreshPrefix(trace: seq<Event>, s: nat, t: nat, j: nat, e: Event)
    requires FreshSince(trace, s, t, j)
    ensures FreshSince(trace + [e], s, t, j)
  {
  }

  lemma EntriesExtend(entries: map<CacheKey, nat>, generation: nat, jobs: seq<Job>, trace: seq<Event>, e: Event)
    requires KeysOk(entries, generation, jobs, trace) && !IsWrite(e)
    ensures KeysOk(entries, generation, jobs, trace + [e])
  {
    hide FreshSince;
    forall k <- entries ensures EntryOk(k, entries[k], generation, jobs, trace + [e]) {
      assert EntryOk(k, entries[k], generation, jobs, trace);
      if k.generation == generation { FreshExtends(trace, jobs[entries[k]].started, entries[k], e); }
    }
  }

  lemma JobKeysExtend(generation: nat, jobs: seq<Job>, trace: seq<Event>, e: Event)
    requires JobKeysOk(generation, jobs, trace) && !IsWrite(e)
    ensures JobKeysOk(generation, jobs, trace + [e])
  {
    hide FreshSince;
    forall j | 0 <= j < |jobs| && jobs[j].key.Some? ensures EntryOk(jobs[j].key.value, j, generation, jobs, trace + [e]) {
      assert EntryOk(jobs[j].key.value, j, generation, jobs, trace);
      if jobs[j].key.value.generation == generation { FreshExtends(trace, jobs[j].started, j, e); }
    }
  }

  lemma ServedExtend(trace: seq<Event>, jobs: seq<Job>, e: Event)
    requires ServedFresh(trace, jobs)
    requires e.Served? ==> e.job < |jobs| && jobs[e.job].isRead && jobs[e.job].call == e.call && FreshSince(trace, jobs[e.job].started, |trace|, e.job)
    ensures ServedFresh(trace + [e], jobs)
  {
    hide FreshSince;
    var trace' := trace + [e];
    forall t | 0 <= t < |trace'| && trace'[t].Served?
      ensures trace'[t].job < |jobs| && FreshSince(trace', jobs[trace'[t].job].started, t, trace'[t].job)
      ensures jobs[trace'[t].job].isRead && jobs[trace'[t].job].call == trace'[t].call
    {
      if t < |trace| { assert trace'[t] == trace[t]; }
      FreshPrefix(trace, jobs[trace'[t].job].started, t, trace'[t].job, e);
    }
  }

  /** A served reply, or a job starting, changes nothing else. */
  lemma AppendServed(trace: seq<Event>, jobs: seq<Job>, generation: nat, cache: map<CacheKey, nat>, pending: map<CacheKey, nat>, j: nat, call: nat)
    requires TraceOk(trace, jobs, generation, cache, pending)
    requires j < |jobs| && jobs[j].isRead && jobs[j].call == call && FreshSince(trace, jobs[j].started, |trace|, j)
    ensures TraceOk(trace + [Served(j, call)], jobs, generation, cache, pending)
  {
    hide KeysOk, JobKeysOk, ServedFresh, FreshSince;
    EntriesExtend(cache, generation, jobs, trace, Served(j, call));
    EntriesExtend(pending, generation, jobs, trace, Served(j, call));
    JobKeysExtend(generation, jobs, trace, Served(j, call));
    ServedExtend(trace, jobs, Served(j, call));
    SentExtend(trace, jobs, Served(j, call));
  }

  lemma SentExtend(trace: seq<Event>, jobs: seq<Job>, e: Event)
    requires SentOnce(trace, jobs) && !e.SentTo?
    ensures SentOnce(trace + [e], jobs)
  {
  }

  /** The main message of job j goes to a provider it has not been sent to before. */
  lemma AppendSent(trace: seq<Event>, jobs: seq<Job>, generation: nat, cache: map<CacheKey, nat>, pending: map<CacheKey, nat>, j: nat, p: nat)
    requires TraceOk(trace, jobs, generation, cache, pending)
    requires j < |jobs| && p !in jobs[j].sent && (!jobs[j].isRead ==> jobs[j].sent == {})
    ensures TraceOk(trace + [SentTo(j, p)], jobs[j := jobs[j].(sent := jobs[j].sent + {p})], generation, cache, pending)
  {
    var jobs' := jobs[j := jobs[j].(sent := jobs[j].sent + {p})];
    MoveKeepsTrace(trace, jobs, jobs', generation, cache, pending);
    SendOnce(trace, jobs, j, p);
    hide KeysOk, JobKeysOk, ServedFresh, FreshSince, SentOnce;
    EntriesExtend(cache, generation, jobs', trace, SentTo(j, p));
    EntriesExtend(pending, generation, jobs', trace, SentTo(j, p));
    JobKeysExtend(generation, jobs', trace, SentTo(j, p));
    ServedExtend(trace, jobs', SentTo(j, p));
  }

  lemma SendOnce(trace: seq<Event>, jobs: seq<Job>, j: nat, p: nat)
    requires SentOnce(trace, jobs)
    requires j < |jobs| && p !in jobs[j].sent && (!jobs[j].isRead ==> jobs[j].sent == {})
    ensures SentOnce(trace + [SentTo(j, p)], jobs[j := jobs[j].(sent := jobs[j].sent + {p})])
  {
  }

  /** A write starts, or succeeds: every key written so far is of an older generation, and the cache is empty. */
  lemma AppendWrite(trace: seq<Event>, jobs: seq<Job>, generation: nat, cache: map<CacheKey, nat>, pending: map<CacheKey, nat>, e: Event)
    requires TraceOk(trace, jobs, generation, cache, pending) && IsWrite(e)
    ensures TraceOk(trace + [e], jobs, generation + 1, map[], pending)
  {
    hide FreshSince;
    forall k <- pending ensures EntryOk(k, pending[k], generation + 1, jobs, trace + [e]) {
      assert EntryOk(k, pending[k], generation, jobs, trace);
    }
    forall j | 0 <= j < |jobs| && jobs[j].key.Some? ensures EntryOk(jobs[j].key.value, j, generation + 1, jobs, trace + [e]) {
      assert EntryOk(jobs[j].key.value, j, generation, jobs, trace);
    }
    ServedExtend(trace, jobs, e);
    SentExtend(trace, jobs, e);
  }

  /** A new job starts now; if it is shared, its key is of the current generation. */
  lemma AppendJob(trace: seq<Event>, jobs: seq<Job>, generation: nat, cache: map<CacheKey, nat>, pending: map<CacheKey, nat>, job: Job)
    requires TraceOk(trace, jobs, generation, cache, pending)
    requires job.started == |trace| && job.sent == {}
    requires job.key.Some? ==> job.key.value == CacheKey(generation, job.call) && job.isRead
    ensures TraceOk(trace + [Started(|jobs|)], jobs + [job], generation, cache,
                    if job.key.Some? then pending[job.key.value := |jobs|] else pending)
  {
    var e, jobs' := Started(|jobs|), jobs + [job];
    MoreJobs(trace, jobs, generation, cache, pending, job);
    SentExtend(trace, jobs', e);
    ServedExtend(trace, jobs', e);
    EntriesExtend(cache, generation, jobs', trace, e);
    EntriesExtend(pending, generation, jobs', trace, e);
    forall j | 0 <= j < |jobs'| && jobs'[j].key.Some? ensures EntryOk(jobs'[j].key.value, j, generation, jobs', trace + [e]) {
      if j < |jobs| {
        JobKeysExtend(generation, jobs, trace, e);
        assert jobs'[j] == jobs[j];
        assert EntryOk(jobs[j].key.value, j, generation, jobs, trace + [e]);
      }
    }
    hide SentOnce, ServedFresh;
  }

  lemma MoreJobs(trace: seq<Event>, jobs: seq<Job>, generation: nat, cache: map<CacheKey, nat>, pending: map<CacheKey, nat>, job: Job)
    requires TraceOk(trace, jobs, generation, cache, pending)
    ensures SentOnce(trace, jobs + [job]) && ServedFresh(trace, jobs + [job])
    ensures KeysOk(cache, generation, jobs + [job], trace) && KeysOk(pending, generation, jobs + [job], trace)
    ensures CacheGood(cache, jobs + [job])
  {
    hide FreshSince, JobKeysOk;
    var jobs' := jobs + [job];
    forall k <- cache ensures EntryOk(k, cache[k], generation, jobs', trace) {
      assert EntryOk(k, cache[k], generation, jobs, trace);
      assert jobs'[cache[k]] == jobs[cache[k]];
    }
    forall k <- pending ensures EntryOk(k, pending[k], generation, jobs', trace) {
      assert EntryOk(k, pending[k], generation, jobs, trace);
      assert jobs'[pending[k]] == jobs[pending[k]];
    }
  }

  /** A finished job's reply enters the cache under its own key; at the limit an older entry leaves first. */
  lemma CacheReply(trace: seq<Event>, jobs: seq<Job>, generation: nat, cache: map<CacheKey, nat>, pending: map<CacheKey, nat>, j: nat, evicted: set<CacheKey>)
    requires TraceOk(trace, jobs, generation, cache, pending)
    requires j < |jobs| && jobs[j].key.Some? && jobs[j].cacheable && jobs[j].good
    requires evicted <= cache.Keys && (|cache| >= CACHE_LIMIT ==> evicted != {})
    ensures TraceOk(trace, jobs, generation, (cache - evicted)[jobs[j].key.value := j], pending)
  {
    hide FreshSince, SentOnce, ServedFresh;
    var left := cache - evicted;
    assert EntryOk(jobs[j].key.value, j, generation, jobs, trace);
    FewerEntries(cache, left, generation, jobs, trace);
    var cache' := left[jobs[j].key.value := j];
    forall k <- cache' ensures EntryOk(k, cache'[k], generation, jobs, trace) {
      if k != jobs[j].key.value { assert EntryOk(k, left[k], generation, jobs, trace); }
    }
    SizeAfter(cache, evicted, jobs[j].key.value, j);
  }

  lemma SizeAfter(cache: map<CacheKey, nat>, evicted: set<CacheKey>, k: CacheKey, j: nat)
    requires evicted <= cache.Keys && |cache| <= CACHE_LIMIT && (|cache| >= CACHE_LIMIT ==> evicted != {})
    ensures |(cache - evicted)[k := j]| <= CACHE_LIMIT
  {
    var left := cache - evicted;
    assert left.Keys == cache.Keys - evicted;
    assert |left.Keys| == |cache.Keys| - |evicted|;
    assert left[k := j].Keys == left.Keys + {k};
    assert |left| == |left.Keys| && |cache| == |cache.Keys| && |left[k := j]| == |left[k := j].Keys|;
  }

  lemma PendingDone(trace: seq<Event>, jobs: seq<Job>, generation: nat, cache: map<CacheKey, nat>, pending: map<CacheKey, nat>, fewer: map<CacheKey, nat>,
                    smaller: map<CacheKey, nat>)
    requires TraceOk(trace, jobs, generation, cache, pending)
    requires forall k <- fewer :: k in pending && fewer[k] == pending[k]
    requires forall k <- smaller :: k in cache && smaller[k] == cache[k]
    requires |smaller| <= |cache|
    ensures TraceOk(trace, jobs, generation, smaller, fewer)
  {
    hide SentOnce, ServedFresh, EntryOk, JobKeysOk;
    FewerEntries(pending, fewer, generation, jobs, trace);
    FewerEntries(cache, smaller, generation, jobs, trace);
  }

  // -------------------------------------------------------------------- provider order

  ghost predicate Increasing(s: seq<nat>) {
    forall a, b :: 0 <= a < b < |s| ==> s[a] < s[b]
  }

  function Others(preferred: nat, n: nat, from: nat): (r: seq<nat>)
    ensures Distinct(r) && forall i: nat :: i in r <==> from <= i < n && i != preferred
    ensures Increasing(r)
    decreases n - from
  {
    if from >= n then []
    else if from == preferred then Others(preferred, n, from + 1)
    else
      var rest := Others(preferred, n, from + 1);
      assert forall k :: 0 <= k < |rest| ==> rest[k] in rest;
      [from] + rest
  }

  /** `[...new Set([0, preferred, ...urls.map((_, i) => i)])]`: the configured primary first, then the last that worked. */
  function Order(preferred: nat, n: nat): (r: seq<nat>)
    requires preferred < n
    ensures Distinct(r) && |r| > 0 && r[0] == 0 && forall i: nat :: i in r <==> i < n
    ensures preferred > 0 ==> |r| > 1 && r[1] == preferred
    ensures Increasing(if preferred > 0 then r[2..] else r)
  {
    var rest := Others(preferred, n, 1);
    assert forall k :: 0 <= k < |rest| ==> rest[k] in rest;
    if preferred == 0 then [0] + rest else [0, preferred] + rest
  }

  // ---------------------------------------------------------------- permits change hands

  /** Requests after one closes: the longest waiter takes over its permit. */
  function Released(requests: seq<Req>, waiters: seq<nat>, r: nat): seq<Req>
    requires r < |requests| && forall w <- waiters :: w < |requests|
  {
    var closed := requests[r := requests[r].(phase := Closed)];
    if waiters == [] then closed
    else
      assert waiters[0] in waiters;
      closed[waiters[0] := closed[waiters[0]].(phase := Holding)]
  }

  lemma AcquireKeeps(active: nat, waiters: seq<nat>, requests: seq<Req>, q: Req)
    requires PermitsOk(active, waiters, requests) && q.phase.Waiting?
    ensures active < PERMITS ==> PermitsOk(active + 1, waiters, requests + [q.(phase := Holding)])
    ensures active == PERMITS ==> PermitsOk(active, waiters + [|requests|], requests + [q])
  {
    HoldersPush(requests, q);
    HoldersPush(requests, q.(phase := Holding));
    assert forall k :: 0 <= k < |waiters| ==> waiters[k] in waiters;
  }

  lemma SendKeeps(active: nat, waiters: seq<nat>, requests: seq<Req>, r: nat)
    requires PermitsOk(active, waiters, requests) && r < |requests| && requests[r].phase.Holding?
    ensures PermitsOk(active, waiters, requests[r := requests[r].(phase := InFlight)])
  {
    HoldersAfter(requests, r, requests[r].(phase := InFlight));
    assert Holders(requests) + {r} == Holders(requests);
  }

  lemma ReleaseKeeps(active: nat, waiters: seq<nat>, requests: seq<Req>, r: nat)
    requires PermitsOk(active, waiters, requests) && r < |requests| && Holds(requests[r])
    ensures active > 0 && forall w <- waiters :: w < |requests| && requests[w].phase.Waiting?
    ensures waiters == [] ==> PermitsOk(active - 1, [], Released(requests, waiters, r))
    ensures waiters != [] ==> PermitsOk(active, waiters[1..], Released(requests, waiters, r))
  {
    hide Holders;
    assert r in Holders(requests) by { HolderIn(requests, r); }
    var closed := requests[r := requests[r].(phase := Closed)];
    HoldersAfter(requests, r, closed[r]);
    if waiters != [] {
      var w := waiters[0];
      assert w in waiters && w != r;
      HoldersAfter(closed, w, closed[w].(phase := Holding));
      assert w !in Holders(closed) by { HolderIn(closed, w); }
      forall x: nat ensures x in waiters[1..] <==> x in waiters && x != w {
        TailOf(waiters, x);
      }
    }
  }

  lemma HolderIn(requests: seq<Req>, r: nat)
    requires r < |requests|
    ensures r in Holders(requests) <==> Holds(requests[r])
  {
  }

  lemma TailOf(s: seq<nat>, x: nat)
    requires s != [] && Distinct(s)
    ensures x in s[1..] <==> x in s && x != s[0]
  {
    if x in s && x != s[0] {
      var i :| 0 <= i < |s| && s[i] == x;
      assert s[1..][i - 1] == x;
    }
  }

  // ----------------------------------------------------------------- jobs and requests

  lemma JobsPush(jobs: seq<Job>, requests: seq<Req>, n: nat, q: Req)
    requires JobsOk(jobs, requests, n) && q.provider < n && q.job.None?
    ensures JobsOk(jobs, requests + [q], n)
  {
    forall j | 0 <= j < |jobs| ensures JobOk(jobs[j], j, requests + [q], n) {
      assert JobOk(jobs[j], j, requests, n);
    }
  }

  /** A job that had no open request gets one. */
  lemma JobIssues(jobs: seq<Job>, requests: seq<Req>, n: nat, j: nat, q: Req)
    requires JobsOk(jobs, requests, n) && j < |jobs| && jobs[j].phase.Ready?
    requires q.job == Some(j) && q.provider == jobs[j].order[jobs[j].next] && (q.phase.Waiting? || q.phase.Holding?)
    ensures JobsOk(jobs[j := jobs[j].(phase := AwaitReply(|requests|))], requests + [q], n)
  {
    var jobs' := jobs[j := jobs[j].(phase := AwaitReply(|requests|))];
    assert JobOk(jobs[j], j, requests, n);
    assert q.provider in jobs[j].order;
    forall k | 0 <= k < |jobs'| ensures JobOk(jobs'[k], k, requests + [q], n) {
      assert JobOk(jobs[k], k, requests, n);
    }
  }

  /** A job between requests changes on its own. */
  lemma JobMoves(jobs: seq<Job>, requests: seq<Req>, n: nat, j: nat, job: Job)
    requires JobsOk(jobs, requests, n) && j < |jobs| && !jobs[j].phase.AwaitReply? && !jobs[j].phase.Finished? && !job.phase.AwaitReply?
    requires job.order == jobs[j].order && job.sent == jobs[j].sent && job.isRead == jobs[j].isRead
    requires jobs[j].next <= job.next <= |job.order| && (job.phase.AwaitProbe? || job.phase.Ready? ==> job.next < |job.order|)
    ensures JobsOk(jobs[j := job], requests, n)
  {
    var jobs' := jobs[j := job];
    forall k | 0 <= k < |jobs'| ensures JobOk(jobs'[k], k, requests, n) {
      assert JobOk(jobs[k], k, requests, n);
      if k == j { PrefixGrows(job.order, jobs[j].next, job.next); }
    }
  }

  lemma PrefixGrows(s: seq<nat>, a: nat, b: nat)
    requires a <= b <= |s|
    ensures forall x <- s[..a] :: x in s[..b]
  {
    forall x <- s[..a] ensures x in s[..b] {
      var i :| 0 <= i < a && s[..a][i] == x;
      assert s[..b][i] == x;
    }
  }

  lemma JobAdded(jobs: seq<Job>, requests: seq<Req>, n: nat, job: Job)
    requires JobsOk(jobs, requests, n) && job.phase.Choosing? && job.next == 0 && job.sent == {}
    requires Distinct(job.order) && forall i <- job.order :: i < n
    ensures JobsOk(jobs + [job], requests, n)
  {
    forall k | 0 <= k < |jobs + [job]| ensures JobOk((jobs + [job])[k], k, requests, n) {
      if k < |jobs| { assert JobOk(jobs[k], k, requests, n); }
    }
  }

  /** The request goes on the wire. */
  lemma JobSends(jobs: seq<Job>, requests: seq<Req>, n: nat, r: nat)
    requires JobsOk(jobs, requests, n) && r < |requests| && requests[r].phase.Holding?
    ensures var requests' := requests[r := requests[r].(phase := InFlight)];
      match requests[r].job
      case None => JobsOk(jobs, requests', n)
      case Some(j) =>
        && j < |jobs| && jobs[j].phase == AwaitReply(r)
        && requests[r].provider !in jobs[j].sent && (!jobs[j].isRead ==> jobs[j].sent == {})
        && JobsOk(jobs[j := jobs[j].(sent := jobs[j].sent + {requests[r].provider})], requests', n)
  {
    var requests' := requests[r := requests[r].(phase := InFlight)];
    if requests[r].job.None? {
      forall k | 0 <= k < |jobs| ensures JobOk(jobs[k], k, requests', n) {
        assert JobOk(jobs[k], k, requests, n);
      }
    } else {
      var j := requests[r].job.value;
      var jobs' := jobs[j := jobs[j].(sent := jobs[j].sent + {requests[r].provider})];
      assert JobOk(jobs[j], j, requests, n);
      NotEarlier(jobs[j].order, jobs[j].next);
      forall k | 0 <= k < |jobs'| ensures JobOk(jobs'[k], k, requests', n) {
        assert JobOk(jobs[k], k, requests, n);
      }
    }
  }

  lemma NotEarlier(s: seq<nat>, i: nat)
    requires Distinct(s) && i < |s|
    ensures s[i] !in s[..i]
  {
  }

  /** The request closes and its job, if any, moves on. */
  lemma JobCloses(jobs: seq<Job>, requests: seq<Req>, waiters: seq<nat>, n: nat, r: nat, job: Job)
    requires JobsOk(jobs, requests, n) && r < |requests| && Holds(requests[r])
    requires forall w <- waiters :: w < |requests| && requests[w].phase.Waiting?
    requires requests[r].job.Some? ==>
      var j := requests[r].job.value;
      && j < |jobs| && jobs[j].phase == AwaitReply(r)
      && job.order == jobs[j].order && job.sent == jobs[j].sent && job.isRead == jobs[j].isRead
      && (job.phase.Finished? || (job.phase.Choosing? && job.isRead)) && job.next == jobs[j].next + 1
    ensures requests[r].job.None? ==> JobsOk(jobs, Released(requests, waiters, r), n)
    ensures requests[r].job.Some? ==> JobsOk(jobs[requests[r].job.value := job], Released(requests, waiters, r), n)
  {
    var requests' := Released(requests, waiters, r);
    var jobs' := if requests[r].job.Some? then jobs[requests[r].job.value := job] else jobs;
    assert waiters != [] ==> waiters[0] in waiters;
    if requests[r].job.Some? {
      var j := requests[r].job.value;
      assert JobOk(jobs[j], j, requests, n);
      assert job.order[..job.next] == job.order[..jobs[j].next] + [job.order[jobs[j].next]];
    }
    forall k | 0 <= k < |jobs'| ensures JobOk(jobs'[k], k, requests', n) {
      assert JobOk(jobs[k], k, requests, n);
    }
    forall q | 0 <= q < |requests'|
      ensures requests'[q].provider < n
      ensures requests'[q].job.Some? && !requests'[q].phase.Closed? ==>
        requests'[q].job.value < |jobs'| && jobs'[requests'[q].job.value].phase == AwaitReply(q)
    {
      assert requests'[q].job == requests[q].job;
    }
  }

  // ------------------------------------------------------------------------ the machine

  datatype StepKind =
    | Call(isRead: bool, call: nat, cacheable: bool, signal: bool)
    | Choose(job: nat)
    | Issue(job: nat)
    | Send(req: nat, aborted: set<nat>)
    | Answer(req: nat, outcome: Outcome, aborted: set<nat>)
    | CoolDown(provider: nat)
    | Expire(key: CacheKey)

  class Transport {
    var providers: seq<Provider>
    var active: nat
    var waiters: seq<nat>
    var generation: nat
    var cache: map<CacheKey, nat>
    var pending: map<CacheKey, nat>
    var preferred: nat
    var requests: seq<Req>
    var jobs: seq<Job>
    /** The observer's record; the program keeps no such log. */
    var trace: seq<Event>

    ghost predicate Valid()
      reads this
    {
      && preferred < |providers|
      && PermitsOk(active, waiters, requests)
      && JobsOk(jobs, requests, |providers|)
      && TraceOk(trace, jobs, generation, cache, pending)
      && ClusterOk(trace, jobs, providers)
      && PendingOk(pending, jobs)
    }

    constructor (endpoints: nat)
      requires endpoints > 0
      ensures Valid() && |providers| == endpoints && trace == []
    {
      providers := seq(endpoints, _ => Provider(false, false, false, None));
      active, waiters, generation, preferred := 0, [], 0, 0;
      cache, pending, requests, jobs, trace := map[], map[], [], [], [];
      new;
      assert Holders([]) == {};
    }

    /** `single`: a served reply, or a new job. */
    method HandleCall(isRead: bool, call: nat, cacheable: bool, signal: bool) returns (served: Option<nat>)
      requires Valid()
      modifies this
      ensures Valid() && |providers| == old(|providers|) && old(trace) <= trace
      ensures served.Some? <==> isRead && !signal && (CacheKey(old(generation), call) in old(cache) || CacheKey(old(generation), call) in old(pending))
      ensures served.None? && isRead && !signal ==> CacheKey(generation, call) in pending && pending[CacheKey(generation, call)] == |jobs| - 1
      ensures served.Some? ==> isRead && !signal && trace == old(trace) + [Served(served.value, call)] && generation == old(generation)
      ensures served.Some? ==> jobs == old(jobs) && served.value < |jobs| && jobs[served.value].isRead && jobs[served.value].call == call
      ensures served.None? ==>
        && |jobs| == old(|jobs|) + 1 && jobs[..|jobs| - 1] == old(jobs) && jobs[|jobs| - 1].isRead == isRead && jobs[|jobs| - 1].call == call
        && jobs[|jobs| - 1].cacheable == cacheable && jobs[|jobs| - 1].abortable == signal
        && trace == old(trace) + (if isRead then [] else [WriteStarted(old(|jobs|))]) + [Started(old(|jobs|))]
        && generation == old(generation) + (if isRead then 0 else 1)
    {
      hide PermitsOk, JobsOk, TraceOk, ClusterOk, Cleared, PendingOk;
      var key := CacheKey(generation, call);
      var shared := isRead && !signal;
      if shared && (key in cache || key in pending) {
        var j := if key in cache then cache[key] else pending[key];
        EntryFresh(trace, jobs, generation, cache, pending, key);
        AppendServed(trace, jobs, generation, cache, pending, j, call);
        ClusterAppends(trace, jobs, providers, Served(j, call));
        trace := trace + [Served(j, call)];
        return Some(j);
      }
      StartJob(isRead, call, if shared then Some(key) else None, cacheable, signal);
      served := None;
    }

    /** The start of `execute`: a write opens a new generation. */
    method StartJob(isRead: bool, call: nat, key: Option<CacheKey>, cacheable: bool, signal: bool)
      requires Valid() && (key.Some? ==> isRead && key.value == CacheKey(generation, call))
      modifies this
      ensures Valid() && |providers| == old(|providers|)
      ensures |jobs| == old(|jobs|) + 1 && jobs[..|jobs| - 1] == old(jobs)
      ensures jobs[|jobs| - 1] == Job(isRead, call, false, key, cacheable, signal, old(Order(preferred, |providers|)), 0, Choosing, {}, old(|trace|) + if isRead then 0 else 1)
      ensures trace == old(trace) + (if isRead then [] else [WriteStarted(old(|jobs|))]) + [Started(old(|jobs|))]
      ensures generation == old(generation) + (if isRead then 0 else 1)
      ensures pending == if key.Some? then old(pending)[key.value := old(|jobs|)] else old(pending)
    {
      hide PermitsOk, JobsOk, TraceOk, ClusterOk, Cleared, PendingOk, Increasing, Order, Distinct;
      if !isRead {
        AppendWrite(trace, jobs, generation, cache, pending, WriteStarted(|jobs|));
        ClusterAppends(trace, jobs, providers, WriteStarted(|jobs|));
        trace := trace + [WriteStarted(|jobs|)];
        generation, cache := generation + 1, map[];
      }
      var order := Order(preferred, |providers|);
      var job := Job(isRead, call, false, key, cacheable, signal, order, 0, Choosing, {}, |trace|);
      AppendJob(trace, jobs, generation, cache, pending, job);
      JobAdded(jobs, requests, |providers|, job);
      PendingStarts(pending, jobs, job);
      if key.Some? { pending := pending[key.value := |jobs|]; }
      ClusterAppends(trace, jobs, providers, Started(|jobs|));
      ClusterJob(trace + [Started(|jobs|)], jobs, providers, job);
      trace := trace + [Started(|jobs|)];
      jobs := jobs + [job];
    }

    /** `acquire` for a new request. */
    method Acquire(job: Option<nat>, opener: nat, provider: nat) returns (r: nat)
      requires PermitsOk(active, waiters, requests)
      modifies this`active, this`waiters, this`requests
      ensures PermitsOk(active, waiters, requests)
      ensures r == old(|requests|)
      ensures var phase := if old(active) < PERMITS then Holding else Waiting;
        requests == old(requests) + [Req(job, opener, provider, phase)] && waiters == if phase.Waiting? then old(waiters) + [r] else old(waiters)
    {
      hide PermitsOk;
      r := |requests|;
      var q := Req(job, opener, provider, Waiting);
      PermitLimit(active, waiters, requests);
      AcquireKeeps(active, waiters, requests, q);
      if active < PERMITS {
        active := active + 1;
        requests := requests + [q.(phase := Holding)];
      } else {
        waiters := waiters + [r];
        requests := requests + [q];
      }
    }

    /** `release`: the permit passes to the longest waiter, or is freed. */
    method Release(r: nat)
      requires PermitsOk(active, waiters, requests) && r < |requests| && Holds(requests[r])
      modifies this`active, this`waiters, this`requests
      ensures PermitsOk(active, waiters, requests)
      ensures old(forall w <- waiters :: w < |requests| && requests[w].phase.Waiting?)
      ensures requests == old(Released(requests, waiters, r)) && waiters == old(if waiters == [] then [] else waiters[1..])
    {
      hide PermitsOk;
      ReleaseKeeps(active, waiters, requests, r);
      requests := Released(requests, waiters, r);
      if waiters != [] {
        waiters := waiters[1..];
      } else {
        active := active - 1;
      }
    }

    /** One turn of the provider loop of `execute`: skip, verify, or go on to the request. */
    method ChooseProvider(j: nat)
      requires Valid() && j < |jobs| && jobs[j].phase.Choosing?
      modifies this
      ensures Valid() && |providers| == old(|providers|) && trace == old(trace) && generation == old(generation)
      ensures jobs == old(jobs[j := Chosen(jobs[j], providers)])
      ensures jobs[j].phase.AwaitProbe? ==> Checking(jobs[j], providers) && (Checking(jobs[j], old(providers)) ==> requests == old(requests))
      ensures !jobs[j].phase.AwaitProbe? ==> requests == old(requests) && providers == old(providers)
    {
      hide PermitsOk, JobsOk, TraceOk, ClusterOk, Cleared, PendingOk;
      JobFacts(jobs, requests, |providers|, j);
      var job := jobs[j];
      var moved := NextTurn(job);
      ChosenFacts(job, providers);
      hide Chosen, Checking;
      if moved.phase.Finished? {
        FinishPending(j);
      } else if moved.phase.AwaitProbe? && !Checking(moved, providers) {
        OpenProbe(j, moved);
        IdleCleared(moved, providers);
      }
      MoveJob(j, moved);
    }

    /** The job between two requests moves on. */
    method MoveJob(j: nat, moved: Job)
      requires Valid() && j < |jobs| && jobs[j].phase.Choosing? && !moved.phase.AwaitReply?
      requires moved == jobs[j].(next := moved.next, phase := moved.phase)
      requires Cleared(moved, providers) && (moved.phase.Finished? ==> forall k <- pending :: pending[k] != j)
      requires jobs[j].next <= moved.next <= |moved.order| && (moved.phase.AwaitProbe? || moved.phase.Ready? ==> moved.next < |moved.order|)
      modifies this`jobs
      ensures Valid() && jobs == old(jobs)[j := moved]
    {
      hide PermitsOk, JobsOk, TraceOk, ClusterOk, Cleared, PendingOk;
      JobMoves(jobs, requests, |providers|, j, moved);
      OneMoves(trace, jobs, generation, cache, pending, j, moved);
      ClusterMoves(trace, jobs, providers, j, moved);
      PendingMoves(pending, jobs, j, moved);
      jobs := jobs[j := moved];
    }

    /** The decision of one turn: past the last provider, skip, go on, or wait for a cluster check. */
    method NextTurn(job: Job) returns (moved: Job)
      requires job.next <= |job.order| && (job.next < |job.order| ==> job.order[job.next] < |providers|)
      ensures moved == Chosen(job, providers)
    {
      if job.next == |job.order| { return job.(phase := Finished); }
      var i := job.order[job.next];
      if providers[i].wrong || providers[i].cooling { return job.(next := job.next + 1); }
      if providers[i].verified { return job.(phase := Ready); }
      moved := job.(phase := AwaitProbe);
    }

    /** The cluster check of a provider nobody is checking yet, opened for job j. */
    method OpenProbe(j: nat, job: Job)
      requires Valid() && job.next < |job.order| && job.order[job.next] < |providers| && !Checking(job, providers)
      modifies this`active, this`waiters, this`requests, this`providers
      ensures Valid() && |providers| == old(|providers|) && |requests| == old(|requests|) + 1 && Checking(job, providers)
      ensures var i := job.order[job.next];
        && providers == old(providers)[i := old(providers)[i].(probe := Some(old(|requests|)))]
        && requests[|requests| - 1].job.None? && requests[|requests| - 1].opener == j && requests[|requests| - 1].provider == i
    {
      hide PermitsOk, JobsOk, TraceOk, ClusterOk, Cleared, PendingOk;
      ghost var before := requests;
      var i := job.order[job.next];
      var r := Acquire(None, j, i);
      ClusterProvider(trace, jobs, providers, i, providers[i].(probe := Some(r)));
      providers := providers[i := providers[i].(probe := Some(r))];
      JobsPush(jobs, before, |providers|, requests[r]);
    }

    /** `pending.delete(key)` when the shared job settles: nobody can join it any more. */
    method FinishPending(j: nat)
      requires j < |jobs| && TraceOk(trace, jobs, generation, cache, pending) && PendingOk(pending, jobs)
      modifies this`pending
      ensures TraceOk(trace, jobs, generation, cache, pending) && PendingOk(pending, jobs)
      ensures pending == (if jobs[j].key.Some? then old(pending) - {jobs[j].key.value} else old(pending))
      ensures forall k <- pending :: pending[k] != j
    {
      if jobs[j].key.Some? {
        PendingDone(trace, jobs, generation, cache, pending, pending - {jobs[j].key.value}, cache);
        pending := pending - {jobs[j].key.value};
      }
    }

    /** The job's own request joins the queue for a permit. */
    method IssueRequest(j: nat)
      requires Valid() && j < |jobs| && jobs[j].phase.Ready?
      modifies this
      ensures Valid() && |providers| == old(|providers|) && trace == old(trace) && generation == old(generation)
      ensures jobs == old(jobs[j := jobs[j].(phase := AwaitReply(|requests|))]) && |requests| == old(|requests|) + 1
    {
      hide PermitsOk, JobsOk, TraceOk, ClusterOk, Cleared, PendingOk;
      JobFacts(jobs, requests, |providers|, j);
      ghost var before := requests;
      var r := Acquire(Some(j), j, jobs[j].order[jobs[j].next]);
      JobIssues(jobs, before, |providers|, j, requests[r]);
      var moved := jobs[j].(phase := AwaitReply(r));
      OneMoves(trace, jobs, generation, cache, pending, j, moved);
      ReadyCleared(trace, jobs, providers, j);
      ClusterMoves(trace, jobs, providers, j, moved);
      PendingMoves(pending, jobs, j, moved);
      jobs := jobs[j := moved];
    }

    /** A request that got its permit and its turn: refused before sending if its provider cools down or it was cancelled. */
    method SendRequest(r: nat, aborted: set<nat>)
      requires Valid() && r < |requests| && requests[r].phase.Holding?
      modifies this
      ensures Valid() && |providers| == old(|providers|)
      ensures var q := old(requests)[r];
        var sends := q.provider < old(|providers|) && !old(providers)[q.provider].cooling && !Gone(old(jobs), q.opener, aborted);
        && trace == old(trace) + (if sends && q.job.Some? then [SentTo(q.job.value, q.provider)] else [])
        && (sends ==> requests == old(requests)[r := q.(phase := InFlight)])
    {
      hide PermitsOk, JobsOk, TraceOk, ClusterOk, Cleared, PendingOk;
      RequestFacts(jobs, requests, |providers|, r);
      var i := requests[r].provider;
      if providers[i].cooling || Gone(jobs, requests[r].opener, aborted) {
        Settle(r, Broken, aborted);
        return;
      }
      JobSends(jobs, requests, |providers|, r);
      SendKeeps(active, waiters, requests, r);
      if requests[r].job.Some? {
        var j := requests[r].job.value;
        AppendSent(trace, jobs, generation, cache, pending, j, i);
        RequestCleared(trace, jobs, requests, providers, r, j);
        ClusterMoves(trace, jobs, providers, j, jobs[j].(sent := jobs[j].sent + {i}));
        PendingSent(pending, jobs, j, i);
        ClusterAppends(trace, jobs[j := jobs[j].(sent := jobs[j].sent + {i})], providers, SentTo(j, i));
        jobs := jobs[j := jobs[j].(sent := jobs[j].sent + {i})];
        trace := trace + [SentTo(j, i)];
      }
      requests := requests[r := requests[r].(phase := InFlight)];
    }

    /** The `finally` of `request` and what its caller does next. */
    method Settle(r: nat, outcome: Outcome, aborted: set<nat>)
      requires Valid() && r < |requests| && Holds(requests[r])
      modifies this
      ensures Valid() && |providers| == old(|providers|) && old(trace) <= trace
      ensures outcome.Broken? ==> trace == old(trace)
    {
      hide PermitsOk, JobsOk, TraceOk, ClusterOk, Cleared, PendingOk;
      RequestFacts(jobs, requests, |providers|, r);
      var i := requests[r].provider;
      if requests[r].job.None? {
        SettleProbe(r, i, outcome, aborted);
      } else {
        SettleJob(r, requests[r].job.value, i, outcome, aborted);
      }
    }

    /**
     * The cluster check answers every job waiting on it: they go on to their request, or to their next provider, or
     * end if their caller has gone. The provider cools down if it was busy, or if anyone still waited for a failed check.
     */
    method SettleProbe(r: nat, i: nat, outcome: Outcome, aborted: set<nat>)
      requires Valid() && r < |requests| && Holds(requests[r]) && requests[r].job.None? && i < |providers|
      modifies this
      ensures Valid() && trace == old(trace) && generation == old(generation) && preferred == old(preferred) && cache == old(cache)
      ensures old(forall w <- waiters :: w < |requests|) && requests == old(Released(requests, waiters, r))
      ensures |jobs| == old(|jobs|)
      ensures forall j :: 0 <= j < |jobs| ==>
        jobs[j] == if !WaitsOn(old(jobs)[j], i) then old(jobs)[j]
                   else if outcome.Good? then old(jobs)[j].(phase := Ready)
                   else old(jobs)[j].(next := old(jobs)[j].next + 1, phase := if Gone(old(jobs), j, aborted) then Finished else Choosing)
      ensures providers == old(providers)[i := Provider(
        old(providers)[i].cooling || outcome.Busy? || (!outcome.Good? && old(Awaited(jobs, i, aborted))),
        old(providers)[i].wrong || outcome.WrongCluster?, old(providers)[i].verified || outcome.Good?, None)]
    {
      hide PermitsOk, JobsOk, TraceOk, ClusterOk, Cleared, PendingOk, JobsMove, ProbedAll, Released;
      ghost var before, queue := requests, waiters;
      Release(r);
      JobCloses(jobs, before, queue, |providers|, r, Job(true, 0, false, None, false, false, [], 0, Finished, {}, 0));
      var ok := outcome.Good?;
      var cooling := providers[i].cooling || outcome.Busy? || (!ok && Awaited(jobs, i, aborted));
      ClusterProvider(trace, jobs, providers, i, Provider(cooling, providers[i].wrong || outcome.WrongCluster?, providers[i].verified || ok, None));
      providers := providers[i := Provider(cooling, providers[i].wrong || outcome.WrongCluster?, providers[i].verified || ok, None)];
      var jobs' := ProbedAll(jobs, i, ok, aborted);
      JobsProbed(jobs, requests, |providers|, i, ok, aborted, jobs');
      MoveKeepsTrace(trace, jobs, jobs', generation, cache, pending);
      ProbedCleared(trace, jobs, providers, i, ok, aborted, jobs');
      PendingKeyed(pending, jobs, jobs');
      jobs := jobs';
      DropFinished();
    }

    /** Shared jobs that just failed leave `pending`. */
    method DropFinished()
      requires TraceOk(trace, jobs, generation, cache, pending)
      requires forall k <- pending :: pending[k] < |jobs| && jobs[pending[k]].key == Some(k)
      modifies this`pending
      ensures TraceOk(trace, jobs, generation, cache, pending) && PendingOk(pending, jobs)
    {
      var left := map k | k in pending && !(pending[k] < |jobs| && jobs[pending[k]].phase.Finished?) :: pending[k];
      PendingDone(trace, jobs, generation, cache, pending, left, cache);
      pending := left;
    }

    /**
     * The reply or failure of a job's own request. A reply ends the job; a failed read goes on to its next provider,
     * unless its caller has gone; a failed write ends, and is never sent again.
     */
    method SettleJob(r: nat, j: nat, i: nat, outcome: Outcome, aborted: set<nat>)
      requires Valid() && r < |requests| && Holds(requests[r]) && requests[r].job == Some(j) && i < |providers|
      requires j < |jobs| && jobs[j].phase == AwaitReply(r)
      modifies this
      ensures Valid() && |providers| == old(|providers|) && old(trace) <= trace
      ensures var replied := outcome.Good? || outcome.RpcError?;
        var job := old(jobs)[j];
        && trace == old(trace) + (if replied && !job.isRead then [WriteDone(j)] else [])
        && generation == old(generation) + (if replied && !job.isRead then 1 else 0)
        && jobs == old(jobs)[j := job.(good := job.good || outcome.Good?, next := job.next + 1, phase := if replied || !job.isRead || Gone(old(jobs), j, aborted) then Finished else Choosing)]
        && preferred == (if replied then i else old(preferred))
        && providers == (if !replied && (outcome.Busy? || !Gone(old(jobs), j, aborted)) then old(providers)[i := old(providers)[i].(cooling := true)]
                         else old(providers))
        && (if outcome.Good? && job.key.Some? && job.cacheable then job.key.value in cache && cache[job.key.value] == j
            else cache == if replied && !job.isRead then map[] else old(cache))
      ensures old(forall w <- waiters :: w < |requests|) && requests == old(Released(requests, waiters, r))
    {
      hide PermitsOk, JobsOk, TraceOk, ClusterOk, Cleared, PendingOk, Released;
      KeyedIsRead(trace, jobs, generation, cache, pending, j);
      JobFacts(jobs, requests, |providers|, j);
      var job := jobs[j];
      var replied := outcome.Good? || outcome.RpcError?;
      var gone := Gone(jobs, j, aborted);
      hide Gone, JobOk, PermitsOk, Holds;
      var moved := job.(good := job.good || outcome.Good?, next := job.next + 1, phase := if replied || !job.isRead || gone then Finished else Choosing);
      CloseJob(r, j, moved);
      TakeReply(j, i, outcome, gone);
    }

    /** A reply is accepted; without one the provider cools down, unless only the caller went away. */
    method TakeReply(j: nat, i: nat, outcome: Outcome, gone: bool)
      requires j < |jobs| && i < |providers| && TraceOk(trace, jobs, generation, cache, pending) && ClusterOk(trace, jobs, providers)
      requires (outcome.Good? ==> jobs[j].good) && (jobs[j].key.Some? ==> jobs[j].isRead)
      modifies this`preferred, this`trace, this`generation, this`cache, this`providers
      ensures TraceOk(trace, jobs, generation, cache, pending) && ClusterOk(trace, jobs, providers)
      ensures var replied := outcome.Good? || outcome.RpcError?;
        && trace == old(trace) + (if replied && !jobs[j].isRead then [WriteDone(j)] else [])
        && generation == old(generation) + (if replied && !jobs[j].isRead then 1 else 0)
        && preferred == (if replied then i else old(preferred))
        && providers == (if !replied && (outcome.Busy? || !gone) then old(providers)[i := old(providers)[i].(cooling := true)] else old(providers))
        && (if outcome.Good? && jobs[j].key.Some? && jobs[j].cacheable then jobs[j].key.value in cache && cache[jobs[j].key.value] == j
            else cache == if replied && !jobs[j].isRead then map[] else old(cache))
    {
      hide TraceOk, ClusterOk;
      if outcome.Good? || outcome.RpcError? {
        AcceptReply(j, i, outcome.Good?);
      } else if outcome.Busy? || !gone {
        ClusterProvider(trace, jobs, providers, i, providers[i].(cooling := true));
        providers := providers[i := providers[i].(cooling := true)];
      }
    }

    /** The job's request closes and its permit passes on. */
    method CloseJob(r: nat, j: nat, moved: Job)
      requires Valid() && r < |requests| && Holds(requests[r]) && requests[r].job == Some(j)
      requires j < |jobs| && jobs[j].phase == AwaitReply(r)
      requires moved == jobs[j].(good := moved.good, next := jobs[j].next + 1, phase := moved.phase) && (jobs[j].good ==> moved.good)
      requires moved.phase.Finished? || (moved.phase.Choosing? && moved.isRead)
      modifies this`active, this`waiters, this`requests, this`jobs, this`pending
      ensures Valid() && jobs == old(jobs)[j := moved]
      ensures old(forall w <- waiters :: w < |requests|) && requests == old(Released(requests, waiters, r))
    {
      hide PermitsOk, JobsOk, TraceOk, ClusterOk, Cleared, PendingOk, Released;
      ghost var before, queue := requests, waiters;
      if moved.phase.Finished? { FinishPending(j); }
      Release(r);
      JobCloses(jobs, before, queue, |providers|, r, moved);
      OneMoves(trace, jobs, generation, cache, pending, j, moved);
      IdleCleared(moved, providers);
      ClusterMoves(trace, jobs, providers, j, moved);
      PendingMoves(pending, jobs, j, moved);
      jobs := jobs[j := moved];
    }

    /** A reply was received: remember the provider, forget what a write may have changed, cache what may be cached. */
    method AcceptReply(j: nat, i: nat, good: bool)
      requires j < |jobs| && TraceOk(trace, jobs, generation, cache, pending) && (good ==> jobs[j].good)
      requires ClusterOk(trace, jobs, providers)
      modifies this`preferred, this`trace, this`generation, this`cache
      ensures TraceOk(trace, jobs, generation, cache, pending) && ClusterOk(trace, jobs, providers) && preferred == i
      ensures trace == old(trace) + (if jobs[j].isRead then [] else [WriteDone(j)])
      ensures generation == old(generation) + (if jobs[j].isRead then 0 else 1)
      ensures if jobs[j].key.Some? && jobs[j].cacheable && good then jobs[j].key.value in cache && cache[jobs[j].key.value] == j
              else cache == if jobs[j].isRead then old(cache) else map[]
    {
      hide TraceOk, ClusterOk;
      preferred := i;
      if !jobs[j].isRead {
        AppendWrite(trace, jobs, generation, cache, pending, WriteDone(j));
        ClusterAppends(trace, jobs, providers, WriteDone(j));
        trace := trace + [WriteDone(j)];
        generation, cache := generation + 1, map[];
      }
      if jobs[j].key.Some? && jobs[j].cacheable && good {
        StoreReply(j);
      }
    }

    /** `cache.set`, after evicting an entry at the limit. */
    method StoreReply(j: nat)
      requires j < |jobs| && jobs[j].key.Some? && TraceOk(trace, jobs, generation, cache, pending) && jobs[j].cacheable && jobs[j].good
      modifies this`cache
      ensures TraceOk(trace, jobs, generation, cache, pending)
      ensures jobs[j].key.value in cache && cache[jobs[j].key.value] == j
      ensures forall k <- cache :: k != jobs[j].key.value ==> k in old(cache) && cache[k] == old(cache)[k]
      ensures |old(cache)| < CACHE_LIMIT ==> cache == old(cache)[jobs[j].key.value := j]
    {
      hide TraceOk;
      var evicted: set<CacheKey> := {};
      if |cache| >= CACHE_LIMIT {
        assert cache.Keys != {} by { assert |cache.Keys| == |cache|; }
        var k :| k in cache.Keys;
        evicted := {k};
      }
      CacheReply(trace, jobs, generation, cache, pending, j, evicted);
      cache := (cache - evicted)[jobs[j].key.value := j];
    }

    /** One atomic step; a step that is not enabled does nothing. */
    method Step(step: StepKind)
      requires Valid()
      modifies this
      ensures Valid() && |providers| == old(|providers|) && old(trace) <= trace
    {
      hide PermitsOk, JobsOk, TraceOk, ClusterOk, Cleared, PendingOk;
      match step {
        case Call(isRead, call, cacheable, signal) => var _ := HandleCall(isRead, call, cacheable, signal);
        case Choose(j) => if j < |jobs| && jobs[j].phase.Choosing? { ChooseProvider(j); }
        case Issue(j) => if j < |jobs| && jobs[j].phase.Ready? { IssueRequest(j); }
        case Send(r, aborted) => if r < |requests| && requests[r].phase.Holding? { SendRequest(r, aborted); }
        case Answer(r, outcome, aborted) => if r < |requests| && requests[r].phase.InFlight? { Settle(r, outcome, aborted); }
        case CoolDown(i) => if i < |providers| {
          ClusterProvider(trace, jobs, providers, i, providers[i].(cooling := false));
          providers := providers[i := providers[i].(cooling := false)];
        }
        case Expire(k) => {
          SmallerCache(cache, k);
          PendingDone(trace, jobs, generation, cache, pending, pending, cache - {k});
          cache := cache - {k};
        }
      }
    }

    /**
     * Every interleaving: any sequence of steps from a fresh transport keeps the permits within bounds, sends no write
     * twice and no read twice to one provider, and serves a reply only to the same call, never across a write. Only
     * results of cacheable reads are cached, and nothing is sent to a provider that has not passed the cluster check.
     */
    method Run(steps: seq<StepKind>)
      requires Valid()
      modifies this
      ensures Valid() && old(trace) <= trace
      ensures active <= 3 && (waiters != [] ==> active == 3)
      ensures SentVerified(trace, providers)
      ensures SentOnce(trace, jobs) && ServedFresh(trace, jobs) && |cache| <= 128 && CacheGood(cache, jobs)
    {
      hide JobsOk, SentOnce, ServedFresh, KeysOk, JobKeysOk;
      for k := 0 to |steps|
        invariant Valid() && old(trace) <= trace
      {
        Step(steps[k]);
      }
    }
  }

  /** The caller of job j gave a signal and has aborted. */
  predicate Gone(jobs: seq<Job>, j: nat, aborted: set<nat>) {
    j in aborted && j < |jobs| && jobs[j].abortable
  }

  predicate WaitsOn(job: Job, i: nat) {
    job.phase.AwaitProbe? && job.next < |job.order| && job.order[job.next] == i
  }

  /** A cluster check of the job's current provider is under way. */
  predicate Checking(job: Job, providers: seq<Provider>) {
    job.next < |job.order| && job.order[job.next] < |providers| && providers[job.order[job.next]].probe.Some?
  }

  /** Someone still waits for the cluster check of provider i. */
  predicate Awaited(jobs: seq<Job>, i: nat, aborted: set<nat>) {
    exists j :: 0 <= j < |jobs| && WaitsOn(jobs[j], i) && !Gone(jobs, j, aborted)
  }

  /** One turn of the provider loop: past the last provider, skip, go on, or check the cluster first. */
  function Chosen(job: Job, providers: seq<Provider>): Job {
    if job.next >= |job.order| then job.(phase := Finished)
    else if job.order[job.next] >= |providers| then job
    else
      var p := providers[job.order[job.next]];
      if p.wrong || p.cooling then job.(next := job.next + 1)
      else job.(phase := if p.verified then Ready else AwaitProbe)
  }

  lemma ChosenFacts(job: Job, providers: seq<Provider>)
    requires job.phase.Choosing? && job.next <= |job.order| && (job.next < |job.order| ==> job.order[job.next] < |providers|)
    ensures var moved := Chosen(job, providers);
      && moved == job.(next := moved.next, phase := moved.phase)
      && job.next <= moved.next <= |job.order| && !moved.phase.AwaitReply?
      && (moved.phase.AwaitProbe? || moved.phase.Ready? ==> moved.next == job.next < |job.order|)
      && Cleared(moved, providers)
  {
  }

  lemma PendingSent(pending: map<CacheKey, nat>, jobs: seq<Job>, j: nat, i: nat)
    requires PendingOk(pending, jobs) && j < |jobs| && jobs[j].phase.AwaitReply?
    ensures PendingOk(pending, jobs[j := jobs[j].(sent := jobs[j].sent + {i})])
  {
  }

  lemma PendingKeyed(pending: map<CacheKey, nat>, jobs: seq<Job>, jobs': seq<Job>)
    requires PendingOk(pending, jobs) && JobsMove(jobs, jobs')
    ensures forall k <- pending :: pending[k] < |jobs'| && jobs'[pending[k]].key == Some(k)
  {
  }

  lemma IdleCleared(job: Job, providers: seq<Provider>)
    requires job.phase.Finished? || job.phase.Choosing? || job.phase.AwaitProbe?
    ensures Cleared(job, providers)
  {
  }

  lemma ReadyCleared(trace: seq<Event>, jobs: seq<Job>, providers: seq<Provider>, j: nat)
    requires ClusterOk(trace, jobs, providers) && j < |jobs| && jobs[j].phase.Ready?
    ensures forall r: nat :: Cleared(jobs[j].(phase := AwaitReply(r)), providers)
  {
    assert Cleared(jobs[j], providers);
  }

  lemma RequestCleared(trace: seq<Event>, jobs: seq<Job>, requests: seq<Req>, providers: seq<Provider>, r: nat, j: nat)
    requires ClusterOk(trace, jobs, providers) && JobsOk(jobs, requests, |providers|)
    requires r < |requests| && j < |jobs| && jobs[j].phase == AwaitReply(r)
    ensures requests[r].provider < |providers| && providers[requests[r].provider].verified
    ensures Cleared(jobs[j].(sent := jobs[j].sent + {requests[r].provider}), providers)
  {
    assert Cleared(jobs[j], providers) && JobOk(jobs[j], j, requests, |providers|);
  }

  /** Jobs go on to a provider only when its check was good. */
  lemma ProbedCleared(trace: seq<Event>, jobs: seq<Job>, providers: seq<Provider>, i: nat, ok: bool, aborted: set<nat>, jobs': seq<Job>)
    requires ClusterOk(trace, jobs, providers) && i < |providers| && (ok ==> providers[i].verified) && |jobs'| == |jobs|
    requires forall k :: 0 <= k < |jobs| ==> jobs'[k] == Probed(jobs[k], i, ok, Gone(jobs, k, aborted))
    ensures ClusterOk(trace, jobs', providers)
  {
    forall j | 0 <= j < |jobs'| ensures Cleared(jobs'[j], providers) {
      assert Cleared(jobs[j], providers);
    }
  }

  function Probed(job: Job, i: nat, ok: bool, gone: bool): Job {
    if !WaitsOn(job, i) then job
    else if ok then job.(phase := Ready)
    else job.(next := job.next + 1, phase := if gone then Finished else Choosing)
  }

  function ProbedAll(jobs: seq<Job>, i: nat, ok: bool, aborted: set<nat>): (r: seq<Job>)
    ensures |r| == |jobs| && forall k :: 0 <= k < |jobs| ==> r[k] == Probed(jobs[k], i, ok, Gone(jobs, k, aborted))
  {
    seq(|jobs|, k requires 0 <= k < |jobs| => Probed(jobs[k], i, ok, Gone(jobs, k, aborted)))
  }

  lemma JobsProbed(jobs: seq<Job>, requests: seq<Req>, n: nat, i: nat, ok: bool, aborted: set<nat>, jobs': seq<Job>)
    requires JobsOk(jobs, requests, n) && |jobs'| == |jobs|
    requires forall k :: 0 <= k < |jobs| ==> jobs'[k] == Probed(jobs[k], i, ok, Gone(jobs, k, aborted))
    ensures JobsOk(jobs', requests, n)
    ensures JobsMove(jobs, jobs')
  {
    forall k | 0 <= k < |jobs'| ensures JobOk(jobs'[k], k, requests, n) {
      assert JobOk(jobs[k], k, requests, n);
      if jobs'[k].next != jobs[k].next { PrefixGrows(jobs[k].order, jobs[k].next, jobs'[k].next); }
    }
  }

  /** Only a read has a key to be cached under. */
  lemma KeyedIsRead(trace: seq<Event>, jobs: seq<Job>, generation: nat, cache: map<CacheKey, nat>, pending: map<CacheKey, nat>, j: nat)
    requires TraceOk(trace, jobs, generation, cache, pending) && j < |jobs|
    ensures jobs[j].key.Some? ==> jobs[j].isRead
  {
    if jobs[j].key.Some? { assert EntryOk(jobs[j].key.value, j, generation, jobs, trace); }
  }

  lemma RequestFacts(jobs: seq<Job>, requests: seq<Req>, n: nat, r: nat)
    requires JobsOk(jobs, requests, n) && r < |requests|
    ensures requests[r].provider < n
    ensures requests[r].job.Some? && !requests[r].phase.Closed? ==>
      requests[r].job.value < |jobs| && jobs[requests[r].job.value].phase == AwaitReply(r)
  {
  }

  lemma SmallerCache(cache: map<CacheKey, nat>, k: CacheKey)
    ensures |cache - {k}| <= |cache|
  {
    assert (cache - {k}).Keys == cache.Keys - {k};
    assert |cache.Keys - {k}| <= |cache.Keys|;
    assert |cache - {k}| == |(cache - {k}).Keys| && |cache| == |cache.Keys|;
  }

  /** One job moves on; nothing it sent or shared changes. */
  lemma OneMoves(trace: seq<Event>, jobs: seq<Job>, generation: nat, cache: map<CacheKey, nat>, pending: map<CacheKey, nat>, j: nat, job: Job)
    requires TraceOk(trace, jobs, generation, cache, pending) && j < |jobs|
    requires job.isRead == jobs[j].isRead && job.started == jobs[j].started && job.key == jobs[j].key && job.sent == jobs[j].sent
    requires job.call == jobs[j].call && job.cacheable == jobs[j].cacheable && (jobs[j].good ==> job.good)
    ensures TraceOk(trace, jobs[j := job], generation, cache, pending)
  {
    hide TraceOk;
    MoveKeepsTrace(trace, jobs, jobs[j := job], generation, cache, pending);
  }

  lemma PermitLimit(active: nat, waiters: seq<nat>, requests: seq<Req>)
    requires PermitsOk(active, waiters, requests)
    ensures active <= PERMITS
  {
  }

  lemma JobFacts(jobs: seq<Job>, requests: seq<Req>, n: nat, j: nat)
    requires JobsOk(jobs, requests, n) && j < |jobs|
    ensures jobs[j].next <= |jobs[j].order|
    ensures jobs[j].next < |jobs[j].order| ==> jobs[j].order[jobs[j].next] < n
    ensures jobs[j].phase.AwaitProbe? || jobs[j].phase.Ready? || jobs[j].phase.AwaitReply? ==> jobs[j].next < |jobs[j].order|
  {
    assert JobOk(jobs[j], j, requests, n);
    assert jobs[j].next < |jobs[j].order| ==> jobs[j].order[jobs[j].next] in jobs[j].order;
  }

  lemma EntryFresh(trace: seq<Event>, jobs: seq<Job>, generation: nat, cache: map<CacheKey, nat>, pending: map<CacheKey, nat>, k: CacheKey)
    requires TraceOk(trace, jobs, generation, cache, pending) && k.generation == generation
    ensures k in cache ==> cache[k] < |jobs| && jobs[cache[k]].isRead && jobs[cache[k]].call == k.call && FreshSince(trace, jobs[cache[k]].started, |trace|, cache[k])
    ensures k in pending ==> pending[k] < |jobs| && jobs[pending[k]].isRead && jobs[pending[k]].call == k.call && FreshSince(trace, jobs[pending[k]].started, |trace|, pending[k])
  {
    if k in cache { assert EntryOk(k, cache[k], generation, jobs, trace); }
    if k in pending { assert EntryOk(k, pending[k], generation, jobs, trace); }
  }
}
