/** What a whole run of a cookie does to the shared resources. Every call in
    a collaborator's log either takes a claim (a container created under the
    task's name, a pool or network grant, an image-cache claim), releases
    one, or neither; a run is settled when the calls it made release exactly
    the claims they took. */
module Lifecycle {

  import opened Base
  import opened Model
  import opened Collaborators
  import opened Options
  import opened Docker

  datatype Claim =
    | ContainerClaim(name: string)
    | PoolClaim(poolId: string)
    | NetworkClaim(netId: string)
    | CacheClaim(image: CachedImage)

  /** The claim a call takes, if any. A create takes the container name
      whatever it answered; an empty pool or network id is no grant. */
  function TakenBy(call: Call): Option<Claim> {
    match call
    case Created(_, _, name, _) => Some(ContainerClaim(name))
    case PoolAllocated(id, _) => if id != "" then Some(PoolClaim(id)) else None
    case NetworkAllocated(id) => if id != "" then Some(NetworkClaim(id)) else None
    case MarkedBusy(img) => Some(CacheClaim(img))
    case Updated(img) => Some(CacheClaim(img))
    case _ => None
  }

  /** The claim a call releases, if any. Only a forced removal that also
      drops the volumes releases a container. */
  function ReleasedBy(call: Call): Option<Claim> {
    match call
    case Removed(id, force, removeVolumes, _) =>
      if force && removeVolumes then Some(ContainerClaim(id)) else None
    case PoolFreed(id) => Some(PoolClaim(id))
    case NetworkFreed(id) => Some(NetworkClaim(id))
    case MarkedFree(img) => Some(CacheClaim(img))
    case _ => None
  }

  function Count(claim: Option<Claim>, k: Claim): int {
    if claim == Some(k) then 1 else 0
  }

  /** How many more times the calls take claim `k` than they release it. */
  function Balance(calls: seq<Call>, k: Claim): int {
    if calls == [] then 0
    else
      var last := calls[|calls| - 1];
      Balance(calls[..|calls| - 1], k) + Count(TakenBy(last), k) - Count(ReleasedBy(last), k)
  }

  /** The balance of a log is the sum of the balances of its parts. */
  lemma {:induction false} BalanceAppend(a: seq<Call>, b: seq<Call>, k: Claim)
    ensures Balance(a + b, k) == Balance(a, k) + Balance(b, k)
    decreases |b|
  {
    if b == [] {
      assert a + b == a;
    } else {
      var b' := b[..|b| - 1];
      assert (a + b)[..|a + b| - 1] == a + b' && (a + b)[|a + b| - 1] == b[|b| - 1];
      BalanceAppend(a, b', k);
    }
  }

  /** The calls made between `before` and `after` left exactly `held`
      outstanding. */
  ghost predicate Accounts(before: seq<Call>, after: seq<Call>, held: Option<Claim>) {
    forall k {:trigger Balance(after, k)} :: Balance(after, k) == Balance(before, k) + Count(held, k)
  }

  /** Every claim the calls after `before` took, they also released: each
      claim's balance is back where it was. */
  ghost predicate Settled(before: seq<Call>, after: seq<Call>) {
    forall k {:trigger Balance(after, k)} :: Balance(after, k) == Balance(before, k)
  }

  /** A log grown by `added` is settled exactly when, in the added calls
      alone, every claim is taken as often as it is released. */
  lemma SettledByAddedCalls(before: seq<Call>, added: seq<Call>)
    ensures Settled(before, before + added) <==> forall k :: Balance(added, k) == 0
  {
    forall k ensures Balance(before + added, k) == Balance(before, k) + Balance(added, k) {
      BalanceAppend(before, added, k);
    }
    if Settled(before, before + added) {
      forall k ensures Balance(added, k) == 0 {
        assert Balance(before + added, k) == Balance(before, k);
      }
    } else {
      var k :| Balance(before + added, k) != Balance(before, k);
      assert Balance(added, k) != 0;
    }
  }

  /** A call that leaves a holder of at most one claim holding `held'`: it
      takes nothing and releases nothing, takes a claim while none is held,
      or releases the claim held. */
  predicate Moves(held: Option<Claim>, call: Call, held': Option<Claim>) {
    || (TakenBy(call).None? && ReleasedBy(call).None? && held' == held)
    || (TakenBy(call).Some? && ReleasedBy(call).None? && held.None? && held' == TakenBy(call))
    || (ReleasedBy(call).Some? && TakenBy(call).None? && held == ReleasedBy(call) && held'.None?)
  }

  lemma AccountsStart(log: seq<Call>)
    ensures Accounts(log, log, None)
  {
    forall k ensures Balance(log, k) == Balance(log, k) + Count(None, k) {
    }
  }

  /** One more call moves the outstanding claim from `held` to `held'`. */
  lemma AccountsStep(before: seq<Call>, log: seq<Call>, call: Call, held: Option<Claim>, held': Option<Claim>)
    requires Accounts(before, log, held)
    requires Moves(held, call, held')
    ensures Accounts(before, log + [call], held')
  {
    forall k ensures Balance(log + [call], k) == Balance(before, k) + Count(held', k) {
      assert (log + [call])[..|log|] == log;
    }
  }

  /** A log settles when the calls appended last release what was still
      held: one call releasing it, or none when nothing was held. */
  lemma SettleBy(start: seq<Call>, before: seq<Call>, held: Option<Claim>, released: seq<Call>)
    requires Accounts(start, before, held)
    requires released == [] ==> held.None?
    requires released != [] ==> |released| == 1 && Moves(held, released[0], None)
    ensures Settled(start, before + released)
  {
    if released != [] {
      assert released == [released[0]];
      AccountsStep(start, before, released[0], held, None);
    } else {
      assert before + released == before;
    }
  }

  /** The claim a cookie holds on each collaborator, from the fields that
      record it. */
  function HeldContainer(created: bool, name: string): Option<Claim> {
    if created then Some(ContainerClaim(name)) else None
  }

  function HeldPool(poolId: string): Option<Claim> {
    if poolId != "" then Some(PoolClaim(poolId)) else None
  }

  function HeldNetwork(netId: string): Option<Claim> {
    if netId != "" then Some(NetworkClaim(netId)) else None
  }

  function HeldCache(image: Option<CachedImage>): Option<Claim> {
    if image.Some? then Some(CacheClaim(image.value)) else None
  }

  /** Snapshots of the four ledger logs. */
  datatype Logs = Logs(docker: seq<Call>, pool: seq<Call>, network: seq<Call>, cache: seq<Call>)

  ghost function LogsOf(drv: Driver): Logs
    reads drv.docker, drv.pool, drv.network, drv.imgCache
  {
    Logs(drv.docker.calls, if drv.pool != null then drv.pool.calls else [],
         drv.network.calls, if drv.imgCache != null then drv.imgCache.calls else [])
  }

  /** Since `start`, the calls the cookie made left outstanding exactly the
      claims it holds: its container, its pool or network grant and its
      image-cache claim. */
  ghost predicate Ledger(c: Cookie, start: Logs)
    reads c, c.drv.docker, c.drv.pool, c.drv.network, c.drv.imgCache
  {
    && Accounts(start.docker, c.drv.docker.calls, HeldContainer(c.containerCreated, c.task.id))
    && (c.drv.pool != null ==> Accounts(start.pool, c.drv.pool.calls, HeldPool(c.poolId)))
    && Accounts(start.network, c.drv.network.calls, HeldNetwork(c.netId))
    && (c.drv.imgCache != null ==> Accounts(start.cache, c.drv.imgCache.calls, HeldCache(c.image)))
  }

  /** The driver's preparation of a fresh cookie: the network mode, then the
      image check, with a pull and a second check when the image is missing;
      it stops at the first error. The only claims it leaves outstanding are
      the ones the cookie records. */
  method Prepare(c: Cookie) returns (err: Option<Error>)
    requires c.Valid()
    requires c.poolId == "" && c.netId == "" && c.image.None? && !c.containerCreated
    modifies c, c.drv.docker, c.drv.pool, c.drv.network, c.drv.imgCache, c.drv.imgPuller, c.auther
    ensures c.Valid() && !c.containerCreated
    ensures Ledger(c, old(LogsOf(c.drv)))
  {
    ghost var start := LogsOf(c.drv);
    JoinNetwork(c);
    var needsPull;
    needsPull, err := Validate(c, start);
    if err.None? && needsPull {
      err := c.PullImage();
      if err.None? {
        needsPull, err := Validate(c, start);
      }
    }
  }

  /** ConfigureNetwork on a fresh cookie opens the ledger: the one pool or
      network grant it may take is the one the cookie records. */
  method JoinNetwork(c: Cookie)
    requires c.Valid()
    requires c.poolId == "" && c.netId == "" && c.image.None? && !c.containerCreated
    modifies c`hostOpts, c`poolId, c`netId, c.drv.pool, c.drv.network
    ensures c.Valid() && c.image.None? && !c.containerCreated
    ensures Ledger(c, old(LogsOf(c.drv)))
  {
    var drv := c.drv;
    ghost var start := LogsOf(drv);
    AccountsStart(start.docker);
    AccountsStart(start.pool);
    AccountsStart(start.network);
    AccountsStart(start.cache);

    c.ConfigureNetwork();
    if drv.pool != null && drv.pool.calls != start.pool {
      AccountsStep(start.pool, start.pool, LastCall(drv.pool.calls), None, HeldPool(c.poolId));
    }
    if drv.network.calls != start.network {
      AccountsStep(start.network, start.network, LastCall(drv.network.calls), None, HeldNetwork(c.netId));
    }
  }

  /** ValidateImage keeps the ledger: an inspection takes nothing, and the
      cache claim it may take is the image record it keeps. */
  method Validate(c: Cookie, ghost start: Logs) returns (needsPull: bool, err: Option<Error>)
    requires c.Valid() && !c.containerCreated
    requires Ledger(c, start)
    modifies c, c.drv.docker, c.drv.imgCache
    ensures c.Valid() && !c.containerCreated
    ensures c.poolId == old(c.poolId) && c.netId == old(c.netId)
    ensures c.drv.pool != null ==> c.drv.pool.calls == old(c.drv.pool.calls)
    ensures c.drv.network.calls == old(c.drv.network.calls)
    ensures err.None? && needsPull ==> c.image.None?
    ensures Ledger(c, start)
  {
    var drv := c.drv;
    ghost var dockerLog := drv.docker.calls;
    ghost var cacheLog := if drv.imgCache != null then drv.imgCache.calls else [];
    needsPull, err := c.ValidateImage();
    if drv.docker.calls != dockerLog {
      AccountsStep(start.docker, dockerLog, LastCall(drv.docker.calls), None, None);
    }
    if drv.imgCache != null && drv.imgCache.calls != cacheLog {
      AccountsStep(start.cache, cacheLog, LastCall(drv.imgCache.calls), None, HeldCache(c.image));
    }
  }

  /** Creates the container from the validated image and runs it; the
      container stays claimed until Close. */
  method Launch(c: Cookie, ghost start: Logs) returns (err: Option<Error>)
    requires c.Valid() && c.image.Some?
    requires Ledger(c, start)
    modifies c, c.drv.docker
    ensures c.Valid()
    ensures c.poolId == old(c.poolId) && c.netId == old(c.netId) && c.image == old(c.image)
    ensures Ledger(c, start)
  {
    var drv := c.drv;
    ghost var dockerLog := drv.docker.calls;
    ghost var held := HeldContainer(c.containerCreated, c.task.id);
    err := c.CreateContainer();
    if drv.docker.calls != dockerLog {
      AccountsStep(start.docker, dockerLog, LastCall(drv.docker.calls), held, HeldContainer(c.containerCreated, c.task.id));
    }
    if err.None? {
      var result;
      dockerLog := drv.docker.calls;
      result, err := c.Run();
      AccountsStep(start.docker, dockerLog, LastCall(drv.docker.calls), HeldContainer(c.containerCreated, c.task.id), HeldContainer(c.containerCreated, c.task.id));
    }
  }

  /** Close settles the ledger: once it returns, the calls made since
      `start` released every claim they took. */
  method Finish(c: Cookie, ghost start: Logs) returns (err: Option<Error>)
    requires c.Valid()
    requires Ledger(c, start)
    modifies c.drv.docker, c.drv.pool, c.drv.network, c.drv.imgCache
    ensures Settled(start.docker, c.drv.docker.calls)
    ensures c.drv.pool != null ==> Settled(start.pool, c.drv.pool.calls)
    ensures Settled(start.network, c.drv.network.calls)
    ensures c.drv.imgCache != null ==> Settled(start.cache, c.drv.imgCache.calls)
  {
    var drv := c.drv;
    ghost var before := LogsOf(drv);
    err := c.Close();
    SettleBy(start.docker, before.docker, HeldContainer(c.containerCreated, c.task.id),
             if c.containerCreated then [Removed(c.task.id, true, true, err)] else []);
    if drv.pool != null {
      SettleBy(start.pool, before.pool, HeldPool(c.poolId),
               if c.poolId != "" then [PoolFreed(c.poolId)] else []);
    }
    SettleBy(start.network, before.network, HeldNetwork(c.netId),
             if c.netId != "" then [NetworkFreed(c.netId)] else []);
    if drv.imgCache != null {
      SettleBy(start.cache, before.cache, HeldCache(c.image),
               if c.image.Some? then [MarkedFree(c.image.value)] else []);
    }
  }

  /** A task's whole run as the driver performs it: prepare, create and run
      when an image was validated, and always close. Whatever step fails,
      every collaborator ends settled: each container created is removed,
      and each pool grant, network grant and cache claim taken is given back
      once. */
  method RunToClose(c: Cookie) returns (err: Option<Error>, closeErr: Option<Error>)
    requires c.Valid()
    requires c.poolId == "" && c.netId == "" && c.image.None? && !c.containerCreated
    modifies c, c.drv.docker, c.drv.pool, c.drv.network, c.drv.imgCache, c.drv.imgPuller, c.auther
    ensures Settled(old(c.drv.docker.calls), c.drv.docker.calls)
    ensures c.drv.pool != null ==> Settled(old(c.drv.pool.calls), c.drv.pool.calls)
    ensures Settled(old(c.drv.network.calls), c.drv.network.calls)
    ensures c.drv.imgCache != null ==> Settled(old(c.drv.imgCache.calls), c.drv.imgCache.calls)
  {
    ghost var start := LogsOf(c.drv);
    err := Prepare(c);
    if err.None? && c.image.Some? {
      err := Launch(c, start);
    }
    closeErr := Finish(c, start);
  }

  /** Network first, hostname second, as the driver configures them: the
      hostname is set exactly when the cookie ended up without a network
      mode, and a network mode other than "none" always names the grant
      taken for it. */
  method ConfigureNetworking(c: Cookie)
    requires c.Valid()
    requires c.poolId == "" && c.netId == "" && c.hostOpts.networkMode == ""
    modifies c, c.drv.pool, c.drv.network
    ensures c.Valid()
    ensures c.hostOpts.networkMode == "" ==> c.opts == old(c.opts).(hostname := c.drv.hostname)
    ensures c.hostOpts.networkMode != "" ==> c.opts == old(c.opts)
    ensures c.task.disableNet ==> c.hostOpts.networkMode == "none" && c.poolId == "" && c.netId == ""
    ensures !c.task.disableNet ==>
      && (c.hostOpts.networkMode == "" <==> c.poolId == "" && c.netId == "")
      && (c.poolId != "" ==> c.hostOpts.networkMode == PoolNetworkMode(c.poolId))
      && (c.netId != "" ==> c.hostOpts.networkMode == c.netId)
  {
    c.ConfigureNetwork();
    c.ConfigureHostname();
  }

  /** A create is never retried: the second CreateContainer makes no call
      and succeeds, even when the first failed, and Close then removes the
      container under the task's name whatever the create answered. */
  method CreateTwiceThenClose(c: Cookie) returns (first: Option<Error>, second: Option<Error>, closeErr: Option<Error>)
    requires c.Valid() && c.image.Some? && !c.containerCreated
    modifies c, c.drv.docker, c.drv.pool, c.drv.network, c.drv.imgCache
    ensures second == None
    ensures |c.drv.docker.calls| == |old(c.drv.docker.calls)| + 2
    ensures c.drv.docker.calls[..|old(c.drv.docker.calls)|] == old(c.drv.docker.calls)
    ensures var created := c.drv.docker.calls[|old(c.drv.docker.calls)|];
      && created.Created? && created.name == c.task.id
      && (first.None? <==> created.err.None?)
    ensures c.drv.docker.calls[|old(c.drv.docker.calls)| + 1] == Removed(c.task.id, true, true, closeErr)
  {
    first := c.CreateContainer();
    second := c.CreateContainer();
    closeErr := c.Close();
  }
}
