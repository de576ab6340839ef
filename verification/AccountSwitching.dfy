/**
 Account switching as an interleaved step system. Each stretch of code between two awaits is
 one step, and what the database does for an awaited call is a step of its own; the setters of
 one stretch take effect together. Displayed data are represented by the account they belong to.
 */
module AccountSwitching {
  import opened Wrappers
  import Cache = SnapshotCache

  const CACHE_LIMIT: int := 3

  type Id = int

  /**
   For each displayed field the account whose data it shows; None while it is cleared. The
   history, of no account while cleared, can be merged from the rows of one account and the ordinals of another.
   */
  datatype Fields = Fields(
    balance: Option<Id>, ordBalance: Option<Id>, txHistory: set<Id>, ordinals: Option<Id>, utxos: Option<Id>)

  const CLEARED := Fields(None, None, {}, None, None)

  function AllOf(account: Id): Fields {
    Fields(Some(account), Some(account), {account}, Some(account), Some(account))
  }

  // One account switch, by the await it is suspended at. The two database updates have been
  // carried out or not when they are waited for; the refresh inside the password fallback has
  // read the active row or not; `again` marks the second attempt of a preload.
  datatype Body =
    | Deriving(target: Id)
    | UpdatingDb(target: Id, written: bool)
    | Unlocking(target: Id)
    | FallbackDb(target: Id, written: bool)
    | FallbackRefresh(target: Id, read: Option<Id>)
    | StoringKeys(target: Id)
    | Preloading(target: Id, version: nat, again: bool)
    | Pausing(target: Id, version: nat)
    | Preloaded(target: Id)

  // The stages of a fetch from database and network, by the data it waits for; DbOnly is the
  // fetch that reads the database alone.
  datatype Stage = DbOnly | Balance | OrdBalance | History | DbOrdinals | CachedContent | ApiOrdinals | Utxos

  // A fetch in flight: the account id and the version of the moment it was started, and the
  // wallet of the callback it was started through, which can be that of an earlier moment.
  datatype Load = Load(stage: Stage, owner: Id, wallet: Id, version: nat)

  // `native` is the account whose keys the key store holds. A refresh of the account list is
  // represented by the active row it has read, None before that.
  datatype State = State(
    accounts: set<Id>,
    active: Id, dbActive: Id, wallet: Id, native: Id,
    display: Fields, scoped: Option<Id>, cache: seq<(Id, Fields)>,
    version: nat, switching: bool, pending: Option<Id>,
    bodies: seq<Body>, loads: seq<Load>, refreshes: seq<Option<Id>>,
    // history: whose data were put on display last, requests made, bodies run, the last
    // account asked for, whether a switch failed
    shown: Id, requests: nat, started: nat, last: Option<Id>, failed: bool)

  // Which of the database reads came back; ordinals fall back to an empty list and the
  // ordinal balance to zero, so these two are always written.
  datatype Reads = Reads(balance: bool, txHistory: bool, utxos: bool)

  datatype Outcome =
    | Done                      // the awaited call succeeded
    | NoKeys(password: bool, derived: bool)  // derivation gave no answer; is there a session
                                             // password, and did the key store switch after all?
    | Refused                   // the awaited call failed
    | Loaded(got: Reads)
    | Fetched(write: bool, history: bool)  // a value arrived; is it written, does it add history?
    | Thrown
    | Retried                   // the database load failed for the first time and starts over

  datatype Event =
    | Request(target: Id)
    | ResumeBody(i: nat, outcome: Outcome)
    | DbStep(i: nat)
    | StartLoad(dbOnly: bool, captured: Id)
    | ResumeLoad(i: nat, outcome: Outcome)
    | SnapshotEffect
    | StartRefresh
    | RefreshRead(i: nat)
    | RefreshResumed(i: nat, found: bool)

  // ---------- Steps ----------

  // The data of `owner` as far as they were read, over what was there before.
  function Overwrite(old_: Fields, owner: Id, got: Reads): Fields {
    Fields(if got.balance then Some(owner) else old_.balance,
           Some(owner),
           if got.txHistory then {owner} else old_.txHistory,
           Some(owner),
           if got.utxos then Some(owner) else old_.utxos)
  }

  // The entry of a switch that finds the mutex free.
  function Enter(s: State, target: Id): State {
    if target !in s.accounts then s.(started := s.started + 1, failed := true)
    else s.(switching := true, version := s.version + 1,
            bodies := s.bodies + [Deriving(target)], started := s.started + 1)
  }

  function Requested(s: State, target: Id): State {
    var s1 := s.(requests := s.requests + 1, last := Some(target));
    if s.switching then s1.(pending := Some(target)) else Enter(s1, target)
  }

  function Removed<T>(xs: seq<T>, i: nat): seq<T>
    requires i < |xs|
  {
    xs[..i] + xs[i + 1..]
  }

  // The end of a switch: free the mutex and start the queued request, if it is for another account.
  function Finished(s: State, i: nat): State
    requires i < |s.bodies|
  {
    var s1 := s.(switching := false, pending := None, bodies := Removed(s.bodies, i));
    if s.pending.Some? && s.pending.value != s.bodies[i].target then Enter(s1, s.pending.value) else s1
  }

  function Failed(s: State, i: nat): State
    requires i < |s.bodies|
  {
    Finished(s.(failed := true), i)
  }

  // The successful end: the account becomes the active one, and the account list is refreshed
  // in the background.
  function Activated(s: State, i: nat): State
    requires i < |s.bodies|
  {
    Finished(s.(active := s.bodies[i].target, refreshes := s.refreshes + [None]), i)
  }

  // The state in which a cached account is put on display and refreshed in the background.
  function Hydrated(s: State, t: Id, snapshot: Fields): State {
    s.(wallet := t, display := snapshot, scoped := Some(t), shown := t, cache := Cache.AfterGet(s.cache, t),
       loads := s.loads + [Load(DbOnly, t, t, s.version)])
  }

  // Keys and database row are in place: show the snapshot of a recently used account, or
  // preload a cold one first.
  function Committed(s: State, i: nat): State
    requires i < |s.bodies|
  {
    var t := s.bodies[i].target;
    match Cache.Lookup(s.cache, t)
    case Some(snapshot) => Activated(Hydrated(s, t, snapshot), i)
    case None => s.(wallet := t, bodies := s.bodies[i := Preloading(t, s.version, false)])
  }

  function Derived(s: State, i: nat, outcome: Outcome): State
    requires i < |s.bodies|
  {
    var t := s.bodies[i].target;
    match outcome
    case Done => s.(native := t, bodies := s.bodies[i := UpdatingDb(t, false)])
    case NoKeys(password, derived) =>
      var s1 := if derived then s.(native := t) else s;
      if password then s1.(bodies := s.bodies[i := Unlocking(t)]) else Failed(s1, i)
    case _ => s
  }

  // A preload is tried twice; what a failed attempt leaves is cleared after the second.
  function PreloadResumed(s: State, i: nat, outcome: Outcome): State
    requires i < |s.bodies| && s.bodies[i].Preloading?
  {
    var Preloading(t, version, again) := s.bodies[i];
    if outcome.Loaded? then
      var s1 := s.(bodies := s.bodies[i := Preloaded(t)]);
      if version != s.version then s1
      else s1.(display := Overwrite(s.display, t, outcome.got), scoped := Some(t), shown := t)
    else if !again then s.(bodies := s.bodies[i := Pausing(t, version)])
    else s.(display := CLEARED, scoped := None, shown := t, bodies := s.bodies[i := Preloaded(t)])
  }

  // A switch resumes with the outcome of what it waits for; an outcome that cannot be one of
  // its await, such as the success of an update not carried out yet, leaves it waiting.
  function BodyResumed(s: State, i: nat, outcome: Outcome): State
    requires i < |s.bodies|
  {
    var t := s.bodies[i].target;
    match s.bodies[i]
    case Deriving(_) => Derived(s, i, outcome)
    case UpdatingDb(_, written) =>
      if outcome.Refused? && !written then Failed(s, i)
      else if outcome.Done? && written then Committed(s, i) else s
    case Unlocking(_) =>
      if outcome.Refused? then Failed(s, i)
      else if outcome.Done? then s.(bodies := s.bodies[i := FallbackDb(t, false)]) else s
    case FallbackDb(_, written) =>
      if outcome.Refused? && !written then Failed(s, i)
      else if outcome.Done? && written then s.(active := t, bodies := s.bodies[i := FallbackRefresh(t, None)]) else s
    case FallbackRefresh(_, read) =>
      if outcome.Refused? then s.(bodies := s.bodies[i := StoringKeys(t)])
      else if outcome.Done? && read.Some? then s.(active := read.value, bodies := s.bodies[i := StoringKeys(t)]) else s
    case StoringKeys(_) =>
      if outcome.Refused? then Committed(s, i)
      else if outcome.Done? then Committed(s.(native := t), i) else s
    case Preloading(_, _, _) => PreloadResumed(s, i, outcome)
    case Pausing(_, version) => s.(bodies := s.bodies[i := Preloading(t, version, true)])
    case Preloaded(_) => Activated(s, i)
  }

  // The database carries out what a switch has asked of it.
  function DbDone(s: State, i: nat): State
    requires i < |s.bodies|
  {
    match s.bodies[i]
    case UpdatingDb(t, _) => s.(dbActive := t, bodies := s.bodies[i := UpdatingDb(t, true)])
    case FallbackDb(t, _) => s.(dbActive := t, bodies := s.bodies[i := FallbackDb(t, true)])
    case FallbackRefresh(t, None) => s.(bodies := s.bodies[i := FallbackRefresh(t, Some(s.dbActive))])
    case _ => s
  }

  function RefreshReads(s: State, i: nat): State
    requires i < |s.refreshes|
  {
    if s.refreshes[i].None? then s.(refreshes := s.refreshes[i := Some(s.dbActive)]) else s
  }

  // What was read becomes the active account, without a guard; a refresh that finds nothing or
  // fails leaves it alone.
  function RefreshEnds(s: State, i: nat, found: bool): State
    requires i < |s.refreshes|
  {
    if !found then s.(refreshes := Removed(s.refreshes, i))
    else if s.refreshes[i].Some? then s.(active := s.refreshes[i].value, refreshes := Removed(s.refreshes, i))
    else s
  }

  function LoadStarted(s: State, dbOnly: bool, captured: Id): State {
    s.(loads := s.loads + [Load(if dbOnly then DbOnly else Balance, s.active, captured, s.version)])
  }

  // Where a fetch goes on; None at its end. A failed ordinal balance is passed over, a failure
  // among the ordinals still lets the UTXOs be fetched, and any other failure ends the fetch.
  function NextStage(stage: Stage, outcome: Outcome): Option<Stage> {
    match stage
    case DbOnly => if outcome.Retried? then Some(DbOnly) else None
    case Balance => if outcome.Thrown? then None else Some(OrdBalance)
    case OrdBalance => Some(History)
    case History => if outcome.Thrown? then None else Some(DbOrdinals)
    case DbOrdinals => Some(if outcome.Thrown? then Utxos else CachedContent)
    case CachedContent => Some(if outcome.Thrown? then Utxos else ApiOrdinals)
    case ApiOrdinals => Some(Utxos)
    case Utxos => None
  }

  // What a stage writes: database rows are the owner's, network data those of the wallet. A
  // history that the ordinals add to is made of the owner's rows and the ordinals shown.
  function Written(f: Fields, l: Load, outcome: Outcome): Fields {
    if outcome.Thrown? then f
    else
      var writes := outcome.Fetched? && outcome.write;
      match l.stage
      case DbOnly => if outcome.Loaded? then Overwrite(f, l.owner, outcome.got) else f
      case Balance => if writes then f.(balance := Some(l.owner)) else f
      case OrdBalance => if writes then f.(ordBalance := Some(l.wallet)) else f
      case History => f.(txHistory := {l.owner})
      case DbOrdinals => if writes then f.(ordinals := Some(l.owner)) else f
      case CachedContent => f
      case ApiOrdinals =>
        var source := if writes then l.wallet else l.owner;
        f.(ordinals := Some(source),
           txHistory := if outcome.Fetched? && outcome.history then {l.owner, source} else f.txHistory)
      case Utxos => f.(utxos := Some(l.wallet))
  }

  // The stages after which the display is said to belong to the owner.
  predicate Scopes(l: Load, outcome: Outcome) {
    (l.stage.DbOnly? && outcome.Loaded?) || (l.stage.History? && !outcome.Thrown?)
  }

  // Every stage is guarded: a fetch whose version is stale ends without writing.
  function LoadResumed(s: State, i: nat, outcome: Outcome): State
    requires i < |s.loads|
  {
    var l := s.loads[i];
    if l.version != s.version then s.(loads := Removed(s.loads, i))
    else
      var s1 := s.(display := Written(s.display, l, outcome),
                   scoped := if Scopes(l, outcome) then Some(l.owner) else s.scoped);
      match NextStage(l.stage, outcome)
      case None => s1.(loads := Removed(s.loads, i))
      case Some(stage) => s1.(loads := s.loads[i := l.(stage := stage)])
  }

  function SnapshotTaken(s: State): State {
    if s.scoped == Some(s.active) then
      s.(cache := Cache.AfterSet(s.cache, s.active, s.display, CACHE_LIMIT))
    else s
  }

  // A step that names no suspended code does nothing.
  function Step(s: State, e: Event): State {
    match e
    case Request(target) => Requested(s, target)
    case ResumeBody(i, outcome) => if i < |s.bodies| then BodyResumed(s, i, outcome) else s
    case StartLoad(dbOnly, captured) => LoadStarted(s, dbOnly, captured)
    case ResumeLoad(i, outcome) => if i < |s.loads| then LoadResumed(s, i, outcome) else s
    case SnapshotEffect => SnapshotTaken(s)
    case DbStep(i) => if i < |s.bodies| then DbDone(s, i) else s
    case StartRefresh => s.(refreshes := s.refreshes + [None])
    case RefreshRead(i) => if i < |s.refreshes| then RefreshReads(s, i) else s
    case RefreshResumed(i, found) => if i < |s.refreshes| then RefreshEnds(s, i, found) else s
  }

  function Run(s: State, es: seq<Event>): State
    decreases es
  {
    if es == [] then s else Run(Step(s, es[0]), es[1..])
  }

  // ---------- The hooks and contexts that take these steps ----------

  class WalletUi {
    const accounts: set<Id>
    var activeAccountId: Id
    var dbActive: Id
    var wallet: Id
    var native: Id
    var display: Fields
    var scopedDataAccountId: Option<Id>
    var snapshotCache: seq<(Id, Fields)>
    var fetchVersion: nat
    var switchingRef: bool
    var pendingSwitch: Option<Id>
    var bodies: seq<Body>
    var loads: seq<Load>
    var refreshes: seq<Option<Id>>
    var shown: Id
    var requests: nat
    var started: nat
    var last: Option<Id>
    var failed: bool

    function Now(): State
      reads this
    {
      State(accounts, activeAccountId, dbActive, wallet, native, display, scopedDataAccountId, snapshotCache,
            fetchVersion, switchingRef, pendingSwitch, bodies, loads, refreshes, shown, requests, started, last, failed)
    }

    // The first load of `account` is done and nothing is running.
    constructor (accounts: set<Id>, account: Id)
      ensures Now() == State(accounts, account, account, account, account, AllOf(account), Some(account), [],
                             0, false, None, [], [], [], account, 0, 0, None, false)
      ensures Consistent(Now()) && FullyLoaded(Now()) && Quiet(Now()) && Settled(Now())
    {
      this.accounts := accounts;
      activeAccountId, dbActive, wallet, native, shown := account, account, account, account, account;
      display, scopedDataAccountId := AllOf(account), Some(account);
      snapshotCache, fetchVersion, switchingRef, pendingSwitch := [], 0, false, None;
      bodies, loads, refreshes, requests, started, last, failed := [], [], [], 0, 0, None, false;
    }

    method SwitchAccount(target: Id)
      modifies this
      ensures Now() == Requested(old(Now()), target)
    {
      requests, last := requests + 1, Some(target);
      if switchingRef {
        pendingSwitch := Some(target);
        return;
      }
      BeginSwitch(target);
    }

    method BeginSwitch(target: Id)
      modifies this
      ensures Now() == Enter(old(Now()), target)
    {
      started := started + 1;
      if target !in accounts {
        failed := true;
        return;
      }
      switchingRef := true;
      fetchVersion := fetchVersion + 1;
      bodies := bodies + [Deriving(target)];
    }

    method EndSwitch(i: nat)
      requires i < |bodies|
      modifies this
      ensures Now() == Finished(old(Now()), i)
    {
      var target := bodies[i].target;
      switchingRef, bodies := false, Removed(bodies, i);
      var next := pendingSwitch;
      pendingSwitch := None;
      if next.Some? && next.value != target {
        BeginSwitch(next.value);
      }
    }

    method Fail(i: nat)
      requires i < |bodies|
      modifies this
      ensures Now() == Failed(old(Now()), i)
    {
      failed := true;
      EndSwitch(i);
    }

    method Activate(i: nat)
      requires i < |bodies|
      modifies this
      ensures Now() == Activated(old(Now()), i)
    {
      activeAccountId := bodies[i].target;
      RefreshAccounts();
      EndSwitch(i);
    }

    method Commit(i: nat)
      requires i < |bodies|
      modifies this
      ensures Now() == Committed(old(Now()), i)
    {
      var target := bodies[i].target;
      wallet := target;
      var snapshot := Cache.Lookup(snapshotCache, target);
      if snapshot.Some? {
        snapshotCache := Cache.AfterGet(snapshotCache, target);
        display, scopedDataAccountId, shown := snapshot.value, Some(target), target;
        loads := loads + [Load(DbOnly, target, target, fetchVersion)];
        assert Now() == Hydrated(old(Now()), target, snapshot.value);
        Activate(i);
      } else {
        bodies := bodies[i := Preloading(target, fetchVersion, false)];
      }
    }

    method ContinueDerivation(i: nat, outcome: Outcome)
      requires i < |bodies|
      modifies this
      ensures Now() == Derived(old(Now()), i, outcome)
    {
      var target := bodies[i].target;
      match outcome {
        case Done =>
          native := target;
          bodies := bodies[i := UpdatingDb(target, false)];
        case NoKeys(password, derived) =>
          if derived {
            native := target;
          }
          if password {
            bodies := bodies[i := Unlocking(target)];
          } else {
            Fail(i);
          }
        case _ =>
      }
    }

    method ContinuePreload(i: nat, outcome: Outcome)
      requires i < |bodies| && bodies[i].Preloading?
      modifies this
      ensures Now() == PreloadResumed(old(Now()), i, outcome)
    {
      var Preloading(target, version, again) := bodies[i];
      if outcome.Loaded? {
        if version == fetchVersion {
          display, scopedDataAccountId, shown := Overwrite(display, target, outcome.got), Some(target), target;
        }
        bodies := bodies[i := Preloaded(target)];
      } else if again {
        display, scopedDataAccountId, shown := CLEARED, None, target;
        bodies := bodies[i := Preloaded(target)];
      } else {
        bodies := bodies[i := Pausing(target, version)];
      }
    }

    method ContinueSwitch(i: nat, outcome: Outcome)
      requires i < |bodies|
      modifies this
      ensures Now() == BodyResumed(old(Now()), i, outcome)
    {
      var target := bodies[i].target;
      match bodies[i]
      case Deriving(_) => ContinueDerivation(i, outcome);
      case UpdatingDb(_, written) =>
        if outcome.Refused? && !written {
          Fail(i);
        } else if outcome.Done? && written {
          Commit(i);
        }
      case Unlocking(_) =>
        if outcome.Refused? {
          Fail(i);
        } else if outcome.Done? {
          bodies := bodies[i := FallbackDb(target, false)];
        }
      case FallbackDb(_, written) =>
        if outcome.Refused? && !written {
          Fail(i);
        } else if outcome.Done? && written {
          activeAccountId := target;
          bodies := bodies[i := FallbackRefresh(target, None)];
        }
      case FallbackRefresh(_, read) =>
        if outcome.Done? && read.Some? {
          activeAccountId := read.value;
          bodies := bodies[i := StoringKeys(target)];
        } else if outcome.Refused? {
          bodies := bodies[i := StoringKeys(target)];
        }
      case StoringKeys(_) =>
        if outcome.Done? {
          native := target;
          Commit(i);
        } else if outcome.Refused? {
          Commit(i);
        }
      case Preloading(_, _, _) => ContinuePreload(i, outcome);
      case Pausing(_, version) => bodies := bodies[i := Preloading(target, version, true)];
      case Preloaded(_) => Activate(i);
    }

    method RefreshAccounts()
      modifies this`refreshes
      ensures Now() == Step(old(Now()), StartRefresh)
    {
      refreshes := refreshes + [None];
    }

    method ContinueRefresh(i: nat, found: bool)
      requires i < |refreshes|
      modifies this
      ensures Now() == RefreshEnds(old(Now()), i, found)
    {
      if found && refreshes[i].Some? {
        activeAccountId := refreshes[i].value;
        refreshes := Removed(refreshes, i);
      } else if !found {
        refreshes := Removed(refreshes, i);
      }
    }

    // `captured` is the wallet of the render that made the callback.
    method StartFetch(dbOnly: bool, captured: Id)
      modifies this
      ensures Now() == LoadStarted(old(Now()), dbOnly, captured)
    {
      loads := loads + [Load(if dbOnly then DbOnly else Balance, activeAccountId, captured, fetchVersion)];
    }

    method ContinueFetch(i: nat, outcome: Outcome)
      requires i < |loads|
      modifies this
      ensures Now() == LoadResumed(old(Now()), i, outcome)
    {
      var load := loads[i];
      if load.version != fetchVersion {
        loads := Removed(loads, i);
        return;
      }
      display := Written(display, load, outcome);
      if Scopes(load, outcome) {
        scopedDataAccountId := Some(load.owner);
      }
      var next := NextStage(load.stage, outcome);
      loads := if next.None? then Removed(loads, i) else loads[i := load.(stage := next.value)];
    }

    method RunSnapshotEffect()
      modifies this
      ensures Now() == SnapshotTaken(old(Now()))
    {
      if scopedDataAccountId == Some(activeAccountId) {
        snapshotCache := Cache.AfterSet(snapshotCache, activeAccountId, display, CACHE_LIMIT);
      }
    }
  }

  // ---------- The invariant ----------

  predicate Shows(field: Option<Id>, account: Id) {
    field == None || field == Some(account)
  }

  predicate BelongTo(f: Fields, account: Id) {
    && Shows(f.balance, account) && Shows(f.ordBalance, account) && f.txHistory <= {account}
    && Shows(f.ordinals, account) && Shows(f.utxos, account)
  }

  // Before the database is updated everything is still the old account's; afterwards the
  // switch cannot fail any more.
  predicate BodyInvariant(s: State, b: Body) {
    match b
    case Deriving(_) => s.wallet == s.dbActive == s.shown
    case UpdatingDb(t, written) => s.wallet == s.shown && s.dbActive == if written then t else s.wallet
    case Unlocking(_) => s.wallet == s.dbActive == s.shown
    case FallbackDb(t, written) => s.wallet == s.shown && s.dbActive == if written then t else s.wallet
    case FallbackRefresh(t, read) => s.wallet == s.shown && s.dbActive == t && Shows(read, t)
    case StoringKeys(t) => s.wallet == s.shown && s.dbActive == t
    case Preloading(t, version, _) => s.wallet == s.dbActive == t && version == s.version
    case Pausing(t, version) => s.wallet == s.dbActive == t && version == s.version
    case Preloaded(t) => s.wallet == s.dbActive == s.shown == t
  }

  // At most one switch body exists, and only while the mutex is held.
  predicate Exclusive(s: State) {
    && |s.bodies| == (if s.switching then 1 else 0)
    && (s.pending.Some? ==> s.switching)
  }

  // A fetch that can still write writes data of this account only; the wallet of a fetch that
  // reads the database alone does not matter.
  predicate WritesFor(l: Load, account: Id) {
    l.owner == account && (l.stage.DbOnly? || l.wallet == account)
  }

  // A fetch that can still write is for the account on display, with its wallet, and a switch
  // that is running is to that account.
  predicate LoadInvariant(s: State, l: Load)
    requires Exclusive(s)
  {
    && l.version <= s.version
    && (l.version == s.version ==> WritesFor(l, s.shown) && (s.switching ==> s.bodies[0].target == s.shown))
  }

  ghost predicate CacheInvariant(cache: seq<(Id, Fields)>) {
    forall i :: 0 <= i < |cache| ==> BelongTo(cache[i].1, cache[i].0)
  }

  // Display, wallet, database and active account agree whenever no switch is running. While
  // one is running, the active account may be any.
  ghost predicate Consistent(s: State) {
    && Exclusive(s)
    && BelongTo(s.display, s.shown) && Shows(s.scoped, s.shown)
    && (if s.switching then BodyInvariant(s, s.bodies[0]) else s.wallet == s.dbActive == s.active == s.shown)
    && (forall i :: 0 <= i < |s.loads| ==> LoadInvariant(s, s.loads[i]))
    && CacheInvariant(s.cache)
  }

  // The outcomes with which a switch fails; all of them before the database is updated.
  predicate Fails(b: Body, outcome: Outcome) {
    match b
    case Deriving(_) => outcome.NoKeys? && !outcome.password
    case UpdatingDb(_, written) => outcome.Refused? && !written
    case Unlocking(_) => outcome.Refused?
    case FallbackDb(_, written) => outcome.Refused? && !written
    case _ => false
  }

  // The end of the switch that is running enters another one.
  predicate Queued(s: State)
    requires s.bodies != []
  {
    s.pending.Some? && s.pending.value != s.bodies[0].target && s.pending.value in s.accounts
  }

  // A refresh that ends while no switch is running has read the row of the active account.
  predicate RefreshFits(s: State, e: Event) {
    e.RefreshResumed? && e.found && e.i < |s.refreshes| && s.refreshes[e.i].Some? && !s.switching ==>
      s.refreshes[e.i].value == s.active
  }

  // A fetch that also asks the network is started with the wallet of the active account, and one
  // started while a switch is running is for its target, with the target's data in place.
  predicate StartFits(s: State, dbOnly: bool, captured: Id) {
    && (dbOnly || captured == s.active)
    && (s.switching && s.bodies != [] ==> s.active == s.shown == s.bodies[0].target)
  }

  // Database reads come back. Fetches are started with the right wallet, and refreshes fit. A
  // switch fails only while the active account is still the one whose wallet is set, or with
  // another switch queued.
  predicate Allowed(s: State, e: Event) {
    && (e.StartLoad? ==> StartFits(s, e.dbOnly, e.captured))
    && ((e.ResumeBody? || e.ResumeLoad?) && e.outcome.Loaded? ==> e.outcome.got == Reads(true, true, true))
    && RefreshFits(s, e)
    && (e.ResumeBody? && e.i < |s.bodies| && Fails(s.bodies[e.i], e.outcome) ==> s.active == s.wallet || Queued(s))
  }

  predicate AllowedRun(s: State, es: seq<Event>)
    decreases es
  {
    es == [] || (Allowed(s, es[0]) && AllowedRun(Step(s, es[0]), es[1..]))
  }

  lemma WithoutKeepsInvariant(cache: seq<(Id, Fields)>, id: Id)
    requires CacheInvariant(cache)
    ensures CacheInvariant(Cache.Without(cache, id))
  {
  }

  lemma LookupBelongs(cache: seq<(Id, Fields)>, id: Id)
    requires CacheInvariant(cache) && Cache.Lookup(cache, id).Some?
    ensures BelongTo(Cache.Lookup(cache, id).value, id)
  {
  }

  lemma GetKeepsInvariant(cache: seq<(Id, Fields)>, id: Id)
    requires CacheInvariant(cache)
    ensures CacheInvariant(Cache.AfterGet(cache, id))
  {
  }

  lemma SetKeepsInvariant(cache: seq<(Id, Fields)>, id: Id, f: Fields)
    requires CacheInvariant(cache) && BelongTo(f, id)
    ensures CacheInvariant(Cache.AfterSet(cache, id, f, CACHE_LIMIT))
  {
    WithoutKeepsInvariant(cache, id);
  }

  // A switch ends well wherever display, wallet and database agree, if the active account
  // agrees with them or another switch follows at once; and only there.
  lemma FinishKeepsConsistentIff(s: State)
    requires s.switching && Exclusive(s) && CacheInvariant(s.cache)
    requires BelongTo(s.display, s.shown) && Shows(s.scoped, s.shown) && s.wallet == s.dbActive == s.shown
    requires forall i :: 0 <= i < |s.loads| ==> FreshFor(s, s.loads[i])
    ensures Consistent(Finished(s, 0)) <==> s.active == s.wallet || Queued(s)
  {
  }

  predicate FreshFor(s: State, l: Load) {
    l.version <= s.version && (l.version == s.version ==> WritesFor(l, s.shown))
  }

  // Whatever the active account is by then.
  lemma ActivationKeepsConsistent(s: State)
    requires s.switching && Exclusive(s) && CacheInvariant(s.cache)
    requires BelongTo(s.display, s.shown) && Shows(s.scoped, s.shown)
    requires s.wallet == s.dbActive == s.shown == s.bodies[0].target
    requires forall i :: 0 <= i < |s.loads| ==> FreshFor(s, s.loads[i])
    ensures Consistent(Activated(s, 0))
  {
  }

  lemma CommitKeepsConsistent(s: State)
    requires s.switching && Exclusive(s) && CacheInvariant(s.cache)
    requires BelongTo(s.display, s.shown) && Shows(s.scoped, s.shown)
    requires s.wallet == s.shown && s.dbActive == s.bodies[0].target
    requires forall i :: 0 <= i < |s.loads| ==> LoadInvariant(s, s.loads[i])
    ensures Consistent(Committed(s, 0))
  {
    var t := s.bodies[0].target;
    match Cache.Lookup(s.cache, t)
    case Some(snapshot) =>
      LookupBelongs(s.cache, t);
      GetKeepsInvariant(s.cache, t);
      var s1 := Hydrated(s, t, snapshot);
      forall i | 0 <= i < |s1.loads| ensures FreshFor(s1, s1.loads[i]) {
        if i < |s.loads| {
          assert LoadInvariant(s, s.loads[i]);
        }
      }
      ActivationKeepsConsistent(s1);
    case None =>
      LoadsStay(s, Committed(s, 0));
  }

  // The invariant of fetches depends on version, shown account and target alone.
  lemma LoadsStay(s: State, s1: State)
    requires Exclusive(s) && Exclusive(s1) && s.loads == s1.loads && s.version == s1.version
    requires s.switching && s1.switching && s.bodies[0].target == s1.bodies[0].target
    requires s.shown == s1.shown || s1.shown == s1.bodies[0].target
    requires forall i :: 0 <= i < |s.loads| ==> LoadInvariant(s, s.loads[i])
    ensures forall i :: 0 <= i < |s1.loads| ==> LoadInvariant(s1, s1.loads[i])
  {
  }

  // A failure keeps everything consistent exactly when the active account has stayed, or when
  // another switch is queued.
  lemma FailureKeepsConsistentIff(s: State, outcome: Outcome)
    requires Consistent(s) && s.switching && Fails(s.bodies[0], outcome)
    ensures Consistent(BodyResumed(s, 0, outcome)) <==> s.active == s.wallet || Queued(s)
  {
    var s1 := s.(failed := true, native := BodyResumed(s, 0, outcome).native);
    forall i | 0 <= i < |s1.loads| ensures FreshFor(s1, s1.loads[i]) {
      assert LoadInvariant(s, s.loads[i]);
    }
    FinishKeepsConsistentIff(s1);
    assert BodyResumed(s, 0, outcome) == Finished(s1, 0);
  }

  lemma BodyKeepsConsistent(s: State, outcome: Outcome)
    requires Consistent(s) && s.switching && Allowed(s, ResumeBody(0, outcome))
    ensures Consistent(BodyResumed(s, 0, outcome))
  {
    var t := s.bodies[0].target;
    if Fails(s.bodies[0], outcome) {
      FailureKeepsConsistentIff(s, outcome);
    } else if s.bodies[0].UpdatingDb? && outcome.Done? && s.bodies[0].written {
      CommitKeepsConsistent(s);
    } else if s.bodies[0].StoringKeys? {
      CommitKeepsConsistent(s);
      LoadsStay(s, s.(native := t));
      CommitKeepsConsistent(s.(native := t));
    } else if s.bodies[0].Preloaded? {
      forall i | 0 <= i < |s.loads| ensures FreshFor(s, s.loads[i]) {
        assert LoadInvariant(s, s.loads[i]);
      }
      ActivationKeepsConsistent(s);
    } else {
      LoadsStay(s, BodyResumed(s, 0, outcome));
    }
  }

  lemma DisplayKeepsConsistent(s: State, display: Fields, scoped: Option<Id>)
    requires Consistent(s) && BelongTo(display, s.shown) && Shows(scoped, s.shown)
    ensures Consistent(s.(display := display, scoped := scoped))
  {
  }

  lemma LoadsKeepConsistent(s: State, loads: seq<Load>)
    requires Consistent(s)
    requires forall k :: 0 <= k < |loads| ==> LoadInvariant(s, loads[k])
    ensures Consistent(s.(loads := loads))
  {
  }

  lemma WrittenBelongs(f: Fields, l: Load, outcome: Outcome)
    requires BelongTo(f, l.owner) && WritesFor(l, l.owner)
    ensures BelongTo(Written(f, l, outcome), l.owner)
  {
  }

  lemma LoadKeepsConsistent(s: State, i: nat, outcome: Outcome)
    requires Consistent(s) && i < |s.loads|
    ensures Consistent(LoadResumed(s, i, outcome))
  {
    var l := s.loads[i];
    assert LoadInvariant(s, l);
    LoadsKeepConsistent(s, Removed(s.loads, i));
    if l.version == s.version {
      var display := Written(s.display, l, outcome);
      var scoped := if Scopes(l, outcome) then Some(l.owner) else s.scoped;
      WrittenBelongs(s.display, l, outcome);
      DisplayKeepsConsistent(s, display, scoped);
      var s1 := s.(display := display, scoped := scoped);
      LoadsKeepConsistent(s1, Removed(s.loads, i));
      match NextStage(l.stage, outcome)
      case None =>
      case Some(stage) =>
        LoadsKeepConsistent(s1, s.loads[i := l.(stage := stage)]);
    }
  }

  // A fetch that is started keeps everything consistent exactly if it fits: at rest, exactly
  // if it asks the database alone or was given the wallet of the active account.
  lemma StartKeepsConsistentIff(s: State, dbOnly: bool, captured: Id)
    requires Consistent(s)
    ensures Consistent(LoadStarted(s, dbOnly, captured)) <==> StartFits(s, dbOnly, captured)
    ensures !s.switching ==> (StartFits(s, dbOnly, captured) <==> dbOnly || captured == s.active)
  {
    var s1 := LoadStarted(s, dbOnly, captured);
    assert LoadInvariant(s1, s1.loads[|s.loads|]) <==> StartFits(s, dbOnly, captured);
    if StartFits(s, dbOnly, captured) {
      forall k | 0 <= k < |s1.loads| ensures LoadInvariant(s, s1.loads[k]) {
        if k < |s.loads| {
          assert LoadInvariant(s, s.loads[k]);
        }
      }
      LoadsKeepConsistent(s, s1.loads);
    }
  }

  lemma RequestKeepsConsistent(s: State, target: Id)
    requires Consistent(s)
    ensures Consistent(Requested(s, target))
  {
  }

  lemma SnapshotKeepsConsistent(s: State)
    requires Consistent(s)
    ensures Consistent(SnapshotTaken(s))
  {
    var s1 := SnapshotTaken(s);
    if s.scoped == Some(s.active) {
      SetKeepsInvariant(s.cache, s.active, s.display);
    }
    forall i | 0 <= i < |s1.loads| ensures LoadInvariant(s1, s1.loads[i]) {
      assert LoadInvariant(s, s.loads[i]);
    }
  }

  // A refresh that ends is harmless while a switch is running. While none is running it keeps
  // everything consistent exactly when the row it has read is the active account's, which is
  // to say, the one the database still calls active.
  lemma RefreshKeepsConsistentIff(s: State, i: nat)
    requires Consistent(s) && i < |s.refreshes| && s.refreshes[i].Some?
    ensures Consistent(RefreshEnds(s, i, true)) <==> s.switching || s.refreshes[i].value == s.active
    ensures !s.switching ==> (s.refreshes[i].value == s.active <==> s.refreshes[i].value == s.dbActive)
  {
  }

  lemma QuietStepKeepsConsistent(s: State, s1: State)
    requires Consistent(s)
    requires s1 == s.(refreshes := s1.refreshes)
    ensures Consistent(s1)
  {
  }

  lemma RefreshKeepsConsistent(s: State, i: nat, found: bool)
    requires Consistent(s) && i < |s.refreshes| && RefreshFits(s, RefreshResumed(i, found))
    ensures Consistent(RefreshEnds(s, i, found))
  {
  }

  lemma DbKeepsConsistent(s: State)
    requires Consistent(s) && s.switching
    ensures Consistent(DbDone(s, 0))
  {
    LoadsStay(s, DbDone(s, 0));
  }

  lemma OtherStepKeepsConsistent(s: State, e: Event)
    requires Consistent(s) && Allowed(s, e) && !e.ResumeBody? && !e.ResumeLoad?
    ensures Consistent(Step(s, e))
  {
    match e
    case Request(target) => RequestKeepsConsistent(s, target);
    case DbStep(i) => if i < |s.bodies| { DbKeepsConsistent(s); }
    case StartLoad(dbOnly, captured) => StartKeepsConsistentIff(s, dbOnly, captured);
    case SnapshotEffect => SnapshotKeepsConsistent(s);
    case StartRefresh => QuietStepKeepsConsistent(s, Step(s, e));
    case RefreshRead(i) => QuietStepKeepsConsistent(s, Step(s, e));
    case RefreshResumed(i, found) => if i < |s.refreshes| { RefreshKeepsConsistent(s, i, found); }
  }

  lemma StepKeepsConsistent(s: State, e: Event)
    requires Consistent(s) && Allowed(s, e)
    ensures Consistent(Step(s, e))
  {
    match e
    case ResumeBody(i, outcome) => if i < |s.bodies| { BodyKeepsConsistent(s, outcome); }
    case ResumeLoad(i, outcome) => if i < |s.loads| { LoadKeepsConsistent(s, i, outcome); }
    case _ => OtherStepKeepsConsistent(s, e);
  }

  lemma {:induction false} RunKeepsConsistent(s: State, es: seq<Event>)
    requires Consistent(s) && AllowedRun(s, es)
    ensures Consistent(Run(s, es))
    decreases es
  {
    if es == [] {
    } else {
      StepKeepsConsistent(s, es[0]);
      RunKeepsConsistent(Step(s, es[0]), es[1..]);
    }
  }

  // ---------- Displayed data belong to the active account ----------

  // The first load is done: nothing is cleared, on display or in the cache.
  ghost predicate FullyLoaded(s: State) {
    && s.scoped.Some? && Full(s.display)
    && forall i :: 0 <= i < |s.cache| ==> Full(s.cache[i].1)
  }

  predicate Full(f: Fields) {
    f.balance.Some? && f.ordBalance.Some? && f.txHistory != {} && f.ordinals.Some? && f.utxos.Some?
  }

  predicate PreloadsSucceed(s: State, es: seq<Event>)
    decreases es
  {
    es == [] ||
    (PreloadSucceeds(s, es[0]) && PreloadsSucceed(Step(s, es[0]), es[1..]))
  }

  // One of the two attempts of a preload comes back.
  predicate PreloadSucceeds(s: State, e: Event) {
    e.ResumeBody? && e.i < |s.bodies| && s.bodies[e.i].Preloading? && s.bodies[e.i].again ==> e.outcome.Loaded?
  }

  lemma CommitKeepsFullyLoaded(s: State, i: nat)
    requires i < |s.bodies| && FullyLoaded(s)
    ensures FullyLoaded(Committed(s, i))
  {
    var t := s.bodies[i].target;
    TouchKeepsFull(s.cache, t);
    match Cache.Lookup(s.cache, t)
    case Some(snapshot) =>
      ActivationKeepsDisplay(Hydrated(s, t, snapshot), i);
    case None =>
  }

  lemma TouchKeepsFull(cache: seq<(Id, Fields)>, t: Id)
    requires forall i :: 0 <= i < |cache| ==> Full(cache[i].1)
    ensures forall i :: 0 <= i < |Cache.AfterGet(cache, t)| ==> Full(Cache.AfterGet(cache, t)[i].1)
    ensures Cache.Lookup(cache, t).Some? ==> Full(Cache.Lookup(cache, t).value)
  {
  }

  lemma StepKeepsFullyLoaded(s: State, e: Event)
    requires FullyLoaded(s) && PreloadSucceeds(s, e)
    ensures FullyLoaded(Step(s, e))
  {
    match e
    case Request(_) =>
    case StartLoad(_, _) =>
    case DbStep(_) =>
    case StartRefresh =>
    case RefreshRead(_) =>
    case RefreshResumed(_, _) =>
    case SnapshotEffect => SnapshotKeepsFullyLoaded(s);
    case ResumeBody(i, outcome) => if i < |s.bodies| { BodyKeepsFullyLoaded(s, i, outcome); }
    case ResumeLoad(i, outcome) => if i < |s.loads| { LoadKeepsFullyLoaded(s, i, outcome); }
  }

  lemma SnapshotKeepsFullyLoaded(s: State)
    requires FullyLoaded(s)
    ensures FullyLoaded(SnapshotTaken(s))
  {
    StoreKeepsFull(s.cache, s.active, s.display);
  }

  lemma StoreKeepsFull(cache: seq<(Id, Fields)>, t: Id, f: Fields)
    requires Full(f) && forall i :: 0 <= i < |cache| ==> Full(cache[i].1)
    ensures var after := Cache.AfterSet(cache, t, f, CACHE_LIMIT);
            forall i :: 0 <= i < |after| ==> Full(after[i].1)
  {
  }

  lemma LoadKeepsFullyLoaded(s: State, i: nat, outcome: Outcome)
    requires FullyLoaded(s) && i < |s.loads|
    ensures FullyLoaded(LoadResumed(s, i, outcome))
  {
    assert Full(Written(s.display, s.loads[i], outcome));
  }

  lemma ActivationKeepsDisplay(s: State, i: nat)
    requires i < |s.bodies|
    ensures var end := Activated(s, i);
            end.display == s.display && end.scoped == s.scoped && end.cache == s.cache
  {
  }

  lemma FailureKeepsDisplay(s: State, i: nat)
    requires i < |s.bodies|
    ensures var end := Failed(s, i);
            end.display == s.display && end.scoped == s.scoped && end.cache == s.cache
  {
  }

  lemma BodyKeepsFullyLoaded(s: State, i: nat, outcome: Outcome)
    requires FullyLoaded(s) && i < |s.bodies|
    requires s.bodies[i].Preloading? && s.bodies[i].again ==> outcome.Loaded?
    ensures FullyLoaded(BodyResumed(s, i, outcome))
  {
    var t := s.bodies[i].target;
    FailureKeepsDisplay(s, i);
    FailureKeepsDisplay(s.(native := t), i);
    if s.bodies[i].UpdatingDb? || s.bodies[i].StoringKeys? {
      CommitKeepsFullyLoaded(s, i);
      CommitKeepsFullyLoaded(s.(native := t), i);
    } else if s.bodies[i].Preloaded? {
      ActivationKeepsDisplay(s, i);
    }
  }

  lemma {:induction false} RunKeepsFullyLoaded(s: State, es: seq<Event>)
    requires FullyLoaded(s) && PreloadsSucceed(s, es)
    ensures FullyLoaded(Run(s, es))
    decreases es
  {
    if es == [] {
    } else {
      StepKeepsFullyLoaded(s, es[0]);
      RunKeepsFullyLoaded(Step(s, es[0]), es[1..]);
    }
  }

  // Whenever no switch is running, every displayed field and the account it is said to belong
  // to are those of the active account, and every cached snapshot belongs to its key.
  lemma DisplayBelongsToActiveAccount(s: State, es: seq<Event>)
    requires Consistent(s) && FullyLoaded(s)
    requires AllowedRun(s, es) && PreloadsSucceed(s, es)
    ensures var end := Run(s, es);
            !end.switching ==> end.display == AllOf(end.active) && end.scoped == Some(end.active)
    ensures var end := Run(s, es);
            forall i :: 0 <= i < |end.cache| ==> end.cache[i].1 == AllOf(end.cache[i].0)
  {
    RunKeepsConsistent(s, es);
    RunKeepsFullyLoaded(s, es);
  }

  // ---------- The cache holds three accounts at most ----------

  lemma CommitKeepsCacheSmall(s: State, i: nat)
    requires i < |s.bodies| && |s.cache| <= 3
    ensures |Committed(s, i).cache| <= 3
  {
    var t := s.bodies[i].target;
    match Cache.Lookup(s.cache, t)
    case Some(snapshot) => ActivationKeepsDisplay(Hydrated(s, t, snapshot), i);
    case None =>
  }

  lemma BodyKeepsCacheSmall(s: State, i: nat, outcome: Outcome)
    requires i < |s.bodies| && |s.cache| <= 3
    ensures |BodyResumed(s, i, outcome).cache| <= 3
  {
    var t := s.bodies[i].target;
    FailureKeepsDisplay(s, i);
    FailureKeepsDisplay(s.(native := t), i);
    if s.bodies[i].UpdatingDb? || s.bodies[i].StoringKeys? {
      CommitKeepsCacheSmall(s, i);
      CommitKeepsCacheSmall(s.(native := t), i);
    } else if s.bodies[i].Preloaded? {
      ActivationKeepsDisplay(s, i);
    }
  }

  lemma {:induction false} CacheStaysSmall(s: State, es: seq<Event>)
    requires |s.cache| <= 3
    ensures |Run(s, es).cache| <= 3
    decreases es
  {
    if es == [] {
    } else {
      match es[0] {
        case ResumeBody(i, outcome) => if i < |s.bodies| { BodyKeepsCacheSmall(s, i, outcome); }
        case _ =>
      }
      CacheStaysSmall(Step(s, es[0]), es[1..]);
    }
  }

  // A snapshot of a third account costs none of two others their place.
  lemma ThreeAccountsFit(s: State)
    requires s.scoped == Some(s.active) && |s.cache| <= 2
    ensures Step(s, SnapshotEffect).cache == Cache.Without(s.cache, s.active) + [(s.active, s.display)]
  {
  }

  // ---------- The conditions are needed ----------

  // When a cold account is preloaded over another account's data, the display is the new
  // account's exactly if all three reads came back.
  lemma PreloadShowsTargetIffAllReadsSucceed(s: State, got: Reads)
    requires Consistent(s) && FullyLoaded(s) && s.switching
    requires s.bodies[0].Preloading? && s.shown != s.bodies[0].target
    ensures var after := BodyResumed(s, 0, Loaded(got));
            && after.scoped == Some(s.bodies[0].target)
            && (BelongTo(after.display, s.bodies[0].target) <==> got == Reads(true, true, true))
  {
  }

  predicate WritesOwner(l: Load, outcome: Outcome) {
    match l.stage
    case DbOnly => outcome.Loaded?
    case Balance => outcome.Fetched? && outcome.write
    case History => !outcome.Thrown?
    case DbOrdinals => outcome.Fetched? && outcome.write
    case ApiOrdinals => !outcome.Thrown? && !(outcome.Fetched? && outcome.write && !outcome.history)
    case _ => false
  }

  predicate WritesWallet(l: Load, outcome: Outcome) {
    match l.stage
    case OrdBalance => outcome.Fetched? && outcome.write
    case ApiOrdinals => outcome.Fetched? && outcome.write
    case Utxos => !outcome.Thrown?
    case _ => false
  }

  // A fetch started at any moment, say while a switch was running, through a callback made at
  // another, and still current when it writes: the display belongs to the active account
  // afterwards exactly if the account the fetch was started for, or the wallet the callback
  // was made with, is the active one wherever its data are written now.
  lemma CurrentFetchBelongsIff(s: State, i: nat, outcome: Outcome, made: State, started: State, dbOnly: bool)
    requires BelongTo(s.display, s.active) && i < |s.loads| && s.version == started.version
    requires s.loads[i] == LoadStarted(started, dbOnly, made.wallet).loads[|started.loads|].(stage := s.loads[i].stage)
    ensures BelongTo(LoadResumed(s, i, outcome).display, s.active) <==>
            && (WritesOwner(s.loads[i], outcome) ==> started.active == s.active)
            && (WritesWallet(s.loads[i], outcome) ==> made.wallet == s.active)
  {
    WrittenBelongsIff(s.display, s.loads[i], outcome, s.active);
    assert LoadResumed(s, i, outcome).display == Written(s.display, s.loads[i], outcome);
  }

  lemma WrittenBelongsIff(f: Fields, l: Load, outcome: Outcome, account: Id)
    requires BelongTo(f, account)
    ensures BelongTo(Written(f, l, outcome), account) <==>
            && (WritesOwner(l, outcome) ==> l.owner == account)
            && (WritesWallet(l, outcome) ==> l.wallet == account)
  {
  }

  // Such a fetch can be started in the middle of a switch: one started during a preload shows
  // the account that was active then under the new one.
  lemma FetchStartedDuringSwitchShowsOldAccount(s: State, captured: Id)
    requires Consistent(s) && s.switching && s.pending.None?
    requires s.bodies[0].Preloading? && s.active != s.bodies[0].target
    ensures var all := Loaded(Reads(true, true, true));
            var end := Run(s, [StartLoad(true, captured), ResumeBody(0, all), ResumeBody(0, Done),
                               ResumeLoad(|s.loads|, all)]);
            && !end.switching && end.active == s.bodies[0].target && s.wallet == s.bodies[0].target
            && end.display == AllOf(s.active)
  {
    var all := Loaded(Reads(true, true, true));
    var s1 := Step(s, StartLoad(true, captured));
    var s2 := Step(s1, ResumeBody(0, all));
    var s3 := Step(s2, ResumeBody(0, Done));
    var s4 := Step(s3, ResumeLoad(|s.loads|, all));
    RunOfFour(s, StartLoad(true, captured), ResumeBody(0, all), ResumeBody(0, Done), ResumeLoad(|s.loads|, all));
  }

  // A fetch can also be started at rest with the wallet of the account before: a button's
  // callback that was waiting while another account was switched to. It runs for the new
  // account and shows the old one's ordinal balance as the new one's, on display and in the
  // cache. By CurrentFetchBelongsIff the ordinals and UTXOs it goes on to write are the old one's too.
  lemma FetchThroughOldCallbackShowsOldAccount(s: State, target: Id)
    requires Consistent(s) && !s.switching && target in s.accounts && target != s.active
    requires Cache.Lookup(s.cache, target).Some?
    ensures var switch := [Request(target), ResumeBody(0, Done), DbStep(0), ResumeBody(0, Done)];
            var resume := ResumeLoad(|s.loads| + 1, Fetched(true, false));
            var end := Run(s, switch + ([StartLoad(false, s.wallet)] + [resume, resume, resume, SnapshotEffect]));
            && !end.switching && end.active == end.wallet == end.dbActive == target
            && end.scoped == Some(target) && end.display.ordBalance == Some(s.active)
            && end.cache != [] && end.cache[|end.cache| - 1] == (target, end.display)
  {
    var switch := [Request(target), ResumeBody(0, Done), DbStep(0), ResumeBody(0, Done)];
    var resume := ResumeLoad(|s.loads| + 1, Fetched(true, false));
    SwitchToCached(s, target);
    OldCallbackShows(Run(s, switch), s.wallet);
    RunConcats(s, switch, [StartLoad(false, s.wallet)] + [resume, resume, resume, SnapshotEffect]);
  }

  lemma SwitchToCached(s: State, target: Id)
    requires Consistent(s) && !s.switching && target in s.accounts && Cache.Lookup(s.cache, target).Some?
    ensures var end := Run(s, [Request(target), ResumeBody(0, Done), DbStep(0), ResumeBody(0, Done)]);
            && !end.switching && end.active == end.wallet == end.dbActive == target && |end.loads| == |s.loads| + 1
  {
    var s1 := Step(s, Request(target));
    var s3 := Step(Step(s1, ResumeBody(0, Done)), DbStep(0));
    assert s3 == s1.(native := target, dbActive := target, bodies := [UpdatingDb(target, true)]);
    CommitOfCached(s3, target);
    RunOfFour(s, Request(target), ResumeBody(0, Done), DbStep(0), ResumeBody(0, Done));
  }

  // The ordinal balance of `previous` is on display, and in the cache, as the active account's.
  predicate ShowsOld(s: State, end: State, previous: Id) {
    && end.switching == s.switching && end.active == s.active && end.wallet == s.wallet && end.dbActive == s.dbActive
    && end.scoped == Some(s.active) && end.display.ordBalance == Some(previous)
    && end.cache != [] && end.cache[|end.cache| - 1] == (s.active, end.display)
  }

  // The first three stages of a fetch, and the snapshot taken after them.
  lemma FetchStagesShow(s: State, k: nat, s3: State, end: State)
    requires k < |s.loads| && s.loads[k] == Load(Balance, s.active, s.loads[k].wallet, s.version)
    requires var got := Fetched(true, false);
             s3 == LoadResumed(LoadResumed(LoadResumed(s, k, got), k, got), k, got) && end == SnapshotTaken(s3)
    ensures ShowsOld(s, end, s.loads[k].wallet)
  {
    var l, got := s.loads[k], Fetched(true, false);
    var s2 := LoadResumed(LoadResumed(s, k, got), k, got);
    assert s2 == s.(loads := s.loads[k := l.(stage := History)],
                    display := s.display.(balance := Some(l.owner), ordBalance := Some(l.wallet)));
  }

  lemma RunOfStages(s: State, k: nat, outcome: Outcome)
    requires k < |s.loads| && k < |LoadResumed(s, k, outcome).loads|
    requires k < |LoadResumed(LoadResumed(s, k, outcome), k, outcome).loads|
    ensures var resume := ResumeLoad(k, outcome);
            Run(s, [resume, resume, resume, SnapshotEffect])
            == SnapshotTaken(LoadResumed(LoadResumed(LoadResumed(s, k, outcome), k, outcome), k, outcome))
  {
    var resume := ResumeLoad(k, outcome);
    RunOfFour(s, resume, resume, resume, SnapshotEffect);
  }

  lemma StagesShow(s: State, k: nat)
    requires k < |s.loads| && s.loads[k] == Load(Balance, s.active, s.loads[k].wallet, s.version)
    ensures var resume := ResumeLoad(k, Fetched(true, false));
            ShowsOld(s, Run(s, [resume, resume, resume, SnapshotEffect]), s.loads[k].wallet)
  {
    var got := Fetched(true, false);
    var s3 := LoadResumed(LoadResumed(LoadResumed(s, k, got), k, got), k, got);
    RunOfStages(s, k, got);
    FetchStagesShow(s, k, s3, SnapshotTaken(s3));
  }

  lemma OldCallbackShows(s: State, captured: Id)
    ensures var resume := ResumeLoad(|s.loads|, Fetched(true, false));
            ShowsOld(s, Run(s, [StartLoad(false, captured)] + [resume, resume, resume, SnapshotEffect]), captured)
  {
    var resume := ResumeLoad(|s.loads|, Fetched(true, false));
    RunOfOne(s, StartLoad(false, captured), [resume, resume, resume, SnapshotEffect]);
    StagesShow(LoadStarted(s, false, captured), |s.loads|);
  }

  lemma {:induction false} RunConcats(s: State, es: seq<Event>, fs: seq<Event>)
    ensures Run(s, es + fs) == Run(Run(s, es), fs)
    decreases es
  {
    if es == [] {
      assert es + fs == fs;
    } else {
      assert (es + fs)[1..] == es[1..] + fs;
      RunConcats(Step(s, es[0]), es[1..], fs);
    }
  }

  // A refresh that reads before a switch and ends after it makes the old account active again:
  // the switch was successful and asked for last, wallet, database and display are the new
  // account's, and the active account is not.
  lemma StaleRefreshReactivatesOldAccount(s: State, target: Id)
    requires Consistent(s) && !s.switching && target in s.accounts && target != s.active
    requires Cache.Lookup(s.cache, target).Some?
    ensures var k := |s.refreshes|;
            var end := Run(s, [StartRefresh, RefreshRead(k), Request(target)] +
                              [ResumeBody(0, Done), DbStep(0), ResumeBody(0, Done), RefreshResumed(k, true)]);
            && !end.switching && end.failed == s.failed && end.last == Some(target)
            && end.wallet == end.dbActive == end.shown == target && BelongTo(end.display, target)
            && end.active == s.active != target
  {
    var k := |s.refreshes|;
    var s1 := Step(Step(Step(s, StartRefresh), RefreshRead(k)), Request(target));
    RequestAfterRead(s, target, s1);
    LookupBelongs(s.cache, target);
    var s2 := Step(Step(s1, ResumeBody(0, Done)), DbStep(0));
    var s3 := Step(s2, ResumeBody(0, Done));
    SwitchBeforeRefreshEnds(s1, target, k, s2, s3, Step(s3, RefreshResumed(k, true)));
    RunOfFour(s1, ResumeBody(0, Done), DbStep(0), ResumeBody(0, Done), RefreshResumed(k, true));
    RunOfThree(s, StartRefresh, RefreshRead(k), Request(target),
               [ResumeBody(0, Done), DbStep(0), ResumeBody(0, Done), RefreshResumed(k, true)]);
  }

  lemma RequestAfterRead(s: State, target: Id, s1: State)
    requires Consistent(s) && !s.switching && target in s.accounts
    requires s1 == Step(Step(Step(s, StartRefresh), RefreshRead(|s.refreshes|)), Request(target))
    ensures s1 == s.(refreshes := s.refreshes + [Some(s.active)], requests := s.requests + 1, last := Some(target),
                     switching := true, version := s.version + 1, bodies := [Deriving(target)], started := s.started + 1)
  {
  }

  lemma SwitchBeforeRefreshEnds(s: State, target: Id, k: nat, s2: State, s3: State, end: State)
    requires s.bodies == [Deriving(target)] && s.pending == None && Cache.Lookup(s.cache, target).Some?
    requires k < |s.refreshes| && s.refreshes[k].Some?
    requires s2 == Step(Step(s, ResumeBody(0, Done)), DbStep(0))
    requires s3 == Step(s2, ResumeBody(0, Done)) && end == Step(s3, RefreshResumed(k, true))
    ensures !end.switching && end.failed == s.failed && end.last == s.last
    ensures end.wallet == end.dbActive == end.shown == target
    ensures end.display == Cache.Lookup(s.cache, target).value && end.active == s.refreshes[k].value
  {
  }

  lemma CommitOfCached(s: State, target: Id)
    requires s.bodies == [UpdatingDb(target, true)] && s.pending == None && Cache.Lookup(s.cache, target).Some?
    ensures var end := Step(s, ResumeBody(0, Done));
            && !end.switching && end.active == end.wallet == end.shown == target
            && end.dbActive == s.dbActive && end.last == s.last && end.failed == s.failed
            && end.display == Cache.Lookup(s.cache, target).value
            && end.refreshes == s.refreshes + [None]
  {
  }

  lemma RunOfThree(s: State, a: Event, b: Event, c: Event, es: seq<Event>)
    ensures Run(s, [a, b, c] + es) == Run(Step(Step(Step(s, a), b), c), es)
  {
    RunOfOne(s, a, [b, c] + es);
    RunOfOne(Step(s, a), b, [c] + es);
    RunOfOne(Step(Step(s, a), b), c, es);
    assert [a, b, c] + es == [a] + ([b, c] + es) && [b, c] + es == [b] + ([c] + es);
  }

  lemma RunOfFour(s: State, a: Event, b: Event, c: Event, d: Event)
    ensures Run(s, [a, b, c, d]) == Step(Step(Step(Step(s, a), b), c), d)
  {
    RunOfOne(s, a, [b, c, d]);
    RunOfOne(Step(s, a), b, [c, d]);
    RunOfOne(Step(Step(s, a), b), c, [d]);
    RunOfOne(Step(Step(Step(s, a), b), c), d, []);
    assert [a, b, c, d] == [a] + [b, c, d] && [b, c, d] == [b] + [c, d] && [c, d] == [c] + [d] && [d] == [d] + [];
  }

  lemma RunOfOne(s: State, e: Event, es: seq<Event>)
    ensures Run(s, [e] + es) == Run(Step(s, e), es)
  {
  }

  // ---------- A fetch shows what it has fetched ----------

  // A state with one fetch more, for the active account, and with its display.
  function Fetching(s: State, stage: Stage, display: Fields, scoped: Option<Id>): State {
    s.(loads := s.loads + [Load(stage, s.active, s.active, s.version)], display := display, scoped := scoped)
  }

  lemma StartIsFetching(s: State, es: seq<Event>)
    ensures Run(s, [StartLoad(false, s.active)] + es) == Run(Fetching(s, Balance, s.display, s.scoped), es)
  {
    RunOfOne(s, StartLoad(false, s.active), es);
  }

  // One stage of such a fetch: it goes on, or it ends and is gone.
  lemma StageRuns(s: State, stage: Stage, f: Fields, scoped: Option<Id>, outcome: Outcome, es: seq<Event>)
    ensures var l := Load(stage, s.active, s.active, s.version);
            var f' := Written(f, l, outcome);
            var scoped' := if Scopes(l, outcome) then Some(s.active) else scoped;
            Run(Fetching(s, stage, f, scoped), [ResumeLoad(|s.loads|, outcome)] + es) ==
            match NextStage(stage, outcome)
            case None => Run(s.(display := f', scoped := scoped'), es)
            case Some(next) => Run(Fetching(s, next, f', scoped'), es)
  {
    var s1, k := Fetching(s, stage, f, scoped), |s.loads|;
    RunOfOne(s1, ResumeLoad(k, outcome), es);
    assert Removed(s1.loads, k) == s.loads;
    match NextStage(stage, outcome)
    case None =>
    case Some(next) =>
      assert s1.loads[k := s1.loads[k].(stage := next)] == s.loads + [Load(next, s.active, s.active, s.version)];
  }

  function Twice(e: Event, es: seq<Event>): seq<Event> {
    [e] + ([e] + es)
  }

  function Thrice(e: Event, es: seq<Event>): seq<Event> {
    [e] + Twice(e, es)
  }

  // Balance, ordinal balance and history, all of them fetched.
  lemma FirstStagesRun(s: State, h: bool, es: seq<Event>)
    ensures var a, resume := Some(s.active), ResumeLoad(|s.loads|, Fetched(true, h));
            var f := s.display.(balance := a, ordBalance := a, txHistory := {s.active});
            Run(s, [StartLoad(false, s.active)] + Thrice(resume, es)) == Run(Fetching(s, DbOrdinals, f, a), es)
  {
    var a, got := Some(s.active), Fetched(true, h);
    var resume := ResumeLoad(|s.loads|, got);
    var f := s.display.(balance := a, ordBalance := a);
    StartIsFetching(s, Thrice(resume, es));
    StageRuns(s, Balance, s.display, s.scoped, got, Twice(resume, es));
    StageRuns(s, OrdBalance, s.display.(balance := a), s.scoped, got, [resume] + es);
    StageRuns(s, History, f, s.scoped, got, es);
  }

  // The ordinals, from the database and its cache of contents.
  lemma OrdinalStagesRun(s: State, f: Fields, h: bool, es: seq<Event>)
    ensures var a, resume := Some(s.active), ResumeLoad(|s.loads|, Fetched(true, h));
            Run(Fetching(s, DbOrdinals, f, a), Twice(resume, es))
            == Run(Fetching(s, ApiOrdinals, f.(ordinals := a), a), es)
  {
    var a, got := Some(s.active), Fetched(true, h);
    var resume := ResumeLoad(|s.loads|, got);
    StageRuns(s, DbOrdinals, f, a, got, [resume] + es);
    StageRuns(s, CachedContent, f.(ordinals := a), a, got, es);
  }

  // The last stage writes the UTXOs.
  lemma UtxosRun(s: State, f: Fields, h: bool)
    ensures var a, resume := Some(s.active), ResumeLoad(|s.loads|, Fetched(true, h));
            Run(Fetching(s, Utxos, f, a), [resume] + []) == s.(display := f.(utxos := a), scoped := a)
  {
    StageRuns(s, Utxos, f, Some(s.active), Fetched(true, h), []);
  }

  lemma LastStagesRun(s: State, f: Fields, h: bool)
    requires f.txHistory == {s.active}
    ensures var a, resume := Some(s.active), ResumeLoad(|s.loads|, Fetched(true, h));
            Run(Fetching(s, ApiOrdinals, f, a), Twice(resume, []))
            == s.(display := f.(ordinals := a, utxos := a), scoped := a)
  {
    var a, got := Some(s.active), Fetched(true, h);
    StageRuns(s, ApiOrdinals, f, a, got, [ResumeLoad(|s.loads|, got)] + []);
    UtxosRun(s, f.(ordinals := a), h);
  }

  // A whole fetch for the active account, with its wallet: whatever was on display before, all
  // of it is the account's afterwards, and nothing else has changed.
  lemma FetchShowsAll(s: State, h: bool)
    ensures var resume := ResumeLoad(|s.loads|, Fetched(true, h));
            var end := Run(s, [StartLoad(false, s.active)] + Thrice(resume, Twice(resume, Twice(resume, []))));
            end == s.(display := AllOf(s.active), scoped := Some(s.active))
  {
    var a, resume := Some(s.active), ResumeLoad(|s.loads|, Fetched(true, h));
    var f := s.display.(balance := a, ordBalance := a, txHistory := {s.active});
    FirstStagesRun(s, h, Twice(resume, Twice(resume, [])));
    OrdinalStagesRun(s, f, h, Twice(resume, []));
    LastStagesRun(s, f.(ordinals := a), h);
  }

  // A failure at a stage of the ordinals still lets the UTXOs be written.
  lemma FailedStageLeavesUtxos(s: State, stage: Stage, f: Fields, h: bool)
    requires stage in {DbOrdinals, CachedContent, ApiOrdinals}
    ensures var k, a := |s.loads|, Some(s.active);
            Run(Fetching(s, stage, f, a), [ResumeLoad(k, Thrown)] + ([ResumeLoad(k, Fetched(true, h))] + []))
            == s.(display := f.(utxos := a), scoped := a)
  {
    StageRuns(s, stage, f, Some(s.active), Thrown, [ResumeLoad(|s.loads|, Fetched(true, h))] + []);
    UtxosRun(s, f, h);
  }

  // The first failure that can hit the ordinals, before their database rows are there.
  lemma FailedRowsLeaveUtxos(s: State, h: bool)
    ensures var k := |s.loads|;
            var resume, fail := ResumeLoad(k, Fetched(true, h)), ResumeLoad(k, Thrown);
            var end := Run(s, [StartLoad(false, s.active)] + Thrice(resume, [fail] + ([resume] + [])));
            end == s.(display := AllOf(s.active).(ordinals := s.display.ordinals), scoped := Some(s.active))
  {
    var k, a := |s.loads|, Some(s.active);
    var f := s.display.(balance := a, ordBalance := a, txHistory := {s.active});
    FirstStagesRun(s, h, [ResumeLoad(k, Thrown)] + ([ResumeLoad(k, Fetched(true, h))] + []));
    FailedStageLeavesUtxos(s, DbOrdinals, f, h);
  }

  // A later one leaves these rows on display, and the UTXOs are written all the same.
  lemma FailedApiLeavesUtxos(s: State, h: bool)
    ensures var k := |s.loads|;
            var resume, fail := ResumeLoad(k, Fetched(true, h)), ResumeLoad(k, Thrown);
            var end := Run(s, [StartLoad(false, s.active)] + Thrice(resume, Twice(resume, [fail] + ([resume] + []))));
            end == s.(display := AllOf(s.active), scoped := Some(s.active))
  {
    var k, a := |s.loads|, Some(s.active);
    var resume, fail := ResumeLoad(k, Fetched(true, h)), ResumeLoad(k, Thrown);
    var f := s.display.(balance := a, ordBalance := a, txHistory := {s.active});
    FirstStagesRun(s, h, Twice(resume, [fail] + ([resume] + [])));
    OrdinalStagesRun(s, f, h, [fail] + ([resume] + []));
    FailedStageLeavesUtxos(s, ApiOrdinals, f.(ordinals := a), h);
  }

  lemma FailedContentLeavesUtxos(s: State, h: bool)
    ensures var k := |s.loads|;
            var resume, fail := ResumeLoad(k, Fetched(true, h)), ResumeLoad(k, Thrown);
            var end := Run(s, [StartLoad(false, s.active)] + Thrice(resume, [resume] + ([fail] + ([resume] + []))));
            end == s.(display := AllOf(s.active), scoped := Some(s.active))
  {
    var k, a := |s.loads|, Some(s.active);
    var resume, fail := ResumeLoad(k, Fetched(true, h)), ResumeLoad(k, Thrown);
    var f := s.display.(balance := a, ordBalance := a, txHistory := {s.active});
    FirstStagesRun(s, h, [resume] + ([fail] + ([resume] + [])));
    StageRuns(s, DbOrdinals, f, a, Fetched(true, h), [fail] + ([resume] + []));
    FailedStageLeavesUtxos(s, CachedContent, f.(ordinals := a), h);
  }

  // A failed balance or history ends the fetch, and leaves what comes after it as it was; a
  // failed ordinal balance is passed over.
  lemma FailedFetchEnds(s: State, h: bool, es: seq<Event>)
    ensures var k := |s.loads|;
            var resume, fail := ResumeLoad(k, Fetched(true, h)), ResumeLoad(k, Thrown);
            var start := [StartLoad(false, s.active)];
            var a := Some(s.active);
            && Run(s, start + ([fail] + es)) == Run(s, es)
            && Run(s, start + ([resume] + ([resume] + ([fail] + es))))
               == Run(s.(display := s.display.(balance := a, ordBalance := a)), es)
            && Run(s, start + ([resume] + ([fail] + ([resume] + es))))
               == Run(Fetching(s, DbOrdinals, s.display.(balance := a, txHistory := {s.active}), a), es)
  {
    var a, got := Some(s.active), Fetched(true, h);
    var k := |s.loads|;
    var resume, fail := ResumeLoad(k, got), ResumeLoad(k, Thrown);
    var f := s.display.(balance := a);
    StartIsFetching(s, [fail] + es);
    StageRuns(s, Balance, s.display, s.scoped, Thrown, es);
    StartIsFetching(s, [resume] + ([resume] + ([fail] + es)));
    StageRuns(s, Balance, s.display, s.scoped, got, [resume] + ([fail] + es));
    StageRuns(s, OrdBalance, f, s.scoped, got, [fail] + es);
    StageRuns(s, History, f.(ordBalance := a), s.scoped, Thrown, es);
    StartIsFetching(s, [resume] + ([fail] + ([resume] + es)));
    StageRuns(s, Balance, s.display, s.scoped, got, [fail] + ([resume] + es));
    StageRuns(s, OrdBalance, f, s.scoped, Thrown, [resume] + es);
    StageRuns(s, History, f, s.scoped, got, es);
  }

  // The fetch from the database alone shows all of it at once, at the second attempt if need be.
  lemma DatabaseFetchShowsAll(s: State, captured: Id)
    ensures var k := |s.loads|;
            var loaded := ResumeLoad(k, Loaded(Reads(true, true, true)));
            var end := s.(display := AllOf(s.active), scoped := Some(s.active));
            && Run(s, [StartLoad(true, captured)] + ([loaded] + [])) == end
            && Run(s, [StartLoad(true, captured)] + ([ResumeLoad(k, Retried)] + ([loaded] + []))) == end
  {
    var k := |s.loads|;
    var loaded, retried := ResumeLoad(k, Loaded(Reads(true, true, true))), ResumeLoad(k, Retried);
    var s1 := LoadStarted(s, true, captured);
    RunOfOne(s, StartLoad(true, captured), [loaded] + []);
    RunOfOne(s, StartLoad(true, captured), [retried] + ([loaded] + []));
    assert s1.loads[k := s1.loads[k].(stage := DbOnly)] == s1.loads;
    RunOfOne(s1, retried, [loaded] + []);
    RunOfOne(s1, loaded, []);
    assert Removed(s1.loads, k) == s.loads;
  }

  // One that fails leaves everything as it was.
  lemma FailedDatabaseFetchShowsNothing(s: State, captured: Id)
    ensures Run(s, [StartLoad(true, captured)] + ([ResumeLoad(|s.loads|, Thrown)] + [])) == s
  {
    var s1 := LoadStarted(s, true, captured);
    RunOfOne(s, StartLoad(true, captured), [ResumeLoad(|s.loads|, Thrown)] + []);
    RunOfOne(s1, ResumeLoad(|s.loads|, Thrown), []);
    assert Removed(s1.loads, |s.loads|) == s.loads;
  }

  // ---------- A switch arrives ----------

  // A state with a switch running, and none queued.
  function Within(s: State, b: Body): State {
    s.(switching := true, pending := None, bodies := [b])
  }

  // What a request at rest leaves of the state besides the switch itself.
  function Asked(s: State, target: Id): State {
    s.(requests := s.requests + 1, last := Some(target), started := s.started + 1, version := s.version + 1)
  }

  predicate AtRest(s: State) {
    !s.switching && s.pending == None && s.bodies == []
  }

  lemma RequestRuns(s: State, target: Id, es: seq<Event>)
    requires AtRest(s) && target in s.accounts
    ensures Run(s, [Request(target)] + es) == Run(Within(Asked(s, target), Deriving(target)), es)
  {
    RunOfOne(s, Request(target), es);
    assert s.bodies + [Deriving(target)] == [Deriving(target)];
  }

  lemma BodyRuns(s: State, b: Body, outcome: Outcome, after: State, es: seq<Event>)
    requires after == BodyResumed(Within(s, b), 0, outcome)
    ensures Run(Within(s, b), [ResumeBody(0, outcome)] + es) == Run(after, es)
  {
    RunOfOne(Within(s, b), ResumeBody(0, outcome), es);
  }

  lemma DbRuns(s: State, b: Body, after: State, es: seq<Event>)
    requires after == DbDone(Within(s, b), 0)
    ensures Run(Within(s, b), [DbStep(0)] + es) == Run(after, es)
  {
    RunOfOne(Within(s, b), DbStep(0), es);
  }

  // The native path: derivation and database update.
  lemma NativePathRuns(s: State, t: Id, es: seq<Event>)
    requires Cache.Lookup(s.cache, t).None?
    ensures var done := ResumeBody(0, Done);
            Run(Within(s, Deriving(t)), [done] + ([DbStep(0)] + ([done] + es)))
            == Run(Within(s.(native := t, dbActive := t, wallet := t), Preloading(t, s.version, false)), es)
  {
    var done := ResumeBody(0, Done);
    var s1 := s.(native := t);
    BodyRuns(s, Deriving(t), Done, Within(s1, UpdatingDb(t, false)), [DbStep(0)] + ([done] + es));
    DbRuns(s1, UpdatingDb(t, false), Within(s1.(dbActive := t), UpdatingDb(t, true)), [done] + es);
    BodyRuns(s1.(dbActive := t), UpdatingDb(t, true), Done,
             Within(s1.(dbActive := t, wallet := t), Preloading(t, s.version, false)), es);
  }

  // The password path: unlocking and database update, then the refresh of the account list and
  // the keys.
  lemma UnlockRuns(s: State, t: Id, es: seq<Event>)
    ensures var done := ResumeBody(0, Done);
            Run(Within(s, Deriving(t)), [ResumeBody(0, NoKeys(true, false))] + ([done] + ([DbStep(0)] + ([done] + es))))
            == Run(Within(s.(dbActive := t, active := t), FallbackRefresh(t, None)), es)
  {
    var done := ResumeBody(0, Done);
    BodyRuns(s, Deriving(t), NoKeys(true, false), Within(s, Unlocking(t)), [done] + ([DbStep(0)] + ([done] + es)));
    BodyRuns(s, Unlocking(t), Done, Within(s, FallbackDb(t, false)), [DbStep(0)] + ([done] + es));
    var s1 := s.(dbActive := t);
    DbRuns(s, FallbackDb(t, false), Within(s1, FallbackDb(t, true)), [done] + es);
    BodyRuns(s1, FallbackDb(t, true), Done, Within(s1.(active := t), FallbackRefresh(t, None)), es);
  }

  lemma PasswordPathRuns(s: State, t: Id, es: seq<Event>)
    requires s.dbActive == s.active == t && Cache.Lookup(s.cache, t).None?
    ensures var done := ResumeBody(0, Done);
            Run(Within(s, FallbackRefresh(t, None)), [DbStep(0)] + Twice(done, es))
            == Run(Within(s.(native := t, wallet := t), Preloading(t, s.version, false)), es)
  {
    var done := ResumeBody(0, Done);
    DbRuns(s, FallbackRefresh(t, None), Within(s, FallbackRefresh(t, Some(t))), Twice(done, es));
    BodyRuns(s, FallbackRefresh(t, Some(t)), Done, Within(s, StoringKeys(t)), [done] + es);
    BodyRuns(s, StoringKeys(t), Done, Within(s.(native := t, wallet := t), Preloading(t, s.version, false)), es);
  }

  // The end of a switch to a cold account: preloaded, at the first or the second attempt, or
  // cleared after both have failed; active in any case.
  lemma PreloadRuns(s: State, t: Id)
    ensures var done, failed := ResumeBody(0, Done), ResumeBody(0, Refused);
            var loaded := ResumeBody(0, Loaded(Reads(true, true, true)));
            var start := Within(s, Preloading(t, s.version, false));
            var end := s.(switching := false, pending := None, bodies := [], active := t,
                          refreshes := s.refreshes + [None], shown := t);
            && Run(start, [loaded] + ([done] + [])) == end.(display := AllOf(t), scoped := Some(t))
            && Run(start, [failed] + ([done] + ([loaded] + ([done] + [])))) == end.(display := AllOf(t), scoped := Some(t))
            && Run(start, [failed] + ([done] + ([failed] + ([done] + []))))
               == end.(display := Fields(None, None, {}, None, None), scoped := None)
  {
    var done, failed := ResumeBody(0, Done), ResumeBody(0, Refused);
    var loaded := ResumeBody(0, Loaded(Reads(true, true, true)));
    PreloadedRuns(s, t, false);
    PreloadedRuns(s, t, true);
    SecondAttemptRuns(s, t, [loaded] + ([done] + []));
    SecondAttemptRuns(s, t, [failed] + ([done] + []));
    var cleared := s.(display := CLEARED, scoped := None, shown := t);
    BodyRuns(s, Preloading(t, s.version, true), Refused, Within(cleared, Preloaded(t)), [done] + []);
    LastStepRuns(cleared, t);
  }

  lemma PreloadedRuns(s: State, t: Id, again: bool)
    ensures var loaded := ResumeBody(0, Loaded(Reads(true, true, true)));
            Run(Within(s, Preloading(t, s.version, again)), [loaded] + ([ResumeBody(0, Done)] + []))
            == s.(switching := false, pending := None, bodies := [], active := t,
                  refreshes := s.refreshes + [None], shown := t, display := AllOf(t), scoped := Some(t))
  {
    var shown := s.(display := AllOf(t), scoped := Some(t), shown := t);
    BodyRuns(s, Preloading(t, s.version, again), Loaded(Reads(true, true, true)), Within(shown, Preloaded(t)),
             [ResumeBody(0, Done)] + []);
    LastStepRuns(shown, t);
  }

  lemma SecondAttemptRuns(s: State, t: Id, es: seq<Event>)
    ensures Run(Within(s, Preloading(t, s.version, false)), [ResumeBody(0, Refused)] + ([ResumeBody(0, Done)] + es))
         == Run(Within(s, Preloading(t, s.version, true)), es)
  {
    BodyRuns(s, Preloading(t, s.version, false), Refused, Within(s, Pausing(t, s.version)), [ResumeBody(0, Done)] + es);
    BodyRuns(s, Pausing(t, s.version), Done, Within(s, Preloading(t, s.version, true)), es);
  }

  lemma LastStepRuns(s: State, t: Id)
    ensures Run(Within(s, Preloaded(t)), [ResumeBody(0, Done)] + [])
         == s.(switching := false, pending := None, bodies := [], active := t, refreshes := s.refreshes + [None])
  {
    BodyRuns(s, Preloaded(t), Done,
             s.(switching := false, pending := None, bodies := [], active := t, refreshes := s.refreshes + [None]), []);
  }

  // The state after a switch to a cold account that has arrived: account, wallet, database and
  // keys are the target's, and so is all that is on display, whatever was before.
  function Arrived(s: State, t: Id): State {
    s.(active := t, wallet := t, dbActive := t, native := t, shown := t,
       display := AllOf(t), scoped := Some(t), refreshes := s.refreshes + [None],
       requests := s.requests + 1, last := Some(t), started := s.started + 1, version := s.version + 1)
  }

  lemma SwitchArrives(s: State, t: Id)
    requires AtRest(s) && t in s.accounts && Cache.Lookup(s.cache, t).None?
    ensures var done, loaded := ResumeBody(0, Done), ResumeBody(0, Loaded(Reads(true, true, true)));
            Run(s, [Request(t)] + ([done] + ([DbStep(0)] + ([done] + ([loaded] + ([done] + [])))))) == Arrived(s, t)
  {
    var done, loaded := ResumeBody(0, Done), ResumeBody(0, Loaded(Reads(true, true, true)));
    var s1 := Asked(s, t);
    RequestRuns(s, t, [done] + ([DbStep(0)] + ([done] + ([loaded] + ([done] + [])))));
    NativePathRuns(s1, t, [loaded] + ([done] + []));
    PreloadedRuns(s1.(native := t, dbActive := t, wallet := t), t, false);
  }

  // So it does by way of the session password, if the native side gives no keys.
  lemma PasswordSwitchArrives(s: State, t: Id)
    requires AtRest(s) && t in s.accounts && Cache.Lookup(s.cache, t).None?
    ensures var done, loaded := ResumeBody(0, Done), ResumeBody(0, Loaded(Reads(true, true, true)));
            var unlocked := [DbStep(0)] + ([done] + ([DbStep(0)] + Twice(done, [loaded] + ([done] + []))));
            Run(s, [Request(t)] + ([ResumeBody(0, NoKeys(true, false))] + ([done] + unlocked))) == Arrived(s, t)
  {
    var done, loaded := ResumeBody(0, Done), ResumeBody(0, Loaded(Reads(true, true, true)));
    var unlocked := [DbStep(0)] + ([done] + ([DbStep(0)] + Twice(done, [loaded] + ([done] + []))));
    var s1 := Asked(s, t);
    RequestRuns(s, t, [ResumeBody(0, NoKeys(true, false))] + ([done] + unlocked));
    UnlockRuns(s1, t, [DbStep(0)] + Twice(done, [loaded] + ([done] + [])));
    PasswordPathRuns(s1.(dbActive := t, active := t), t, [loaded] + ([done] + []));
    PreloadedRuns(s1.(native := t, dbActive := t, active := t, wallet := t), t, false);
  }

  // The state after the commit of a cached account: its snapshot is on display and the most recently
  // used one, and its data are being fetched from the database.
  function AfterCachedCommit(s: State, t: Id): State
    requires Cache.Lookup(s.cache, t).Some?
  {
    s.(switching := false, pending := None, bodies := [], active := t, wallet := t, shown := t,
       display := Cache.Lookup(s.cache, t).value, scoped := Some(t), cache := Cache.AfterGet(s.cache, t),
       loads := s.loads + [Load(DbOnly, t, t, s.version)], refreshes := s.refreshes + [None])
  }

  // A switch to an account whose snapshot is cached shows the snapshot at once and has its data
  // fetched from the database in the background.
  lemma CachedSwitchArrives(s: State, t: Id)
    requires AtRest(s) && t in s.accounts && Cache.Lookup(s.cache, t).Some?
    ensures var done := ResumeBody(0, Done);
            Run(s, [Request(t)] + ([done] + ([DbStep(0)] + ([done] + []))))
            == AfterCachedCommit(Asked(s, t).(native := t, dbActive := t), t)
  {
    var done := ResumeBody(0, Done);
    RequestRuns(s, t, [done] + ([DbStep(0)] + ([done] + [])));
    CachedPathRuns(Asked(s, t), t);
  }

  lemma CachedPathRuns(s: State, t: Id)
    requires Cache.Lookup(s.cache, t).Some?
    ensures var done := ResumeBody(0, Done);
            Run(Within(s, Deriving(t)), [done] + ([DbStep(0)] + ([done] + [])))
            == AfterCachedCommit(s.(native := t, dbActive := t), t)
  {
    var done := ResumeBody(0, Done);
    var s1 := s.(native := t);
    BodyRuns(s, Deriving(t), Done, Within(s1, UpdatingDb(t, false)), [DbStep(0)] + ([done] + []));
    DbRuns(s1, UpdatingDb(t, false), Within(s1.(dbActive := t), UpdatingDb(t, true)), [done] + []);
    CachedCommitRuns(s1.(dbActive := t), t);
  }

  lemma CachedCommitRuns(s: State, t: Id)
    requires Cache.Lookup(s.cache, t).Some?
    ensures Run(Within(s, UpdatingDb(t, true)), [ResumeBody(0, Done)] + []) == AfterCachedCommit(s, t)
  {
    RunOfOne(Within(s, UpdatingDb(t, true)), ResumeBody(0, Done), []);
  }

  // A switch to an unknown account fails at once and changes nothing; a preload that another
  // switch has overtaken writes nothing.
  lemma UnknownAccountIsRefused(s: State, t: Id)
    requires AtRest(s) && t !in s.accounts
    ensures Run(s, [Request(t)] + [])
         == s.(requests := s.requests + 1, last := Some(t), started := s.started + 1, failed := true)
  {
    RunOfOne(s, Request(t), []);
  }

  lemma StalePreloadWritesNothing(s: State, t: Id, version: nat, again: bool, got: Reads)
    requires version != s.version
    ensures Run(Within(s, Preloading(t, version, again)), [ResumeBody(0, Loaded(got))] + []) == Within(s, Preloaded(t))
  {
    RunOfOne(Within(s, Preloading(t, version, again)), ResumeBody(0, Loaded(got)), []);
  }

  // A refresh of the account list reads once, and leaves the active account alone if it finds none.
  lemma RefreshReadsOnce(s: State, k: nat)
    requires k < |s.refreshes|
    ensures Step(Step(s, RefreshRead(k)), RefreshRead(k)) == Step(s, RefreshRead(k))
    ensures Step(s, RefreshResumed(k, false)) == s.(refreshes := s.refreshes[..k] + s.refreshes[k + 1..])
  {
  }

  // A request that comes while a switch is running begins when that ends.
  lemma QueuedSwitchBegins(s: State, t: Id, next: Id)
    requires s.bodies == [Preloaded(t)] && s.switching && next in s.accounts && next != t
    ensures Run(s, [Request(next)] + ([ResumeBody(0, Done)] + []))
         == s.(active := t, refreshes := s.refreshes + [None], requests := s.requests + 1, last := Some(next),
               pending := None, started := s.started + 1, version := s.version + 1, bodies := [Deriving(next)])
  {
    RunOfOne(s, Request(next), [ResumeBody(0, Done)] + []);
    RunOfOne(Step(s, Request(next)), ResumeBody(0, Done), []);
    assert Removed([Preloaded(t)], 0) + [Deriving(next)] == [Deriving(next)];
  }

  // ---------- The last request wins ----------

  // The count of bodies and, if refreshes fit and no switch has failed, where the account that
  // was asked for last is.
  predicate Heading(s: State, fit: bool) {
    && Exclusive(s)
    && (fit && !s.failed ==>
          if s.switching then s.last == if s.pending.Some? then s.pending else Some(s.bodies[0].target)
          else Shows(s.last, s.active))
    && s.started + (if s.pending.Some? then 1 else 0) <= s.requests
  }

  lemma FinishKeepsHeading(s: State, fit: bool)
    requires s.switching && Exclusive(s)
    requires fit && !s.failed ==> s.active == s.bodies[0].target
    requires fit && !s.failed ==> s.last == if s.pending.Some? then s.pending else Some(s.bodies[0].target)
    requires s.started + (if s.pending.Some? then 1 else 0) <= s.requests
    ensures Heading(Finished(s, 0), fit)
  {
  }

  lemma ActivationKeepsHeading(s: State, fit: bool)
    requires s.switching && Heading(s, fit)
    ensures Heading(Activated(s, 0), fit)
  {
  }

  lemma CommitKeepsHeading(s: State, fit: bool)
    requires s.switching && Heading(s, fit)
    ensures Heading(Committed(s, 0), fit)
  {
    var t := s.bodies[0].target;
    match Cache.Lookup(s.cache, t)
    case Some(snapshot) => ActivationKeepsHeading(Hydrated(s, t, snapshot), fit);
    case None =>
  }

  lemma FailureKeepsHeading(s: State, fit: bool, outcome: Outcome)
    requires Heading(s, fit) && s.bodies != [] && Fails(s.bodies[0], outcome)
    ensures Heading(BodyResumed(s, 0, outcome), fit)
  {
    var s1 := s.(failed := true, native := BodyResumed(s, 0, outcome).native);
    FinishKeepsHeading(s1, fit);
    assert BodyResumed(s, 0, outcome) == Finished(s1, 0);
  }

  lemma BodyKeepsHeading(s: State, fit: bool, outcome: Outcome)
    requires Heading(s, fit) && s.bodies != []
    ensures Heading(BodyResumed(s, 0, outcome), fit)
  {
    var t := s.bodies[0].target;
    if Fails(s.bodies[0], outcome) {
      FailureKeepsHeading(s, fit, outcome);
    } else if s.bodies[0].UpdatingDb? {
      CommitKeepsHeading(s, fit);
    } else if s.bodies[0].StoringKeys? {
      CommitKeepsHeading(s, fit);
      CommitKeepsHeading(s.(native := t), fit);
    } else if s.bodies[0].Preloaded? {
      ActivationKeepsHeading(s, fit);
    }
  }

  predicate RefreshesFit(s: State, es: seq<Event>)
    decreases es
  {
    es == [] || (RefreshFits(s, es[0]) && RefreshesFit(Step(s, es[0]), es[1..]))
  }

  lemma OtherStepKeepsHeading(s: State, fit: bool, e: Event)
    requires Heading(s, fit) && (fit ==> RefreshFits(s, e)) && !e.ResumeBody?
    ensures Heading(Step(s, e), fit)
  {
  }

  lemma StepKeepsHeading(s: State, fit: bool, e: Event)
    requires Heading(s, fit) && (fit ==> RefreshFits(s, e))
    ensures Heading(Step(s, e), fit)
  {
    match e
    case ResumeBody(i, outcome) => if i < |s.bodies| { BodyKeepsHeading(s, fit, outcome); }
    case _ => OtherStepKeepsHeading(s, fit, e);
  }

  // With nothing running and no switch failed, a refresh keeps the last request in force
  // exactly if it fits.
  lemma RefreshKeepsLastRequestIff(s: State, i: nat)
    requires Heading(s, true) && !s.switching && !s.failed && s.last.Some?
    requires i < |s.refreshes| && s.refreshes[i].Some?
    ensures Shows(s.last, RefreshEnds(s, i, true).active) <==> RefreshFits(s, RefreshResumed(i, true))
  {
  }

  lemma {:induction false} RunKeepsHeading(s: State, fit: bool, es: seq<Event>)
    requires Heading(s, fit) && (fit ==> RefreshesFit(s, es))
    ensures Heading(Run(s, es), fit)
    decreases es
  {
    if es == [] {
    } else {
      StepKeepsHeading(s, fit, es[0]);
      RunKeepsHeading(Step(s, es[0]), fit, es[1..]);
    }
  }

  predicate Quiet(s: State) {
    && !s.switching && s.pending == None && s.bodies == []
    && s.requests == s.started == 0 && s.last == None && !s.failed
  }

  // In every run: at most one switch body exists at a time, no more bodies run than were
  // requested, and if none of them failed and the refreshes fit, then whenever none is running
  // the active account is the one requested last.
  lemma LastRequestWins(s: State, es: seq<Event>)
    requires Quiet(s)
    ensures var end := Run(s, es);
            && |end.bodies| <= 1 && end.started <= end.requests
            && (RefreshesFit(s, es) && !end.switching && !end.failed && end.last.Some? ==> end.active == end.last.value)
  {
    RunKeepsHeading(s, RefreshesFit(s, es), es);
  }

  // ---------- Refreshes that fit ----------

  // A refresh that has read has read what the database still says, and the active account
  // agrees with the database but for the switch that has changed the one and not yet the other.
  ghost predicate Settled(s: State) {
    && Exclusive(s)
    && (forall k :: 0 <= k < |s.refreshes| ==> Shows(s.refreshes[k], s.dbActive))
    && (if s.switching && Updated(s.bodies[0]) then s.dbActive == s.bodies[0].target else s.dbActive == s.active)
  }

  predicate Updated(b: Body) {
    match b
    case Deriving(_) => false
    case UpdatingDb(_, written) => written
    case Unlocking(_) => false
    case FallbackDb(_, written) => written
    case _ => true
  }

  // An update of the database is for the account that every refresh in flight has read, if it
  // has read at all.
  predicate UpdateFits(s: State, e: Event) {
    e.DbStep? && e.i < |s.bodies| && !Updated(s.bodies[e.i]) ==>
      forall k :: 0 <= k < |s.refreshes| ==> Shows(s.refreshes[k], s.bodies[e.i].target)
  }

  // No update for another account between the read of a refresh and its end.
  predicate UpdatesFit(s: State, es: seq<Event>)
    decreases es
  {
    es == [] || (UpdateFits(s, es[0]) && UpdatesFit(Step(s, es[0]), es[1..]))
  }

  lemma FinishKeepsSettled(s: State)
    requires s.switching && Exclusive(s) && s.dbActive == s.active
    requires forall k :: 0 <= k < |s.refreshes| ==> Shows(s.refreshes[k], s.dbActive)
    ensures Settled(Finished(s, 0))
  {
  }

  lemma ActivationKeepsSettled(s: State)
    requires s.switching && Settled(s) && Updated(s.bodies[0])
    ensures Settled(Activated(s, 0))
  {
  }

  lemma CommitKeepsSettled(s: State)
    requires s.switching && Settled(s) && Updated(s.bodies[0])
    ensures Settled(Committed(s, 0))
  {
    var t := s.bodies[0].target;
    match Cache.Lookup(s.cache, t)
    case Some(snapshot) => ActivationKeepsSettled(Hydrated(s, t, snapshot));
    case None =>
  }

  lemma FailureKeepsSettled(s: State, outcome: Outcome)
    requires s.switching && Settled(s) && Fails(s.bodies[0], outcome)
    ensures Settled(BodyResumed(s, 0, outcome))
  {
    var s1 := s.(failed := true, native := BodyResumed(s, 0, outcome).native);
    FinishKeepsSettled(s1);
    assert BodyResumed(s, 0, outcome) == Finished(s1, 0);
  }

  lemma BodyKeepsSettled(s: State, outcome: Outcome)
    requires s.switching && Settled(s)
    ensures Settled(BodyResumed(s, 0, outcome))
  {
    var t := s.bodies[0].target;
    if Fails(s.bodies[0], outcome) {
      FailureKeepsSettled(s, outcome);
    } else if s.bodies[0].UpdatingDb? && outcome.Done? && s.bodies[0].written {
      CommitKeepsSettled(s);
    } else if s.bodies[0].StoringKeys? {
      CommitKeepsSettled(s);
      CommitKeepsSettled(s.(native := t));
    } else if s.bodies[0].Preloaded? {
      ActivationKeepsSettled(s);
    }
  }

  lemma UpdateKeepsSettled(s: State)
    requires s.switching && Settled(s) && UpdateFits(s, DbStep(0))
    ensures Settled(DbDone(s, 0))
  {
  }

  lemma RefreshKeepsSettled(s: State, i: nat, found: bool)
    requires Settled(s) && i < |s.refreshes|
    ensures Settled(RefreshEnds(s, i, found))
  {
  }

  lemma StepKeepsSettled(s: State, e: Event)
    requires Settled(s) && UpdateFits(s, e)
    ensures Settled(Step(s, e))
  {
    match e
    case Request(target) =>
    case ResumeBody(i, outcome) => if i < |s.bodies| { BodyKeepsSettled(s, outcome); }
    case DbStep(i) => if i < |s.bodies| { UpdateKeepsSettled(s); }
    case StartLoad(_, _) =>
    case ResumeLoad(i, outcome) =>
    case SnapshotEffect =>
    case StartRefresh =>
    case RefreshRead(i) =>
    case RefreshResumed(i, found) => if i < |s.refreshes| { RefreshKeepsSettled(s, i, found); }
  }

  lemma {:induction false} UpdatesFitRefreshesFit(s: State, es: seq<Event>)
    requires Settled(s) && UpdatesFit(s, es)
    ensures RefreshesFit(s, es)
    decreases es
  {
    if es == [] {
    } else {
      StepKeepsSettled(s, es[0]);
      UpdatesFitRefreshesFit(Step(s, es[0]), es[1..]);
    }
  }

  // The condition a caller can keep: while a refresh is between its read and its end, no other
  // account is made the active one in the database. Then the last request wins.
  lemma LastRequestWinsIfUpdatesFit(s: State, es: seq<Event>)
    requires Quiet(s) && Settled(s) && UpdatesFit(s, es)
    ensures var end := Run(s, es);
            && (!end.switching ==> end.active == end.dbActive)
            && (!end.switching && !end.failed && end.last.Some? ==> end.active == end.last.value)
  {
    UpdatesFitRefreshesFit(s, es);
    LastRequestWins(s, es);
    RunKeepsSettled(s, es);
  }

  lemma {:induction false} RunKeepsSettled(s: State, es: seq<Event>)
    requires Settled(s) && UpdatesFit(s, es)
    ensures Settled(Run(s, es))
    decreases es
  {
    if es == [] {
    } else {
      StepKeepsSettled(s, es[0]);
      RunKeepsSettled(Step(s, es[0]), es[1..]);
    }
  }
}
