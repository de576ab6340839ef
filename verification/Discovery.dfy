/**
 Account discovery: a scan over account indices with a gap limit, followed by the creation of
 the accounts found. What the network and the database answer is an oracle.
 */
module Discovery {
  import opened Wrappers

  const MAX_ACCOUNT_DISCOVERY: nat := 200
  const GAP_LIMIT: nat := 5
  const MAX_RETRIES: nat := 3
  const CREATE_ATTEMPTS: nat := 3

  // ---------- One account ----------

  // How a balance request ends; only the native command reports failure as a negative balance.
  datatype Reply = Rejected | Balance(satoshis: int)

  datatype Verdict = Active | Empty | Unknown

  datatype Oracle = Oracle(native: bool, replies: (nat, nat) -> seq<Reply>)

  function Reading(native: bool, r: Reply): Option<int> {
    match r
    case Rejected => None
    case Balance(satoshis) => if native && satoshis < 0 then None else Some(satoshis)
  }

  ghost predicate SomePositive(native: bool, replies: seq<Reply>) {
    exists i :: 0 <= i < |replies| && Reading(native, replies[i]).Some? && Reading(native, replies[i]).value > 0
  }

  ghost predicate AllRead(native: bool, replies: seq<Reply>) {
    forall i :: 0 <= i < |replies| ==> Reading(native, replies[i]).Some?
  }

  ghost function VerdictOf(native: bool, replies: seq<Reply>): Verdict {
    if SomePositive(native, replies) then Active else if AllRead(native, replies) then Empty else Unknown
  }

  // A positive balance is activity. Emptiness takes a balance from every address; a negative
  // one is none on the native side.
  lemma VerdictMeans(native: bool, replies: seq<Reply>)
    ensures VerdictOf(native, replies) == Active <==>
            exists i :: 0 <= i < |replies| && replies[i].Balance? && replies[i].satoshis > 0
    ensures VerdictOf(native, replies) == Empty <==>
            forall i :: 0 <= i < |replies| ==>
              replies[i].Balance? && replies[i].satoshis <= 0 && (native ==> replies[i].satoshis == 0)
  {
    if i :| 0 <= i < |replies| && replies[i].Balance? && replies[i].satoshis > 0 {
      assert Reading(native, replies[i]) == Some(replies[i].satoshis);
    }
  }

  method CheckActivity(native: bool, replies: seq<Reply>) returns (verdict: Verdict)
    ensures verdict == VerdictOf(native, replies)
    ensures verdict == Active <==> exists i :: 0 <= i < |replies| && replies[i].Balance? && replies[i].satoshis > 0
    ensures verdict == Empty <==>
            forall i :: 0 <= i < |replies| ==>
              replies[i].Balance? && replies[i].satoshis <= 0 && (native ==> replies[i].satoshis == 0)
  {
    VerdictMeans(native, replies);
    var allOk := true;
    for i := 0 to |replies|
      invariant allOk <==> AllRead(native, replies[..i])
      invariant !SomePositive(native, replies[..i])
    {
      assert replies[..i + 1] == replies[..i] + [replies[i]];
      var reading := Reading(native, replies[i]);
      if reading.None? {
        assert replies[..i + 1][i] == replies[i];
        allOk := false;
      } else if reading.value > 0 {
        return Active;
      }
    }
    assert replies[..|replies|] == replies;
    return if allOk then Empty else Unknown;
  }

  // The first conclusive check from the given attempt on.
  ghost function Settled(o: Oracle, index: nat, attempt: nat): Verdict
    decreases MAX_RETRIES - attempt
  {
    var verdict := VerdictOf(o.native, o.replies(index, attempt));
    if verdict != Unknown || attempt >= MAX_RETRIES then verdict else Settled(o, index, attempt + 1)
  }

  ghost function Found(o: Oracle, index: nat): Verdict {
    Settled(o, index, 0)
  }

  // A check stays open exactly when all four attempts were inconclusive.
  lemma {:induction false} UnknownIffEveryAttemptFails(o: Oracle, index: nat, attempt: nat)
    requires attempt <= MAX_RETRIES
    ensures Settled(o, index, attempt) == Unknown <==>
            forall a :: attempt <= a <= MAX_RETRIES ==> VerdictOf(o.native, o.replies(index, a)) == Unknown
    decreases MAX_RETRIES - attempt
  {
    if attempt == MAX_RETRIES {
    } else {
      UnknownIffEveryAttemptFails(o, index, attempt + 1);
    }
  }

  // A check is the first conclusive one of four attempts.
  lemma FirstConclusiveOfFour(o: Oracle, index: nat)
    ensures var first, second := VerdictOf(o.native, o.replies(index, 0)), VerdictOf(o.native, o.replies(index, 1));
            var third, fourth := VerdictOf(o.native, o.replies(index, 2)), VerdictOf(o.native, o.replies(index, 3));
            Found(o, index) == if first != Unknown then first else if second != Unknown then second
                               else if third != Unknown then third else fourth
  {
    assert Settled(o, index, 3) == VerdictOf(o.native, o.replies(index, 3));
  }

  method CheckWithRetries(o: Oracle, index: nat) returns (result: Verdict)
    ensures result == Found(o, index)
  {
    result := CheckActivity(o.native, o.replies(index, 0));
    if result == Unknown {
      var attempt := 1;
      while attempt <= MAX_RETRIES && result == Unknown
        invariant 1 <= attempt <= MAX_RETRIES + 1
        invariant Found(o, index) ==
                  if result == Unknown && attempt <= MAX_RETRIES then Settled(o, index, attempt) else result
      {
        result := CheckActivity(o.native, o.replies(index, attempt));
        attempt := attempt + 1;
      }
    }
  }

  // ---------- The scan ----------

  // The verdict on each index.
  type Verdicts = nat -> Verdict

  ghost predicate Reports(o: Oracle, v: Verdicts) {
    forall i: nat {:trigger Found(o, i)} :: v(i) == Found(o, i)
  }

  // The last active index up to n; 0 if there is none.
  ghost function LastHit(v: Verdicts, n: nat): (h: nat)
    ensures h <= n && (h > 0 ==> v(h) == Active)
  {
    if n == 0 then 0 else if v(n) == Active then n else LastHit(v, n - 1)
  }

  // The confirmed-empty indices after a, up to n.
  ghost function EmptiesBetween(v: Verdicts, a: nat, n: nat): nat {
    if n <= a then 0 else EmptiesBetween(v, a, n - 1) + (if v(n) == Empty then 1 else 0)
  }

  // Confirmed-empty indices since the last hit; an open check neither counts nor resets.
  ghost function Gap(v: Verdicts, n: nat): nat {
    if LastHit(v, n) == 0 then 0 else EmptiesBetween(v, LastHit(v, n), n)
  }

  // No gap up to n has reached the limit.
  ghost predicate NeverWide(v: Verdicts, n: nat) {
    n == 0 || (Gap(v, n) < 5 && NeverWide(v, n - 1))
  }

  lemma {:induction false} NeverWideBefore(v: Verdicts, n: nat)
    requires NeverWide(v, n)
    ensures forall k :: 1 <= k <= n ==> Gap(v, k) < 5
  {
    if n == 0 {
    } else {
      NeverWideBefore(v, n - 1);
    }
  }

  // The scan ends at the fifth confirmed-empty index since a hit, or at index 200.
  ghost predicate StopsAt(v: Verdicts, last: nat) {
    && 1 <= last <= 200
    && NeverWide(v, last - 1)
    && (last < 200 ==> Gap(v, last) == 5 && v(last) == Empty)
  }

  ghost predicate IncreasingHits(v: Verdicts, discovered: seq<nat>, last: nat) {
    && (forall i, j :: 0 <= i < j < |discovered| ==> discovered[i] < discovered[j])
    && (forall k :: k in discovered <==> 1 <= k <= last && v(k) == Active)
  }

  lemma GapStep(v: Verdicts, n: nat)
    requires n >= 1
    ensures Gap(v, n) ==
            match v(n)
            case Active => 0
            case Unknown => Gap(v, n - 1)
            case Empty => if LastHit(v, n - 1) == 0 then 0 else Gap(v, n - 1) + 1
  {
  }

  lemma HitsStep(v: Verdicts, discovered: seq<nat>, i: nat)
    requires i >= 1 && IncreasingHits(v, discovered, i - 1)
    ensures IncreasingHits(v, if v(i) == Active then discovered + [i] else discovered, i)
  {
    forall j | 0 <= j < |discovered| ensures discovered[j] < i {
      assert discovered[j] in discovered;
    }
  }

  // What the scan's flags say after the first n indices.
  ghost predicate Paced(v: Verdicts, n: nat, foundAny: bool, empties: nat) {
    (foundAny <==> LastHit(v, n) > 0) && empties == Gap(v, n) && NeverWide(v, n)
  }

  lemma PaceStep(v: Verdicts, i: nat, foundAny: bool, empties: nat)
    requires i >= 1 && Paced(v, i - 1, foundAny, empties)
    ensures match v(i)
            case Active => Paced(v, i, true, 0)
            case Unknown => Paced(v, i, foundAny, empties)
            case Empty =>
              if !foundAny then Paced(v, i, foundAny, empties)
              else if empties + 1 < GAP_LIMIT then Paced(v, i, foundAny, empties + 1)
              else Gap(v, i) == empties + 1
  {
  }

  // Phase one: returns exactly the active indices examined, in increasing order, and how many
  // indices those are.
  method Scan(o: Oracle, ghost v: Verdicts) returns (discovered: seq<nat>, totalChecked: nat)
    requires Reports(o, v)
    ensures StopsAt(v, totalChecked) && IncreasingHits(v, discovered, totalChecked)
  {
    discovered, totalChecked := [], 0;
    var foundAny := false;
    var consecutiveEmpty := 0;
    for i := 1 to MAX_ACCOUNT_DISCOVERY + 1
      invariant totalChecked == i - 1 && consecutiveEmpty < GAP_LIMIT
      invariant IncreasingHits(v, discovered, i - 1)
      invariant Paced(v, i - 1, foundAny, consecutiveEmpty)
    {
      var result := CheckWithRetries(o, i);
      assert result == v(i);
      HitsStep(v, discovered, i);
      PaceStep(v, i, foundAny, consecutiveEmpty);
      totalChecked := totalChecked + 1;
      match result {
        case Active =>
          discovered := discovered + [i];
          foundAny := true;
          consecutiveEmpty := 0;
        case Empty =>
          if foundAny {
            consecutiveEmpty := consecutiveEmpty + 1;
            if consecutiveEmpty >= GAP_LIMIT {
              break;
            }
          }
        case Unknown =>
      }
    }
  }

  // ---------- What the scan can miss ----------

  // An active index after five or more confirmed-empty ones since the hit before it.
  ghost predicate BehindWideGap(v: Verdicts, k: nat) {
    k >= 1 && v(k) == Active && Gap(v, k - 1) >= 5
  }

  ghost predicate NoWideGap(v: Verdicts) {
    forall k :: 1 <= k <= 200 ==> !BehindWideGap(v, k)
  }

  ghost predicate FindsAll(v: Verdicts, last: nat) {
    forall k :: 1 <= k <= 200 && v(k) == Active ==> k <= last
  }

  // Without a hit in between, the gap does not shrink.
  lemma {:induction false} GapGrows(v: Verdicts, a: nat, n: nat)
    requires a <= n && forall k :: a < k <= n ==> v(k) != Active
    ensures Gap(v, n) >= Gap(v, a)
    decreases n
  {
    if a == n {
    } else {
      GapGrows(v, a, n - 1);
      GapStep(v, n);
      assert v(n) != Active;
      if LastHit(v, n - 1) == 0 {
        assert Gap(v, n - 1) == 0;
      }
    }
  }

  // The first active index after the given one, if there is one up to n.
  lemma {:induction false} FirstHitAfter(v: Verdicts, a: nat, n: nat) returns (k: nat)
    requires a < n && v(n) == Active
    ensures a < k <= n && v(k) == Active
    ensures forall j :: a < j < k ==> v(j) != Active
    decreases n
  {
    if h :| a < h < n && v(h) == Active {
      k := FirstHitAfter(v, a, h);
    } else {
      k := n;
    }
  }

  lemma HitFoundIsBehindNoWideGap(v: Verdicts, last: nat, k: nat)
    requires StopsAt(v, last) && 1 <= k <= last
    ensures !BehindWideGap(v, k)
  {
    NeverWideBefore(v, last - 1);
    if k == 1 {
      assert Gap(v, 0) == 0;
    }
  }

  lemma MissedHitIsBehindWideGap(v: Verdicts, last: nat, n: nat) returns (k: nat)
    requires StopsAt(v, last) && last < n <= 200 && v(n) == Active
    ensures last < k <= n && BehindWideGap(v, k)
  {
    k := FirstHitAfter(v, last, n);
    GapGrows(v, last, k - 1);
  }

  // The scan finds every active index in 1..200 exactly when no gap between hits has five
  // confirmed-empty indices.
  lemma ScanFindsAllIffNoWideGap(v: Verdicts, last: nat)
    requires StopsAt(v, last)
    ensures FindsAll(v, last) <==> NoWideGap(v)
  {
    if FindsAll(v, last) {
      forall k | 1 <= k <= 200 ensures !BehindWideGap(v, k) {
        if v(k) == Active {
          HitFoundIsBehindNoWideGap(v, last, k);
        }
      }
    } else {
      var n :| 1 <= n <= 200 && v(n) == Active && n > last;
      var k := MissedHitIsBehindWideGap(v, last, n);
    }
  }

  // Whether each account really has funds, and checks that never report the contrary.
  ghost predicate Faithful(v: Verdicts, funded: nat -> bool) {
    forall k :: 1 <= k <= 200 ==>
      (v(k) == Active ==> funded(k)) && (v(k) == Empty ==> !funded(k))
  }

  // With faithful checks every funded account in 1..200 is found exactly when no gap is too
  // wide and no funded account's checks all failed.
  lemma FundedAccountsFoundIff(v: Verdicts, funded: nat -> bool, discovered: seq<nat>, last: nat)
    requires Faithful(v, funded) && StopsAt(v, last) && IncreasingHits(v, discovered, last)
    ensures (forall k :: 1 <= k <= 200 && funded(k) ==> k in discovered) <==>
            NoWideGap(v) && forall k :: 1 <= k <= 200 && funded(k) ==> v(k) != Unknown
  {
    ScanFindsAllIffNoWideGap(v, last);
    if forall k :: 1 <= k <= 200 && funded(k) ==> k in discovered {
      forall k | 1 <= k <= 200 && v(k) == Active ensures k <= last {
        assert k in discovered;
      }
      forall k | 1 <= k <= 200 && funded(k) ensures v(k) != Unknown {
        assert k in discovered;
      }
    }
  }

  // ---------- Creating the accounts ----------

  // Accounts by derivation index, and the active one.
  datatype Table = Table(ids: map<nat, nat>, active: Option<nat>, nextId: nat)

  datatype Fault = NoFault | DbLocked | OtherFault | Thrown

  // What goes wrong in each attempt at an index, and whether looking an account up works.
  datatype Faults = Faults(insert: (nat, nat) -> Fault, lookup: (nat, nat) -> bool)

  datatype Attempt = Stored(id: nat) | Again | Refused

  function Insert(t: Table, index: nat): Table {
    Table(t.ids[index := t.nextId], Some(t.nextId), t.nextId + 1)
  }

  // An account that is there already cannot be inserted again, but it counts if it is found.
  function Try(f: Faults, t: Table, index: nat, attempt: nat): Attempt {
    match f.insert(index, attempt)
    case DbLocked => Again
    case Thrown => Refused
    case OtherFault => if index in t.ids && f.lookup(index, attempt) then Stored(t.ids[index]) else Refused
    case NoFault =>
      if index !in t.ids then Stored(t.nextId)
      else if f.lookup(index, attempt) then Stored(t.ids[index]) else Refused
  }

  // The account's id, from the given attempt on; None if it could not be stored.
  function Obtain(f: Faults, t: Table, index: nat, attempt: nat): Option<nat>
    decreases CREATE_ATTEMPTS - attempt
  {
    if attempt >= CREATE_ATTEMPTS then None
    else
      match Try(f, t, index, attempt)
      case Stored(id) => Some(id)
      case Refused => None
      case Again => Obtain(f, t, index, attempt + 1)
  }

  // What one attempt comes to: a new account is stored unless the insertion fails, an existing
  // one counts if it can be looked up, and only a locked database is worth another attempt.
  lemma AttemptComesTo(f: Faults, t: Table, index: nat, attempt: nat)
    ensures var fault, there := f.insert(index, attempt), f.lookup(index, attempt);
            && (fault == DbLocked <==> Try(f, t, index, attempt) == Again)
            && (fault == Thrown ==> Try(f, t, index, attempt) == Refused)
            && (index !in t.ids ==>
                  && (fault == NoFault ==> Try(f, t, index, attempt) == Stored(t.nextId))
                  && (fault == OtherFault ==> Try(f, t, index, attempt) == Refused))
            && (index in t.ids && fault in {NoFault, OtherFault} ==>
                  Try(f, t, index, attempt) == if there then Stored(t.ids[index]) else Refused)
  {
  }

  // There are three attempts, each made only if all before it found the database locked.
  lemma ThreeAttempts(f: Faults, t: Table, index: nat)
    ensures var first, second, third := Try(f, t, index, 0), Try(f, t, index, 1), Try(f, t, index, 2);
            var last := if first != Again then first else if second != Again then second else third;
            Obtain(f, t, index, 0) == if last.Stored? then Some(last.id) else None
  {
    assert Obtain(f, t, index, 3) == None;
    assert Obtain(f, t, index, 2) == if Try(f, t, index, 2).Stored? then Some(Try(f, t, index, 2).id) else None;
  }

  function AfterCreating(f: Faults, t: Table, index: nat): Table {
    if Obtain(f, t, index, 0).Some? && index !in t.ids then Insert(t, index) else t
  }

  // Creation stops at the first account that cannot be stored.
  function CreateAll(f: Faults, t: Table, discovered: seq<nat>): (Table, nat)
    decreases discovered
  {
    if discovered == [] || Obtain(f, t, discovered[0], 0).None? then (t, 0)
    else
      var (rest, created) := CreateAll(f, AfterCreating(f, t, discovered[0]), discovered[1..]);
      (rest, created + 1)
  }

  // Account ids start at 1, so a restore id of 0 counts as none.
  function Activate(t: Table, created: nat, restore: Option<nat>, switchFails: bool): Table {
    if created > 0 && restore.Some? && restore.value != 0 && !switchFails
    then t.(active := if restore.value in t.ids.Values then restore else None) else t
  }

  class Accounts {
    var ids: map<nat, nat>
    var active: Option<nat>
    var nextId: nat

    function Now(): Table
      reads this
    {
      Table(ids, active, nextId)
    }

    constructor (t: Table)
      ensures Now() == t
    {
      ids, active, nextId := t.ids, t.active, t.nextId;
    }

    // One attempt: the insertion and, if it is refused, the search for the account.
    method CreateAccount(f: Faults, index: nat, attempt: nat) returns (result: Attempt)
      modifies this
      ensures result == Try(f, old(Now()), index, attempt)
      ensures Now() == if result.Stored? && index !in old(ids) then Insert(old(Now()), index) else old(Now())
    {
      var fault := f.insert(index, attempt);
      if fault == DbLocked {
        return Again;
      }
      if fault == Thrown {
        return Refused;
      }
      if fault == NoFault && index !in ids {
        ids := ids[index := nextId];
        active := Some(nextId);
        nextId := nextId + 1;
        return Stored(nextId - 1);
      }
      if index in ids && f.lookup(index, attempt) {
        return Stored(ids[index]);
      }
      return Refused;
    }

    // Up to three attempts while the database is locked.
    method CreateWithRetries(f: Faults, index: nat) returns (id: Option<nat>)
      modifies this
      ensures id == Obtain(f, old(Now()), index, 0)
      ensures Now() == AfterCreating(f, old(Now()), index)
    {
      id := None;
      var attempt := 0;
      while attempt < CREATE_ATTEMPTS
        invariant 0 <= attempt <= CREATE_ATTEMPTS && id.None? && Now() == old(Now())
        invariant Obtain(f, old(Now()), index, 0) == Obtain(f, old(Now()), index, attempt)
      {
        var result := CreateAccount(f, index, attempt);
        match result {
          case Stored(stored) =>
            id := Some(stored);
            break;
          case Refused =>
            break;
          case Again =>
            attempt := attempt + 1;
        }
      }
    }

    // Phase two. At its end the account given is made active again, if any was created.
    method CreateDiscovered(f: Faults, discovered: seq<nat>, restore: Option<nat>, switchFails: bool)
      returns (created: nat)
      modifies this
      ensures created == CreateAll(f, old(Now()), discovered).1
      ensures Now() == Activate(CreateAll(f, old(Now()), discovered).0, created, restore, switchFails)
    {
      created := 0;
      var i := 0;
      while i < |discovered|
        invariant 0 <= i <= |discovered| && created == i
        invariant CreateAll(f, old(Now()), discovered) ==
                  var (rest, more) := CreateAll(f, Now(), discovered[i..]); (rest, created + more)
      {
        var id := CreateWithRetries(f, discovered[i]);
        if id.None? {
          break;
        }
        created := created + 1;
        assert discovered[i..][1..] == discovered[i + 1..];
        i := i + 1;
      }
      if created > 0 && restore.Some? && restore.value != 0 && !switchFails {
        active := if restore.value in ids.Values then restore else None;
      }
    }
  }

  // Stored accounts are a prefix of those discovered: exactly these are added, none is lost or
  // renumbered, and the account after the prefix could not be stored.
  lemma {:induction false} CreatesAPrefix(f: Faults, t: Table, discovered: seq<nat>)
    ensures var (after, created) := CreateAll(f, t, discovered);
            && created <= |discovered|
            && (forall k :: k in after.ids <==> k in t.ids || k in discovered[..created])
            && (forall k :: k in t.ids ==> k in after.ids && after.ids[k] == t.ids[k])
            && (created < |discovered| ==> Obtain(f, after, discovered[created], 0).None?)
    decreases discovered
  {
    if discovered == [] || Obtain(f, t, discovered[0], 0).None? {
    } else {
      var next := AfterCreating(f, t, discovered[0]);
      CreatesAPrefix(f, next, discovered[1..]);
      var (after, created) := CreateAll(f, next, discovered[1..]);
      assert discovered[..created + 1] == [discovered[0]] + discovered[1..][..created];
      StoredIsThere(f, t, discovered[0], 0);
    }
  }

  // An account is only obtained by storing it or finding it.
  lemma {:induction false} StoredIsThere(f: Faults, t: Table, index: nat, attempt: nat)
    requires Obtain(f, t, index, attempt).Some?
    ensures Obtain(f, t, index, attempt).value == if index in t.ids then t.ids[index] else t.nextId
    decreases CREATE_ATTEMPTS - attempt
  {
    if !Try(f, t, index, attempt).Again? {
    } else {
      StoredIsThere(f, t, index, attempt + 1);
    }
  }

  // Creation leaves the table as it was, or a new account active.
  lemma {:induction false} NewAccountBecomesActive(f: Faults, t: Table, discovered: seq<nat>)
    ensures var after := CreateAll(f, t, discovered).0;
            after == t || (after.ids != t.ids && after.active.Some? && after.active.value >= t.nextId)
    decreases discovered
  {
    if discovered == [] || Obtain(f, t, discovered[0], 0).None? {
    } else {
      var next := AfterCreating(f, t, discovered[0]);
      NewAccountBecomesActive(f, next, discovered[1..]);
      CreatesAPrefix(f, next, discovered[1..]);
      if next != t {
        assert discovered[0] in CreateAll(f, next, discovered[1..]).0.ids;
      }
    }
  }

  // No two accounts share an id, and the next id is new.
  ghost predicate FreshIds(t: Table) {
    && (forall k :: k in t.ids ==> t.ids[k] < t.nextId)
    && (forall j, k :: j in t.ids && k in t.ids && t.ids[j] == t.ids[k] ==> j == k)
  }

  lemma {:induction false} CreatingKeepsIdsFresh(f: Faults, t: Table, discovered: seq<nat>)
    requires FreshIds(t)
    ensures FreshIds(CreateAll(f, t, discovered).0)
    decreases discovered
  {
    if discovered == [] || Obtain(f, t, discovered[0], 0).None? {
    } else {
      CreatingKeepsIdsFresh(f, AfterCreating(f, t, discovered[0]), discovered[1..]);
    }
  }

  // The final switch is made only if an account was created or found and there is one to go back
  // to. It makes no account active if that one is unknown.
  lemma FinalSwitch(t: Table, created: nat, restore: Option<nat>, switchFails: bool)
    ensures created == 0 || restore == None || restore == Some(0) || switchFails ==>
              Activate(t, created, restore, switchFails) == t
    ensures created > 0 && restore.Some? && restore.value != 0 && !switchFails ==>
              var known := exists k :: k in t.ids && t.ids[k] == restore.value;
              Activate(t, created, restore, switchFails) == t.(active := if known then restore else None)
  {
  }

  // An account that was active before, whatever failed in between, is active afterwards exactly
  // if the final switch works or no account was added.
  lemma ActiveAccountIsRestoredIff(f: Faults, t: Table, discovered: seq<nat>, restore: nat, switchFails: bool)
    requires restore != 0 && t.active == Some(restore) && restore in t.ids.Values
    requires forall k :: k in t.ids ==> t.ids[k] < t.nextId
    ensures var (after, created) := CreateAll(f, t, discovered);
            Activate(after, created, Some(restore), switchFails).active == Some(restore)
            <==> !switchFails || after.ids == t.ids
  {
    CreatesAPrefix(f, t, discovered);
    NewAccountBecomesActive(f, t, discovered);
    var (after, created) := CreateAll(f, t, discovered);
    var k :| k in t.ids && t.ids[k] == restore;
    assert after.ids[k] == restore;
  }

  // Discovering a second time, with nothing failing, counts the same accounts and changes
  // nothing but the active account.
  lemma {:induction false} DiscoveryIsRepeatable(f: Faults, t: Table, discovered: seq<nat>)
    requires forall k, a :: f.insert(k, a) == NoFault && f.lookup(k, a)
    requires forall i :: 0 <= i < |discovered| ==> discovered[i] in t.ids
    ensures CreateAll(f, t, discovered) == (t, |discovered|)
    decreases discovered
  {
    if discovered == [] {
    } else {
      var rest := discovered[1..];
      forall i | 0 <= i < |rest| ensures rest[i] in t.ids {
        assert rest[i] == discovered[i + 1];
      }
      DiscoveryIsRepeatable(f, t, rest);
      assert f.insert(discovered[0], 0) == NoFault && f.lookup(discovered[0], 0);
    }
  }
}
