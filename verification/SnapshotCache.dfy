/**
 The in-memory cache of account snapshots: an insertion-ordered map used as a bounded
 least-recently-used list. A snapshot owns arrays; the cache copies them on the way in and
 on the way out.
 */
module SnapshotCache {
  import opened Wrappers

  // ---------- Recency lists, oldest entry first ----------

  function Position<V>(r: seq<(int, V)>, id: int): (k: nat)
    ensures k <= |r|
    ensures forall i :: 0 <= i < k ==> r[i].0 != id
    ensures k < |r| ==> r[k].0 == id
  {
    if r == [] || r[0].0 == id then 0 else 1 + Position(r[1..], id)
  }

  function Without<V>(r: seq<(int, V)>, id: int): seq<(int, V)> {
    var k := Position(r, id);
    if k < |r| then r[..k] + r[k + 1..] else r
  }

  function Lookup<V>(r: seq<(int, V)>, id: int): Option<V> {
    var k := Position(r, id);
    if k < |r| then Some(r[k].1) else None
  }

  function Cap(maxEntries: int): nat {
    if maxEntries < 0 then 0 else maxEntries
  }

  function Trim<V>(r: seq<(int, V)>, maxEntries: int): seq<(int, V)> {
    if |r| <= Cap(maxEntries) then r else r[|r| - Cap(maxEntries)..]
  }

  function AfterGet<V>(r: seq<(int, V)>, id: int): seq<(int, V)> {
    match Lookup(r, id)
    case None => r
    case Some(v) => Without(r, id) + [(id, v)]
  }

  function AfterSet<V>(r: seq<(int, V)>, id: int, v: V, maxEntries: int): seq<(int, V)> {
    Trim(Without(r, id) + [(id, v)], maxEntries)
  }

  predicate DistinctIds<V>(r: seq<(int, V)>) {
    forall i, j :: 0 <= i < j < |r| ==> r[i].0 != r[j].0
  }

  // ---------- The cache ----------

  /** One row of a list; rows are values that nobody changes in place. */
  type Row = string

  datatype Balances = Balances(default: int, ordinals: int, identity: int, derived: int, locks: int)

  datatype Snapshot = Snapshot(
    balance: int, ordBalance: int,
    utxos: array<Row>, ordinals: array<Row>, txHistory: array<Row>, locks: array<Row>,
    basketBalances: Balances)
  {
    ghost function Arrays(): set<object> {
      {utxos, ordinals, txHistory, locks}
    }

    function View(): Content
      reads utxos, ordinals, txHistory, locks
    {
      Content(balance, ordBalance, utxos[..], ordinals[..], txHistory[..], locks[..], basketBalances)
    }
  }

  /** What a snapshot says, apart from the arrays that hold it. */
  datatype Content = Content(
    balance: int, ordBalance: int,
    utxos: seq<Row>, ordinals: seq<Row>, txHistory: seq<Row>, locks: seq<Row>,
    basketBalances: Balances)

  method CloneRows(rows: array<Row>) returns (copy: array<Row>)
    ensures fresh(copy) && copy[..] == rows[..]
  {
    copy := new Row[rows.Length](i requires 0 <= i < rows.Length reads rows => rows[i]);
  }

  method CloneSnapshot(s: Snapshot) returns (copy: Snapshot)
    ensures fresh(copy.Arrays()) && copy.View() == s.View()
  {
    var utxos := CloneRows(s.utxos);
    var ordinals := CloneRows(s.ordinals);
    var txHistory := CloneRows(s.txHistory);
    var locks := CloneRows(s.locks);
    copy := Snapshot(s.balance, s.ordBalance, utxos, ordinals, txHistory, locks, s.basketBalances);
  }

  // Each stored snapshot keeps its arrays inside `repr` and says what the entry beside it says.
  ghost predicate Aligned(stored: seq<(int, Snapshot)>, contents: seq<(int, Content)>, repr: set<object>)
    reads repr
  {
    |stored| == |contents| && forall i :: 0 <= i < |stored| ==> Holds(stored[i], contents[i], repr)
  }

  ghost predicate Holds(stored: (int, Snapshot), content: (int, Content), repr: set<object>)
    reads repr
  {
    stored.1.Arrays() <= repr && content == (stored.0, stored.1.View())
  }

  class AccountSnapshotCache {
    ghost var Contents: seq<(int, Content)>
    ghost var Repr: set<object>
    const maxEntries: int
    var snapshots: seq<(int, Snapshot)>

    ghost predicate Valid()
      reads this, Repr
    {
      && this !in Repr && Aligned(snapshots, Contents, Repr)
      && DistinctIds(Contents) && |Contents| <= Cap(maxEntries)
    }

    constructor (maxEntries: int)
      ensures Valid() && Repr == {} && Contents == [] && this.maxEntries == maxEntries
    {
      this.maxEntries := maxEntries;
      snapshots, Contents, Repr := [], [], {};
    }

    // The arrays of the result are new and stay outside the cache.
    method Get(accountId: int) returns (result: Option<Snapshot>)
      requires Valid()
      modifies this
      ensures Valid() && Repr == old(Repr)
      ensures Contents == AfterGet(old(Contents), accountId)
      ensures match Lookup(old(Contents), accountId)
              case None => result == None
              case Some(content) =>
                result.Some? && result.value.View() == content && fresh(result.value.Arrays())
    {
      AlignedWithout(snapshots, Contents, Repr, accountId);
      WithoutKeepsDistinct(Contents, accountId);
      var k := Position(snapshots, accountId);
      if k == |snapshots| {
        return None;
      }
      var snapshot := snapshots[k].1;
      assert Holds(snapshots[k], Contents[k], Repr);
      snapshots := snapshots[..k] + snapshots[k + 1..];
      AlignedSnoc(snapshots, Without(Contents, accountId), Repr, accountId, snapshot);
      snapshots := snapshots + [(accountId, snapshot)];
      Contents := AfterGet(Contents, accountId);
      var copy := CloneSnapshot(snapshot);
      result := Some(copy);
    }

    // The caller's arrays stay outside the cache.
    method Set(accountId: int, snapshot: Snapshot)
      requires Valid()
      modifies this
      ensures Valid() && fresh(Repr - old(Repr))
      ensures Contents == AfterSet(old(Contents), accountId, snapshot.View(), maxEntries)
    {
      Delete(accountId);
      var copy := CloneSnapshot(snapshot);
      Append(accountId, copy);
      Evict();
    }

    method Delete(accountId: int)
      requires this !in Repr && Aligned(snapshots, Contents, Repr) && DistinctIds(Contents)
      modifies this`snapshots, this`Contents
      ensures Aligned(snapshots, Contents, Repr) && DistinctIds(Contents)
      ensures Contents == Without(old(Contents), accountId)
      ensures forall i :: 0 <= i < |Contents| ==> Contents[i].0 != accountId
    {
      AlignedWithout(snapshots, Contents, Repr, accountId);
      WithoutKeepsDistinct(Contents, accountId);
      var k := Position(snapshots, accountId);
      if k < |snapshots| {
        snapshots := snapshots[..k] + snapshots[k + 1..];
      }
      Contents := Without(Contents, accountId);
    }

    method Append(accountId: int, copy: Snapshot)
      requires this !in Repr + copy.Arrays() && Aligned(snapshots, Contents, Repr) && DistinctIds(Contents)
      requires forall i :: 0 <= i < |Contents| ==> Contents[i].0 != accountId
      modifies this
      ensures this !in Repr && Aligned(snapshots, Contents, Repr) && DistinctIds(Contents)
      ensures Contents == old(Contents) + [(accountId, copy.View())] && Repr == old(Repr) + copy.Arrays()
    {
      AlignedSnoc(snapshots, Contents, Repr, accountId, copy);
      snapshots := snapshots + [(accountId, copy)];
      Contents, Repr := Contents + [(accountId, copy.View())], Repr + copy.Arrays();
    }

    // The loop at the end of `Set`: the oldest entry goes while there are too many.
    method Evict()
      requires this !in Repr && Aligned(snapshots, Contents, Repr) && DistinctIds(Contents)
      modifies this`snapshots, this`Contents
      ensures Valid() && Contents == Trim(old(Contents), maxEntries)
    {
      ghost var stored, all, dropped := snapshots, Contents, 0;
      while |snapshots| > maxEntries
        invariant dropped <= |all| && snapshots == stored[dropped..]
        invariant dropped > 0 ==> |snapshots| >= Cap(maxEntries)
      {
        if |snapshots| == 0 {
          break;
        }
        snapshots, dropped := snapshots[1..], dropped + 1;
      }
      AlignedTail(stored, all, Repr, dropped);
      Contents := all[dropped..];
    }
  }

  lemma AlignedTail(stored: seq<(int, Snapshot)>, contents: seq<(int, Content)>, repr: set<object>, k: nat)
    requires k <= |stored| && Aligned(stored, contents, repr)
    ensures Aligned(stored[k..], contents[k..], repr)
  {
  }

  lemma AlignedWithout(stored: seq<(int, Snapshot)>, contents: seq<(int, Content)>, repr: set<object>, id: int)
    requires Aligned(stored, contents, repr)
    ensures Position(stored, id) == Position(contents, id)
    ensures Aligned(Without(stored, id), Without(contents, id), repr)
  {
    forall i | 0 <= i < |stored|
      ensures stored[i].0 == contents[i].0
    {
      assert Holds(stored[i], contents[i], repr);
    }
    SamePosition(stored, contents, id);
    var k := Position(stored, id);
    var s, c := Without(stored, id), Without(contents, id);
    forall i | 0 <= i < |s|
      ensures Holds(s[i], c[i], repr)
    {
      var j := if k <= i && k < |stored| then i + 1 else i;
      assert Holds(stored[j], contents[j], repr);
    }
  }

  lemma AlignedSnoc(stored: seq<(int, Snapshot)>, contents: seq<(int, Content)>, repr: set<object>,
                    id: int, s: Snapshot)
    requires Aligned(stored, contents, repr)
    ensures Aligned(stored + [(id, s)], contents + [(id, s.View())], repr + s.Arrays())
  {
  }

  lemma {:induction false} SamePosition<V, W>(r: seq<(int, V)>, q: seq<(int, W)>, id: int)
    requires |r| == |q| && forall i :: 0 <= i < |r| ==> r[i].0 == q[i].0
    ensures Position(r, id) == Position(q, id)
  {
    if r == [] || r[0].0 == id {
    } else {
      SamePosition(r[1..], q[1..], id);
    }
  }

  lemma WithoutKeepsDistinct<V>(r: seq<(int, V)>, id: int)
    requires DistinctIds(r)
    ensures DistinctIds(Without(r, id))
    ensures forall i :: 0 <= i < |Without(r, id)| ==> Without(r, id)[i].0 != id
  {
  }

  method Overwrite(rows: array<Row>, row: Row)
    modifies rows
  {
    for i := 0 to rows.Length {
      rows[i] := row;
    }
  }

  method OverwriteAll(s: Snapshot, row: Row)
    modifies s.Arrays()
  {
    Overwrite(s.utxos, row);
    Overwrite(s.ordinals, row);
    Overwrite(s.txHistory, row);
    Overwrite(s.locks, row);
  }

  // What is handed in can be overwritten freely afterwards: the cache holds the content it
  // was given.
  method SetSurvivesOverwriting(cache: AccountSnapshotCache, id: int, s: Snapshot, row: Row)
    requires cache.Valid() && cache.Repr !! s.Arrays()
    modifies cache, s.Arrays()
    ensures cache.Valid()
    ensures cache.Contents == AfterSet(old(cache.Contents), id, old(s.View()), cache.maxEntries)
  {
    cache.Set(id, s);
    OverwriteAll(s, row);
  }

  // So can what is handed out.
  method GetSurvivesOverwriting(cache: AccountSnapshotCache, id: int, row: Row)
    requires cache.Valid()
    modifies cache
    ensures cache.Valid() && cache.Contents == AfterGet(old(cache.Contents), id)
  {
    var got := cache.Get(id);
    if got.Some? {
      OverwriteAll(got.value, row);
    }
  }

  // ---------- The cache over whole histories ----------

  datatype Op<V> = GetOp(id: int) | SetOp(id: int, value: V)

  // What a caller has seen: a get with its outcome, or a set.
  datatype Seen<V> = Got(id: int, hit: bool) | Put(id: int, value: V)

  function Entries<V>(ops: seq<Op<V>>, maxEntries: int): seq<(int, V)> {
    if ops == [] then []
    else
      var r := Entries(ops[..|ops| - 1], maxEntries);
      match ops[|ops| - 1]
      case GetOp(id) => AfterGet(r, id)
      case SetOp(id, v) => AfterSet(r, id, v, maxEntries)
  }

  function History<V>(ops: seq<Op<V>>, maxEntries: int): (h: seq<Seen<V>>)
    ensures |h| == |ops|
  {
    if ops == [] then []
    else
      var front := ops[..|ops| - 1];
      History(front, maxEntries) +
      [match ops[|ops| - 1]
       case GetOp(id) => Got(id, Lookup(Entries(front, maxEntries), id).Some?)
       case SetOp(id, v) => Put(id, v)]
  }

  // When an id was last touched, by a set or by a get that hit; -1 if never.
  function LastTouch<V>(h: seq<Seen<V>>, id: int): (k: int)
    ensures -1 <= k < |h|
  {
    if h == [] then -1
    else if h[|h| - 1].id == id && (h[|h| - 1].Put? || h[|h| - 1].hit) then |h| - 1
    else LastTouch(h[..|h| - 1], id)
  }

  function LastPut<V>(h: seq<Seen<V>>, id: int): Option<V> {
    if h == [] then None
    else if h[|h| - 1].Put? && h[|h| - 1].id == id then Some(h[|h| - 1].value)
    else LastPut(h[..|h| - 1], id)
  }

  // The ids that were touched after `id` was.
  function TouchedLater<V>(h: seq<Seen<V>>, id: int): set<int> {
    set i | 0 <= i < |h| && LastTouch(h, h[i].id) > LastTouch(h, id) :: h[i].id
  }

  ghost predicate Contains<V>(r: seq<(int, V)>, id: int) {
    exists i :: 0 <= i < |r| && r[i].0 == id
  }

  // The entries are in order of last touch and carry the last value put.
  ghost predicate Ordered<V>(r: seq<(int, V)>, h: seq<Seen<V>>) {
    && (forall i :: 0 <= i < |r| ==> LastTouch(h, r[i].0) >= 0 && LastPut(h, r[i].0) == Some(r[i].1))
    && (forall i, j :: 0 <= i < j < |r| ==> LastTouch(h, r[i].0) < LastTouch(h, r[j].0))
  }

  // A touched id that is missing was touched before all the entries, of which there are enough.
  ghost predicate Complete<V>(r: seq<(int, V)>, h: seq<Seen<V>>, maxEntries: int) {
    forall id :: LastTouch(h, id) >= 0 && !Contains(r, id) ==> Older(r, h, id, maxEntries)
  }

  ghost predicate Older<V>(r: seq<(int, V)>, h: seq<Seen<V>>, id: int, maxEntries: int) {
    |r| >= Cap(maxEntries) && forall i :: 0 <= i < |r| ==> LastTouch(h, id) < LastTouch(h, r[i].0)
  }

  ghost predicate Tracks<V>(r: seq<(int, V)>, h: seq<Seen<V>>, maxEntries: int) {
    Ordered(r, h) && Complete(r, h, maxEntries)
  }

  lemma TouchExtends<V>(h: seq<Seen<V>>, e: Seen<V>, id: int)
    ensures LastTouch(h + [e], id) == if e.id == id && (e.Put? || e.hit) then |h| else LastTouch(h, id)
    ensures LastPut(h + [e], id) == if e.Put? && e.id == id then Some(e.value) else LastPut(h, id)
  {
    assert (h + [e])[..|h|] == h;
  }

  lemma {:induction false} MovedEntries<V>(r: seq<(int, V)>, id: int, v: V)
    requires DistinctIds(r)
    ensures var u, k := Without(r, id) + [(id, v)], Position(r, id);
            && u[|u| - 1] == (id, v) && |r| <= |u|
            && (forall i :: 0 <= i < |u| - 1 ==>
                  u[i].0 != id && u[i] == r[if k <= i && k < |r| then i + 1 else i])
  {
    var rest, k := Without(r, id), Position(r, id);
    var u := rest + [(id, v)];
    forall i | 0 <= i < |u| - 1 ensures u[i].0 != id && u[i] == r[if k <= i && k < |r| then i + 1 else i] {
      assert u[i] == rest[i];
      RemainingEntry(r, id, i);
    }
  }

  lemma {:induction false} RemainingEntry<V>(r: seq<(int, V)>, id: int, i: nat)
    requires DistinctIds(r) && i < |Without(r, id)|
    ensures var rest, k := Without(r, id), Position(r, id);
            rest[i].0 != id && rest[i] == r[if k <= i && k < |r| then i + 1 else i]
  {
    var k := Position(r, id);
    if k < |r| {
      var j := if k <= i then i + 1 else i;
      assert Without(r, id)[i] == r[j];
      assert if j < k then r[j].0 != r[k].0 else r[k].0 != r[j].0;
    }
  }

  lemma MovedEntriesAreThere<V>(r: seq<(int, V)>, id: int, v: V)
    ensures forall x :: Contains(r, x) || x == id ==> Contains(Without(r, id) + [(id, v)], x)
  {
    forall x | Contains(r, x) || x == id
      ensures Contains(Without(r, id) + [(id, v)], x)
    {
      MovedEntryIsThere(r, id, v, x);
    }
  }

  lemma MovedEntryIsThere<V>(r: seq<(int, V)>, id: int, v: V, x: int)
    requires Contains(r, x) || x == id
    ensures Contains(Without(r, id) + [(id, v)], x)
  {
    var rest, k := Without(r, id), Position(r, id);
    var u := rest + [(id, v)];
    if x == id {
      assert u[|rest|].0 == id;
    } else {
      var i :| 0 <= i < |r| && r[i].0 == x;
      var j := if k < i then i - 1 else i;
      assert rest[j] == r[i];
      assert u[j] == rest[j];
    }
  }

  lemma TouchesExtend<V>(h: seq<Seen<V>>, e: Seen<V>)
    requires e.Put? || e.hit
    ensures forall id :: LastTouch(h + [e], id) == if e.id == id then |h| else LastTouch(h, id)
    ensures forall id :: id != e.id ==> LastPut(h + [e], id) == LastPut(h, id)
  {
  }

  // Moving an id to the end, with the value last put, keeps the entries on track.
  lemma TouchKeepsTrack<V>(r: seq<(int, V)>, h: seq<Seen<V>>, e: Seen<V>, v: V, maxEntries: int)
    requires Tracks(r, h, maxEntries) && (e.Put? || e.hit)
    requires LastPut(h + [e], e.id) == Some(v)
    ensures Tracks(Without(r, e.id) + [(e.id, v)], h + [e], maxEntries)
  {
    TouchKeepsOrder(r, h, e, v);
    TouchKeepsComplete(r, h, e, v, maxEntries);
  }

  lemma TouchKeepsOrder<V>(r: seq<(int, V)>, h: seq<Seen<V>>, e: Seen<V>, v: V)
    requires Ordered(r, h) && (e.Put? || e.hit)
    requires LastPut(h + [e], e.id) == Some(v)
    ensures Ordered(Without(r, e.id) + [(e.id, v)], h + [e])
  {
    var rest := Without(r, e.id);
    var u := rest + [(e.id, v)];
    TouchExtends(h, e, e.id);
    forall i | 0 <= i < |u|
      ensures LastTouch(h + [e], u[i].0) >= 0 && LastPut(h + [e], u[i].0) == Some(u[i].1)
    {
      if i < |rest| {
        StayingEntry(r, h, e, i);
      }
    }
    forall i, j | 0 <= i < j < |u|
      ensures LastTouch(h + [e], u[i].0) < LastTouch(h + [e], u[j].0)
    {
      StayingEntry(r, h, e, i);
      if j < |rest| {
        StayingEntry(r, h, e, j);
      }
    }
  }

  // An entry that stays, with the place it had before.
  lemma StayingEntry<V>(r: seq<(int, V)>, h: seq<Seen<V>>, e: Seen<V>, i: nat)
    requires Ordered(r, h) && i < |Without(r, e.id)|
    ensures var x, k := Without(r, e.id)[i], Position(r, e.id);
            && x == r[if k <= i && k < |r| then i + 1 else i]
            && 0 <= LastTouch(h + [e], x.0) == LastTouch(h, x.0) < |h|
            && LastPut(h + [e], x.0) == Some(x.1)
  {
    TouchExtends(h, e, Without(r, e.id)[i].0);
  }

  lemma TouchKeepsComplete<V>(r: seq<(int, V)>, h: seq<Seen<V>>, e: Seen<V>, v: V, maxEntries: int)
    requires Tracks(r, h, maxEntries) && (e.Put? || e.hit)
    ensures Complete(Without(r, e.id) + [(e.id, v)], h + [e], maxEntries)
  {
    var u := Without(r, e.id) + [(e.id, v)];
    MovedEntries(r, e.id, v);
    MovedEntriesAreThere(r, e.id, v);
    TouchesExtend(h, e);
    forall id | LastTouch(h + [e], id) >= 0 && !Contains(u, id)
      ensures Older(u, h + [e], id, maxEntries)
    {
      assert Older(r, h, id, maxEntries);
    }
  }

  lemma TrimKeepsTrack<V>(u: seq<(int, V)>, h: seq<Seen<V>>, maxEntries: int)
    requires Tracks(u, h, maxEntries)
    ensures Tracks(Trim(u, maxEntries), h, maxEntries)
  {
  }

  lemma {:induction false} EveryHistoryTracks<V>(ops: seq<Op<V>>, maxEntries: int)
    ensures Tracks(Entries(ops, maxEntries), History(ops, maxEntries), maxEntries)
    ensures |Entries(ops, maxEntries)| <= Cap(maxEntries)
  {
    if ops == [] {
    } else {
      var front := ops[..|ops| - 1];
      EveryHistoryTracks(front, maxEntries);
      var r, h := Entries(front, maxEntries), History(front, maxEntries);
      match ops[|ops| - 1]
      case SetOp(id, v) =>
        TouchExtends(h, Put(id, v), id);
        TouchKeepsTrack(r, h, Put(id, v), v, maxEntries);
        TrimKeepsTrack(Without(r, id) + [(id, v)], h + [Put(id, v)], maxEntries);
      case GetOp(id) =>
        match Lookup(r, id) {
          case Some(v) =>
            TouchExtends(h, Got(id, true), id);
            TouchKeepsTrack(r, h, Got(id, true), v, maxEntries);
          case None =>
            MissKeepsTrack(r, h, id, maxEntries);
        }
    }
  }

  lemma MissKeepsTrack<V>(r: seq<(int, V)>, h: seq<Seen<V>>, id: int, maxEntries: int)
    requires Tracks(r, h, maxEntries)
    ensures Tracks(r, h + [Got(id, false)], maxEntries)
  {
  }

  function Ids<V>(r: seq<(int, V)>, from: nat): set<int>
    requires from <= |r|
  {
    set i | from <= i < |r| :: r[i].0
  }

  lemma {:induction false} IdsFrom<V>(r: seq<(int, V)>, from: nat)
    requires from <= |r| && DistinctIds(r)
    ensures |Ids(r, from)| == |r| - from
    decreases |r| - from
  {
    if from == |r| {
    } else {
      IdsFrom(r, from + 1);
      assert Ids(r, from) == {r[from].0} + Ids(r, from + 1);
    }
  }

  lemma {:induction false} TouchedHasIndex<V>(h: seq<Seen<V>>, id: int)
    requires LastTouch(h, id) >= 0
    ensures h[LastTouch(h, id)].id == id
  {
    if h == [] || LastTouch(h, id) == |h| - 1 {
    } else {
      TouchedHasIndex(h[..|h| - 1], id);
    }
  }

  lemma Subset(a: set<int>, b: set<int>)
    requires a <= b
    ensures |a| <= |b|
  {
    assert b == a + (b - a);
  }

  lemma {:induction false} OrderedIsDistinct<V>(r: seq<(int, V)>, h: seq<Seen<V>>)
    requires Ordered(r, h)
    ensures DistinctIds(r)
  {
    forall i, j | 0 <= i < j < |r| ensures r[i].0 != r[j].0 {
      assert LastTouch(h, r[i].0) < LastTouch(h, r[j].0);
    }
  }

  // Ids touched later than a listed one are listed further on: a missing one is older than all
  // entries.
  lemma {:induction false} TouchedLaterIsListed<V>(r: seq<(int, V)>, h: seq<Seen<V>>, maxEntries: int, id: int, x: int)
    requires Tracks(r, h, maxEntries) && Position(r, id) < |r| && x in TouchedLater(h, id)
    ensures x in Ids(r, Position(r, id) + 1)
  {
    var k := Position(r, id);
    assert LastTouch(h, x) > LastTouch(h, r[k].0) >= 0;
    assert !Older(r, h, x, maxEntries);
    var j :| 0 <= j < |r| && r[j].0 == x;
    if j < k {
      assert false;
    }
  }

  lemma {:induction false} FewTouchedAfterAnEntry<V>(r: seq<(int, V)>, h: seq<Seen<V>>, maxEntries: int, id: int)
    requires Tracks(r, h, maxEntries) && Position(r, id) < |r|
    ensures |TouchedLater(h, id)| < |r|
  {
    var later := Ids(r, Position(r, id) + 1);
    forall x | x in TouchedLater(h, id) ensures x in later {
      TouchedLaterIsListed(r, h, maxEntries, id, x);
    }
    OrderedIsDistinct(r, h);
    IdsFrom(r, Position(r, id) + 1);
    Subset(TouchedLater(h, id), later);
  }

  // Every entry was touched later than a missing id.
  lemma {:induction false} EntryIsTouchedLater<V>(r: seq<(int, V)>, h: seq<Seen<V>>, maxEntries: int, id: int, i: nat)
    requires Ordered(r, h) && Older(r, h, id, maxEntries) && i < |r|
    ensures r[i].0 in TouchedLater(h, id)
  {
    TouchedHasIndex(h, r[i].0);
    assert LastTouch(h, h[LastTouch(h, r[i].0)].id) > LastTouch(h, id);
  }

  lemma {:induction false} ManyTouchedAfterAMissingId<V>(r: seq<(int, V)>, h: seq<Seen<V>>, maxEntries: int, id: int)
    requires Tracks(r, h, maxEntries) && Position(r, id) == |r| && LastTouch(h, id) >= 0
    ensures |TouchedLater(h, id)| >= Cap(maxEntries)
  {
    assert !Contains(r, id) && Older(r, h, id, maxEntries);
    forall x | x in Ids(r, 0) ensures x in TouchedLater(h, id) {
      var i :| 0 <= i < |r| && r[i].0 == x;
      EntryIsTouchedLater(r, h, maxEntries, id, i);
    }
    OrderedIsDistinct(r, h);
    IdsFrom(r, 0);
    Subset(Ids(r, 0), TouchedLater(h, id));
  }

  // After any history the cache holds exactly the most recently touched ids, as many as fit,
  // each with the value last set for it: an id is present if and only if it was touched and
  // fewer than `maxEntries` other ids were touched after it.
  lemma CacheHoldsMostRecentlyTouched<V>(ops: seq<Op<V>>, maxEntries: int, id: int)
    ensures var r, h := Entries(ops, maxEntries), History(ops, maxEntries);
            && (Lookup(r, id).Some? <==> LastTouch(h, id) >= 0 && |TouchedLater(h, id)| < Cap(maxEntries))
            && (Lookup(r, id).Some? ==> Lookup(r, id) == LastPut(h, id))
  {
    var r, h := Entries(ops, maxEntries), History(ops, maxEntries);
    EveryHistoryTracks(ops, maxEntries);
    if Position(r, id) < |r| {
      FewTouchedAfterAnEntry(r, h, maxEntries, id);
    } else if LastTouch(h, id) >= 0 {
      ManyTouchedAfterAMissingId(r, h, maxEntries, id);
    }
  }
}
