/**
 The keys in the native store during account switching: when they are those of the account
 whose wallet is set, and which commands the store receives. All accounts are derived from one
 mnemonic, each by its own index.
 */
module AccountKeys {
  import opened Wrappers
  import opened AccountSwitching
  import Cache = SnapshotCache
  import KeyStore

  // The store holds the keys of the wallet whenever no switch is running, and those of the
  // target from the database update of the native path, or the commit of any, on.
  predicate KeysFit(s: State) {
    && Exclusive(s)
    && (if !s.switching then s.native == s.wallet
        else
          var b := s.bodies[0];
          b.UpdatingDb? || b.Preloading? || b.Pausing? || b.Preloaded? ==> s.native == b.target)
  }

  // The steps that leave the store with another account's keys: a switch that fails after the
  // store has switched, and a fallback whose keys could not be stored; unless another switch
  // follows at once.
  predicate Strays(s: State, e: Event) {
    e.ResumeBody? && e.i < |s.bodies| &&
    var b, outcome := s.bodies[e.i], e.outcome;
    if Fails(b, outcome) then
      !Queued(s) && s.wallet != if outcome.NoKeys? && outcome.derived then b.target else s.native
    else
      && b.StoringKeys? && outcome.Refused? && s.native != b.target
      && !(Cache.Lookup(s.cache, b.target).Some? && Queued(s))
  }

  lemma FinishKeepsKeysIff(s: State)
    requires Exclusive(s) && s.switching
    ensures KeysFit(Finished(s, 0)) <==> Queued(s) || s.native == s.wallet
  {
  }

  lemma ActivationKeepsKeysIff(s: State)
    requires Exclusive(s) && s.switching
    ensures KeysFit(Activated(s, 0)) <==> Queued(s) || s.native == s.wallet
  {
  }

  lemma CommitKeepsKeysIff(s: State)
    requires Exclusive(s) && s.switching
    ensures KeysFit(Committed(s, 0)) <==>
            s.native == s.bodies[0].target || (Cache.Lookup(s.cache, s.bodies[0].target).Some? && Queued(s))
  {
  }

  lemma BodyKeepsKeysIff(s: State, outcome: Outcome)
    requires KeysFit(s) && s.switching && (s.bodies[0].Preloaded? ==> s.wallet == s.bodies[0].target)
    ensures KeysFit(BodyResumed(s, 0, outcome)) <==> !Strays(s, ResumeBody(0, outcome))
  {
    var t := s.bodies[0].target;
    FinishKeepsKeysIff(s.(failed := true));
    FinishKeepsKeysIff(s.(native := t, failed := true));
    if s.bodies[0].UpdatingDb? || s.bodies[0].StoringKeys? {
      CommitKeepsKeysIff(s);
      CommitKeepsKeysIff(s.(native := t));
    } else if s.bodies[0].Preloaded? {
      ActivationKeepsKeysIff(s);
    }
  }

  // A step keeps the store's keys in order exactly if it does not stray.
  lemma StepKeepsKeysIff(s: State, e: Event)
    requires KeysFit(s) && Consistent(s)
    ensures KeysFit(Step(s, e)) <==> !Strays(s, e)
  {
    match e
    case Request(target) =>
    case ResumeBody(i, outcome) => if i < |s.bodies| { BodyKeepsKeysIff(s, outcome); }
    case DbStep(i) =>
    case StartLoad(_, _) =>
    case ResumeLoad(i, outcome) =>
    case SnapshotEffect =>
    case StartRefresh =>
    case RefreshRead(i) =>
    case RefreshResumed(i, found) =>
  }

  // The case that matters: a refused database update, with nothing queued, leaves the target's
  // keys in the store under the old wallet.
  lemma RefusedUpdateStraysKeys(s: State)
    requires KeysFit(s) && Consistent(s) && s.switching && s.bodies[0].UpdatingDb? && !s.bodies[0].written
    requires s.active == s.wallet && !Queued(s)
    ensures var end := Step(s, ResumeBody(0, Refused));
            && !end.switching && end.active == end.wallet == s.wallet && end.native == s.bodies[0].target
            && (KeysFit(end) <==> s.bodies[0].target == s.wallet)
  {
  }

  predicate NoneStrays(s: State, es: seq<Event>)
    decreases es
  {
    es == [] || (!Strays(s, es[0]) && NoneStrays(Step(s, es[0]), es[1..]))
  }

  // ---------- What the store is told ----------

  type Index = Id -> nat

  function Issued(s: State, e: Event, mnemonic: string, index: Index): seq<KeyStore.Command> {
    if !e.ResumeBody? || e.i >= |s.bodies| then []
    else
      var b := s.bodies[e.i];
      if b.Deriving? && (e.outcome.Done? || (e.outcome.NoKeys? && e.outcome.derived)) then [KeyStore.Switch(index(b.target))]
      else if b.StoringKeys? && e.outcome.Done? then [KeyStore.Store(mnemonic, Some(index(b.target)))]
      else []
  }

  function Told(s: State, es: seq<Event>, mnemonic: string, index: Index): seq<KeyStore.Command>
    decreases es
  {
    if es == [] then [] else Issued(s, es[0], mnemonic, index) + Told(Step(s, es[0]), es[1..], mnemonic, index)
  }

  // The native side carries a command out only for accounts it can derive.
  predicate Derives(w: KeyStore.World, mnemonic: string, index: Index, s: State, es: seq<Event>)
    decreases es
  {
    es == [] ||
    ((Issued(s, es[0], mnemonic, index) != [] ==>
        KeyStore.Derive(w, mnemonic, index(s.bodies[es[0].i].target)).Some?) &&
     Derives(w, mnemonic, index, Step(s, es[0]), es[1..]))
  }

  // The keys of the account, and a mnemonic that differs from the given one in spaces at most.
  predicate HoldsKeysOf(w: KeyStore.World, mnemonic: string, index: Index, c: KeyStore.Contents, account: Id) {
    && KeyStore.Derive(w, mnemonic, index(account)).Some?
    && c.(mnemonic := None) == KeyStore.Holding(KeyStore.Derive(w, mnemonic, index(account)).value).(mnemonic := None)
    && c.mnemonic.Some? && KeyStore.Trim(c.mnemonic.value) == KeyStore.Trim(mnemonic)
  }

  lemma IssuedKeepsKeys(w: KeyStore.World, mnemonic: string, index: Index, c: KeyStore.Contents, s: State, e: Event)
    requires HoldsKeysOf(w, mnemonic, index, c, s.native) && Derives(w, mnemonic, index, s, [e])
    ensures HoldsKeysOf(w, mnemonic, index, KeyStore.Run(w, c, Issued(s, e, mnemonic, index)), Step(s, e).native)
  {
    var told := Issued(s, e, mnemonic, index);
    NativeFollowsIssued(s, e, mnemonic, index);
    if told != [] {
      assert KeyStore.Run(w, c, told) == KeyStore.Apply(w, c, told[0]);
    }
  }

  lemma FinishKeepsNative(s: State, i: nat)
    requires i < |s.bodies|
    ensures Finished(s, i).native == s.native
  {
  }

  lemma CommitKeepsNative(s: State, i: nat)
    requires i < |s.bodies|
    ensures Committed(s, i).native == s.native
  {
  }

  lemma NativeFollowsIssued(s: State, e: Event, mnemonic: string, index: Index)
    ensures Step(s, e).native == if Issued(s, e, mnemonic, index) == [] then s.native else s.bodies[e.i].target
  {
    match e
    case ResumeBody(i, outcome) =>
      if i < |s.bodies| {
        BodyFollowsIssued(s, i, outcome, mnemonic, index);
      }
    case Request(target) =>
    case DbStep(i) =>
    case StartLoad(_, _) =>
    case ResumeLoad(i, outcome) =>
    case SnapshotEffect =>
    case StartRefresh =>
    case RefreshRead(i) =>
    case RefreshResumed(i, found) =>
  }

  lemma BodyFollowsIssued(s: State, i: nat, outcome: Outcome, mnemonic: string, index: Index)
    requires i < |s.bodies|
    ensures BodyResumed(s, i, outcome).native ==
            if Issued(s, ResumeBody(i, outcome), mnemonic, index) == [] then s.native else s.bodies[i].target
  {
    var t := s.bodies[i].target;
    FinishKeepsNative(s.(failed := true), i);
    FinishKeepsNative(s.(native := t, failed := true), i);
    if s.bodies[i].UpdatingDb? || s.bodies[i].StoringKeys? {
      CommitKeepsNative(s, i);
      CommitKeepsNative(s.(native := t), i);
    } else if s.bodies[i].Preloaded? {
      FinishKeepsNative(s.(active := t, refreshes := s.refreshes + [None]), i);
    }
  }

  lemma {:induction false} RunKeepsKeys(w: KeyStore.World, mnemonic: string, index: Index, c: KeyStore.Contents,
                                        s: State, es: seq<Event>)
    requires HoldsKeysOf(w, mnemonic, index, c, s.native) && Derives(w, mnemonic, index, s, es)
    ensures HoldsKeysOf(w, mnemonic, index, KeyStore.Run(w, c, Told(s, es, mnemonic, index)), Run(s, es).native)
    decreases es
  {
    if es == [] {
    } else {
      var told, rest := Issued(s, es[0], mnemonic, index), Told(Step(s, es[0]), es[1..], mnemonic, index);
      IssuedKeepsKeys(w, mnemonic, index, c, s, es[0]);
      RunKeepsKeys(w, mnemonic, index, KeyStore.Run(w, c, told), Step(s, es[0]), es[1..]);
      KeyStore.RunConcats(w, c, told, rest);
    }
  }

  lemma {:induction false} RunKeepsKeysFit(s: State, es: seq<Event>)
    requires KeysFit(s) && Consistent(s) && AllowedRun(s, es) && NoneStrays(s, es)
    ensures KeysFit(Run(s, es))
    decreases es
  {
    if es == [] {
    } else {
      StepKeepsKeysIff(s, es[0]);
      StepKeepsConsistent(s, es[0]);
      RunKeepsKeysFit(Step(s, es[0]), es[1..]);
    }
  }

  // In every allowed run in which no step strays, whenever no switch is running the store
  // holds the keys of the active account.
  lemma StoredKeysAreTheActiveAccounts(w: KeyStore.World, mnemonic: string, index: Index, c: KeyStore.Contents,
                                       s: State, es: seq<Event>)
    requires KeysFit(s) && Consistent(s) && AllowedRun(s, es) && NoneStrays(s, es)
    requires HoldsKeysOf(w, mnemonic, index, c, s.native) && Derives(w, mnemonic, index, s, es)
    ensures var end := Run(s, es);
            !end.switching ==>
              HoldsKeysOf(w, mnemonic, index, KeyStore.Run(w, c, Told(s, es, mnemonic, index)), end.active)
  {
    RunKeepsKeys(w, mnemonic, index, c, s, es);
    RunKeepsKeysFit(s, es);
    RunKeepsConsistent(s, es);
  }
}
