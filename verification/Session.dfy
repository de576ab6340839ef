/**
 The HTTP server's session state: a rotating token and the store of used CSRF nonces. Clock
 readings and random strings are parameters; HMAC (section 2 of RFC 2104) is an
 uninterpreted function of key and text.
 */
module Session {
  import opened Wrappers
  import opened Text
  import Decimal

  const NONCE_EXPIRY_SECS: nat := 300
  const MAX_USED_NONCES: nat := 1000
  const SESSION_TOKEN_TTL_SECS: nat := 3600
  const CLOCK_SKEW_SECS: nat := 60

  /** Seconds since the epoch, far enough below 2^64 that a deadline cannot wrap. */
  type Clock = t: nat | t < 0x8000_0000_0000_0000

  type Hmac = (string, string) -> string
  type Stamp = (string, nat)

  // ---------- Nonce text ----------

  datatype NonceParts = NonceParts(time: string, random: string, hmac: string)

  // Splitting at the first two underscores; None if there are fewer.
  function Split(nonce: string): Option<NonceParts> {
    var i := IndexOf(nonce, '_');
    if i == |nonce| then None
    else
      var rest := nonce[i + 1..];
      var j := IndexOf(rest, '_');
      if j == |rest| then None
      else Some(NonceParts(nonce[..i], rest[..j], rest[j + 1..]))
  }

  function Payload(time: string, random: string): string {
    time + "_" + random
  }

  function Nonce(hmac: Hmac, secret: string, now: nat, random: string): string {
    var payload := Payload(Decimal.Print(now), random);
    payload + "_" + hmac(secret, payload)
  }

  // The time a nonce claims, if its text has the right shape and its HMAC is right.
  function Claim(hmac: Hmac, secret: string, nonce: string): Option<nat> {
    match Split(nonce)
    case None => None
    case Some(parts) =>
      match Decimal.ParseU64(parts.time)
      case None => None
      case Some(t) =>
        if parts.hmac == hmac(secret, Payload(parts.time, parts.random)) then Some(t) else None
  }

  // A nonce that was made with the secret: a time, a random part and the HMAC of both. The time
  // is a numeral, with a plus sign perhaps, that fits 64 bits.
  predicate Authentic(hmac: Hmac, secret: string, nonce: string, time: string, random: string, t: nat) {
    && '_' !in time && '_' !in random
    && nonce == time + "_" + random + "_" + hmac(secret, time + "_" + random)
    && var digits := if time != "" && time[0] == '+' then time[1..] else time;
       digits != "" && Decimal.AllDigits(digits) && Decimal.Value(digits) == t < 0x1_0000_0000_0000_0000
  }

  // An authentic nonce is timely from a minute before its time to five minutes after it.
  ghost predicate AuthenticAndTimely(hmac: Hmac, secret: string, nonce: string, now: nat) {
    exists time, random, t: nat :: Authentic(hmac, secret, nonce, time, random, t) && t - 60 <= now <= t + 300
  }

  // `time + 300` is computed in 64 bits.
  predicate Expired(time: nat, now: nat) {
    now > (time + NONCE_EXPIRY_SECS) % Decimal.U64_LIMIT
  }

  // ---------- The abstract session ----------

  datatype State = State(
    token: string, tokenCreatedAt: Clock, secret: string, stamps: seq<Stamp>, account: Option<nat>)

  function Names(stamps: seq<Stamp>): set<string> {
    set i | 0 <= i < |stamps| :: stamps[i].0
  }

  predicate Distinct(stamps: seq<Stamp>) {
    forall i, j :: 0 <= i < j < |stamps| ==> stamps[i].0 != stamps[j].0
  }

  function Live(stamps: seq<Stamp>, now: nat): (live: seq<Stamp>)
    ensures |live| <= |stamps|
  {
    if stamps == [] then []
    else
      var last := stamps[|stamps| - 1];
      Live(stamps[..|stamps| - 1], now) + (if Expired(last.1, now) then [] else [last])
  }

  function Newest(stamps: seq<Stamp>): seq<Stamp> {
    if |stamps| <= MAX_USED_NONCES then stamps else stamps[|stamps| - MAX_USED_NONCES..]
  }

  function Cleaned(stamps: seq<Stamp>, now: nat): seq<Stamp> {
    Newest(Live(stamps, now))
  }

  // The two clock readings of one validation: the first for the cleanup, the second for the nonce.
  predicate Accepts(hmac: Hmac, s: State, nonce: string, cleanupAt: nat, now: nat) {
    && nonce !in Names(Cleaned(s.stamps, cleanupAt))
    && var claim := Claim(hmac, s.secret, nonce);
       claim.Some? && !Expired(claim.value, now) && claim.value <= now + CLOCK_SKEW_SECS
  }

  function AfterValidate(hmac: Hmac, s: State, nonce: string, cleanupAt: nat, now: nat): State {
    var cleaned := Cleaned(s.stamps, cleanupAt);
    s.(stamps := if Accepts(hmac, s, nonce, cleanupAt, now)
                 then cleaned + [(nonce, Claim(hmac, s.secret, nonce).value)] else cleaned)
  }

  ghost predicate Invariant(s: State) {
    Distinct(s.stamps) && |s.stamps| <= MAX_USED_NONCES + 1
  }

  // ---------- The session as the server keeps it ----------

  class SessionState {
    const hmac: Hmac
    var token: string
    var tokenCreatedAt: Clock
    var csrfSecret: string
    var usedNonces: set<string>
    var nonceTimestamps: seq<Stamp>
    var accountId: Option<nat>

    // The set of used nonces is exactly the set of strings in the ordered list.
    ghost predicate Valid()
      reads this
    {
      usedNonces == Names(nonceTimestamps) && Invariant(Abstract())
    }

    function Abstract(): State
      reads this
    {
      State(token, tokenCreatedAt, csrfSecret, nonceTimestamps, accountId)
    }

    constructor (hmac: Hmac, token: string, secret: string, now: Clock)
      ensures Valid() && this.hmac == hmac
      ensures Abstract() == State(token, now, secret, [], None)
    {
      this.hmac := hmac;
      this.token, tokenCreatedAt, csrfSecret := token, now, secret;
      usedNonces, nonceTimestamps, accountId := {}, [], None;
    }

    method RotateToken(newToken: string, now: Clock)
      requires Valid()
      modifies this`token, this`tokenCreatedAt
      ensures Valid()
      ensures Abstract() == old(Abstract()).(token := newToken, tokenCreatedAt := now)
      ensures Abstract() == Step(hmac, old(Abstract()), Rotate(newToken, now))
    {
      token, tokenCreatedAt := newToken, now;
    }

    function IsTokenExpired(now: Clock): bool
      reads this
    {
      now > tokenCreatedAt + SESSION_TOKEN_TTL_SECS
    }

    function GenerateNonce(now: Clock, random: string): string
      reads this
    {
      Nonce(hmac, csrfSecret, now, random)
    }

    method CleanupExpiredNonces(now: Clock)
      requires Valid()
      modifies this`usedNonces, this`nonceTimestamps
      ensures Valid()
      ensures Abstract() == old(Abstract()).(stamps := Cleaned(old(nonceTimestamps), now))
      ensures var live := Live(old(nonceTimestamps), now);
              nonceTimestamps == if |live| <= 1000 then live else live[|live| - 1000..]
    {
      DropExpired(now);
      ghost var live := nonceTimestamps;
      while |nonceTimestamps| > MAX_USED_NONCES
        invariant |nonceTimestamps| <= |live| && nonceTimestamps == live[|live| - |nonceTimestamps|..]
        invariant |live| > MAX_USED_NONCES ==> |nonceTimestamps| >= MAX_USED_NONCES
        invariant nonceTimestamps != live ==> |live| > MAX_USED_NONCES
        invariant Distinct(nonceTimestamps) && usedNonces == Names(nonceTimestamps)
      {
        NamesOfTail(nonceTimestamps);
        usedNonces := usedNonces - {nonceTimestamps[0].0};
        nonceTimestamps := nonceTimestamps[1..];
      }
    }

    // The `retain` that both cleanups perform, with the matching removals from the set.
    method DropExpired(now: Clock)
      requires Valid()
      modifies this`usedNonces, this`nonceTimestamps
      ensures Valid()
      ensures Abstract() == old(Abstract()).(stamps := Live(old(nonceTimestamps), now))
    {
      nonceTimestamps, usedNonces := Retain(nonceTimestamps, usedNonces, now);
    }

    method ValidateNonce(nonce: string, cleanupAt: Clock, now: Clock) returns (accepted: bool)
      requires Valid() && cleanupAt <= now
      modifies this`usedNonces, this`nonceTimestamps
      ensures Valid()
      ensures accepted <==> Accepts(hmac, old(Abstract()), nonce, cleanupAt, now)
      ensures accepted <==>
                nonce !in Names(Cleaned(old(nonceTimestamps), cleanupAt)) && AuthenticAndTimely(hmac, csrfSecret, nonce, now)
      ensures Abstract() == AfterValidate(hmac, old(Abstract()), nonce, cleanupAt, now)
    {
      AcceptsIffAuthentic(hmac, Abstract(), nonce, cleanupAt, now);
      CleanupExpiredNonces(cleanupAt);
      if nonce in usedNonces {
        return false;
      }
      var parts := Split(nonce);
      if parts.None? {
        return false;
      }
      var nonceTime := Decimal.ParseU64(parts.value.time);
      if nonceTime.None? {
        return false;
      }
      if parts.value.hmac != hmac(csrfSecret, Payload(parts.value.time, parts.value.random)) {
        return false;
      }
      if now > (nonceTime.value + NONCE_EXPIRY_SECS) % Decimal.U64_LIMIT {
        return false;
      }
      if nonceTime.value > now + CLOCK_SKEW_SECS {
        return false;
      }
      Record(nonce, nonceTime.value);
      return true;
    }

    method Record(nonce: string, time: nat)
      requires Valid() && nonce !in usedNonces && |nonceTimestamps| <= MAX_USED_NONCES
      modifies this`usedNonces, this`nonceTimestamps
      ensures Valid()
      ensures Abstract() == old(Abstract()).(stamps := old(nonceTimestamps) + [(nonce, time)])
    {
      usedNonces := usedNonces + {nonce};
      NamesOfSnoc(nonceTimestamps, (nonce, time));
      DistinctSnoc(nonceTimestamps, (nonce, time));
      nonceTimestamps := nonceTimestamps + [(nonce, time)];
    }

    // Refuses when four fifths of the capacity is taken by unexpired used nonces.
    method GenerateCsrfNonce(now: Clock, random: string) returns (nonce: Option<string>)
      requires Valid()
      modifies this`usedNonces, this`nonceTimestamps
      ensures Valid()
      ensures Abstract() == old(Abstract()).(stamps := Live(old(nonceTimestamps), now))
      ensures nonce == if |Live(old(nonceTimestamps), now)| >= 800 then None
                       else Some(Nonce(hmac, csrfSecret, now, random))
    {
      DropExpired(now);
      if |nonceTimestamps| >= MAX_USED_NONCES * 4 / 5 {
        return None;
      }
      nonce := Some(GenerateNonce(now, random));
    }

    method RotateForAccount(account: nat, newToken: string, now: Clock)
      requires Valid()
      modifies this
      ensures Valid()
      ensures Abstract() == State(newToken, now, old(csrfSecret), [], Some(account))
      ensures Abstract() == Step(hmac, old(Abstract()), RotateAccount(account, newToken, now))
    {
      RotateToken(newToken, now);
      usedNonces, nonceTimestamps := {}, [];
      accountId := Some(account);
    }
  }

  // ---------- Lists of stamps ----------

  method Retain(stamps: seq<Stamp>, names: set<string>, now: nat) returns (kept: seq<Stamp>, used: set<string>)
    requires Distinct(stamps) && names == Names(stamps)
    ensures kept == Live(stamps, now) && Distinct(kept) && used == Names(kept)
  {
    kept, used := [], names;
    RetainStart(stamps, now);
    for i := 0 to |stamps|
      invariant Retained(stamps, i, now, kept, used)
    {
      RetainStep(stamps, i, now, kept, used);
      if Expired(stamps[i].1, now) {
        used := used - {stamps[i].0};
      } else {
        kept := kept + [stamps[i]];
      }
    }
    RetainEnd(stamps, now, kept, used);
  }

  // Half-way through the `retain`: `kept` is what survives of the first i stamps, and the
  // set still holds exactly the kept names and the names not looked at yet.
  ghost predicate Retained(stamps: seq<Stamp>, i: nat, now: nat, kept: seq<Stamp>, used: set<string>) {
    && i <= |stamps| && kept == Live(stamps[..i], now)
    && Distinct(kept + stamps[i..]) && used == Names(kept + stamps[i..])
  }

  lemma RetainStart(stamps: seq<Stamp>, now: nat)
    requires Distinct(stamps)
    ensures Retained(stamps, 0, now, [], Names(stamps))
  {
    assert [] + stamps[0..] == stamps;
  }

  lemma RetainEnd(stamps: seq<Stamp>, now: nat, kept: seq<Stamp>, used: set<string>)
    requires Retained(stamps, |stamps|, now, kept, used)
    ensures kept == Live(stamps, now) && Distinct(kept) && used == Names(kept)
  {
    assert stamps[..|stamps|] == stamps && kept + stamps[|stamps|..] == kept;
  }

  lemma RetainStep(stamps: seq<Stamp>, i: nat, now: nat, kept: seq<Stamp>, used: set<string>)
    requires i < |stamps| && Retained(stamps, i, now, kept, used)
    ensures if Expired(stamps[i].1, now)
            then Retained(stamps, i + 1, now, kept, used - {stamps[i].0})
            else Retained(stamps, i + 1, now, kept + [stamps[i]], used)
  {
    assert stamps[..i + 1][..i] == stamps[..i];
    assert stamps[i..][1..] == stamps[i + 1..];
    if Expired(stamps[i].1, now) {
      NamesWithout(kept, stamps[i..]);
    } else {
      assert kept + stamps[i..] == (kept + [stamps[i]]) + stamps[i + 1..];
    }
  }

  lemma DistinctSnoc(stamps: seq<Stamp>, x: Stamp)
    requires Distinct(stamps) && x.0 !in Names(stamps)
    ensures Distinct(stamps + [x])
  {
  }

  lemma NamesOfSnoc(stamps: seq<Stamp>, x: Stamp)
    ensures Names(stamps + [x]) == Names(stamps) + {x.0}
  {
    var all := stamps + [x];
    assert all[|stamps|] == x;
    forall n | n in Names(stamps)
      ensures n in Names(all)
    {
      var i :| 0 <= i < |stamps| && stamps[i].0 == n;
      assert all[i].0 == n;
    }
  }

  lemma NamesWithout(kept: seq<Stamp>, rest: seq<Stamp>)
    requires rest != [] && Distinct(kept + rest)
    ensures Distinct(kept + rest[1..])
    ensures Names(kept + rest[1..]) == Names(kept + rest) - {rest[0].0}
  {
    var all, less := kept + rest, kept + rest[1..];
    assert forall i :: 0 <= i < |less| ==> less[i] == all[if i < |kept| then i else i + 1];
    assert all[|kept|] == rest[0];
    forall n | n in Names(all) && n != rest[0].0
      ensures n in Names(less)
    {
      var i :| 0 <= i < |all| && all[i].0 == n;
      assert less[if i < |kept| then i else i - 1] == all[i];
    }
  }

  lemma NamesOfTail(stamps: seq<Stamp>)
    requires stamps != [] && Distinct(stamps)
    ensures Distinct(stamps[1..]) && Names(stamps[1..]) == Names(stamps) - {stamps[0].0}
  {
  }

  lemma {:induction false} LiveIsUnexpiredPart(stamps: seq<Stamp>, now: nat)
    ensures forall x :: x in Live(stamps, now) <==> x in stamps && !Expired(x.1, now)
    ensures Distinct(stamps) ==> Distinct(Live(stamps, now))
  {
    if stamps == [] {
    } else {
      var front, last := stamps[..|stamps| - 1], stamps[|stamps| - 1];
      LiveIsUnexpiredPart(front, now);
      assert stamps == front + [last];
    }
  }

  lemma CleanedIsPartOfStamps(stamps: seq<Stamp>, now: nat)
    requires Distinct(stamps)
    ensures Distinct(Cleaned(stamps, now))
    ensures forall x :: x in Cleaned(stamps, now) ==> x in stamps
  {
    var live := Live(stamps, now);
    LiveIsUnexpiredPart(stamps, now);
    assert forall x :: x in Newest(live) ==> x in live;
  }

  lemma NamesHold(stamps: seq<Stamp>, n: string)
    ensures n in Names(stamps) <==> exists x :: x in stamps && x.0 == n
  {
  }

  // ---------- Runs ----------

  datatype Event =
    | Validate(nonce: string, cleanupAt: Clock, at: Clock)
    | GenerateCsrf(at: Clock)
    | Rotate(token: string, at: Clock)
    | RotateAccount(account: nat, token: string, at: Clock)

  function Step(hmac: Hmac, s: State, e: Event): State {
    match e
    case Validate(nonce, cleanupAt, at) => AfterValidate(hmac, s, nonce, cleanupAt, at)
    case GenerateCsrf(at) => s.(stamps := Live(s.stamps, at))
    case Rotate(token, at) => s.(token := token, tokenCreatedAt := at)
    case RotateAccount(account, token, at) => State(token, at, s.secret, [], Some(account))
  }

  function Run(hmac: Hmac, s: State, es: seq<Event>): State
    decreases es
  {
    if es == [] then s else Run(hmac, Step(hmac, s, es[0]), es[1..])
  }

  // Clock readings never go back.
  predicate Timed(es: seq<Event>, now: nat) {
    es == [] ||
    (var start := if es[0].Validate? then es[0].cleanupAt else es[0].at;
     now <= start <= es[0].at && Timed(es[1..], es[0].at))
  }

  function Acceptances(hmac: Hmac, s: State, es: seq<Event>, nonce: string): nat
    decreases es
  {
    if es == [] then 0
    else
      (if es[0].Validate? && es[0].nonce == nonce && Accepts(hmac, s, nonce, es[0].cleanupAt, es[0].at)
       then 1 else 0) + Acceptances(hmac, Step(hmac, s, es[0]), es[1..], nonce)
  }

  // No account rotation, and at most 1000 unexpired recorded nonces whenever a validation cleans up.
  predicate Roomy(hmac: Hmac, s: State, es: seq<Event>)
    decreases es
  {
    es == [] ||
    (!es[0].RotateAccount? &&
     (es[0].Validate? ==> |Live(s.stamps, es[0].cleanupAt)| <= MAX_USED_NONCES) &&
     Roomy(hmac, Step(hmac, s, es[0]), es[1..]))
  }

  // Every recorded stamp carries the time its nonce claims.
  ghost predicate Honest(hmac: Hmac, s: State) {
    forall x :: x in s.stamps ==> Claim(hmac, s.secret, x.0) == Some(x.1)
  }

  lemma StepKeepsInvariant(hmac: Hmac, s: State, e: Event)
    requires Invariant(s) && Honest(hmac, s)
    ensures Invariant(Step(hmac, s, e)) && Honest(hmac, Step(hmac, s, e))
  {
    if e.Validate? {
      var cleaned := Cleaned(s.stamps, e.cleanupAt);
      CleanedIsPartOfStamps(s.stamps, e.cleanupAt);
      assert |cleaned| <= MAX_USED_NONCES;
      if Accepts(hmac, s, e.nonce, e.cleanupAt, e.at) {
        DistinctSnoc(cleaned, (e.nonce, Claim(hmac, s.secret, e.nonce).value));
      }
    } else if e.GenerateCsrf? {
      LiveIsUnexpiredPart(s.stamps, e.at);
    }
  }

  lemma {:induction false} EveryRunKeepsInvariant(hmac: Hmac, s: State, es: seq<Event>)
    requires Invariant(s) && Honest(hmac, s)
    ensures Invariant(Run(hmac, s, es)) && Honest(hmac, Run(hmac, s, es))
    decreases es
  {
    if es == [] {
    } else {
      StepKeepsInvariant(hmac, s, es[0]);
      EveryRunKeepsInvariant(hmac, Step(hmac, s, es[0]), es[1..]);
    }
  }

  // ---------- A nonce is good for one use ----------

  // The nonce cannot be accepted from `now` on: it is recorded, or it has expired.
  ghost predicate Spent(hmac: Hmac, s: State, nonce: string, now: nat) {
    var claim := Claim(hmac, s.secret, nonce);
    claim.Some? && (nonce in Names(s.stamps) || Expired(claim.value, now))
  }

  lemma DroppedOnlyWhenExpired(hmac: Hmac, s: State, nonce: string, now: nat)
    requires Honest(hmac, s) && nonce in Names(s.stamps)
    ensures nonce in Names(Live(s.stamps, now)) || Expired(Claim(hmac, s.secret, nonce).value, now)
  {
    LiveIsUnexpiredPart(s.stamps, now);
    NamesHold(s.stamps, nonce);
    NamesHold(Live(s.stamps, now), nonce);
  }

  // One validation, of this or another nonce, with room for all live ones.
  lemma SpentStaysSpent(hmac: Hmac, s: State, now: nat, nonce: string, tried: string, cleanupAt: Clock, at: Clock)
    requires Honest(hmac, s) && Invariant(s) && Spent(hmac, s, nonce, now)
    requires now <= cleanupAt <= at && |Live(s.stamps, cleanupAt)| <= MAX_USED_NONCES
    ensures !Accepts(hmac, s, nonce, cleanupAt, at)
    ensures Spent(hmac, AfterValidate(hmac, s, tried, cleanupAt, at), nonce, at)
  {
    if nonce in Names(s.stamps) {
      DroppedOnlyWhenExpired(hmac, s, nonce, cleanupAt);
    }
    ValidationForgetsNothing(hmac, s, tried, cleanupAt, at);
  }

  lemma ValidationForgetsNothing(hmac: Hmac, s: State, tried: string, cleanupAt: nat, at: nat)
    ensures var after := AfterValidate(hmac, s, tried, cleanupAt, at);
            Names(Cleaned(s.stamps, cleanupAt)) <= Names(after.stamps) && after.secret == s.secret
  {
    if Accepts(hmac, s, tried, cleanupAt, at) {
      NamesOfSnoc(Cleaned(s.stamps, cleanupAt), (tried, Claim(hmac, s.secret, tried).value));
    }
  }

  lemma AcceptedIsSpent(hmac: Hmac, s: State, nonce: string, cleanupAt: Clock, at: Clock)
    requires Accepts(hmac, s, nonce, cleanupAt, at)
    ensures Spent(hmac, AfterValidate(hmac, s, nonce, cleanupAt, at), nonce, at)
  {
    NamesOfSnoc(Cleaned(s.stamps, cleanupAt), (nonce, Claim(hmac, s.secret, nonce).value));
  }

  lemma {:induction false} SpentNonceIsRejected(hmac: Hmac, s: State, es: seq<Event>, now: nat, nonce: string)
    requires Honest(hmac, s) && Invariant(s) && Timed(es, now) && Roomy(hmac, s, es)
    requires Spent(hmac, s, nonce, now)
    ensures Acceptances(hmac, s, es, nonce) == 0
    decreases es
  {
    if es == [] {
    } else {
      var e, next := es[0], Step(hmac, s, es[0]);
      StepKeepsInvariant(hmac, s, e);
      if e.Validate? {
        SpentStaysSpent(hmac, s, now, nonce, e.nonce, e.cleanupAt, e.at);
      } else if e.GenerateCsrf? && nonce in Names(s.stamps) {
        DroppedOnlyWhenExpired(hmac, s, nonce, e.at);
      }
      SpentNonceIsRejected(hmac, next, es[1..], e.at, nonce);
    }
  }

  // In every such run each string is accepted at most once.
  lemma {:induction false} AcceptedAtMostOnce(hmac: Hmac, s: State, es: seq<Event>, now: nat, nonce: string)
    requires Honest(hmac, s) && Invariant(s) && Timed(es, now) && Roomy(hmac, s, es)
    ensures Acceptances(hmac, s, es, nonce) <= 1
    decreases es
  {
    if es == [] {
    } else {
      var e, next := es[0], Step(hmac, s, es[0]);
      StepKeepsInvariant(hmac, s, e);
      if e.Validate? && e.nonce == nonce && Accepts(hmac, s, nonce, e.cleanupAt, e.at) {
        AcceptedIsSpent(hmac, s, nonce, e.cleanupAt, e.at);
        SpentNonceIsRejected(hmac, next, es[1..], e.at, nonce);
      } else {
        AcceptedAtMostOnce(hmac, next, es[1..], e.at, nonce);
      }
    }
  }

  // The nonce is among the oldest entries that this cleanup drops for lack of room.
  predicate Evicted(s: State, nonce: string, cleanupAt: nat) {
    var live := Live(s.stamps, cleanupAt);
    |live| > MAX_USED_NONCES && nonce in Names(live[..|live| - MAX_USED_NONCES])
  }

  lemma AcceptsAccordingToRecord(hmac: Hmac, s: State, nonce: string, cleanupAt: nat, now: nat)
    requires var claim := Claim(hmac, s.secret, nonce); claim.Some? && claim.value <= now + CLOCK_SKEW_SECS
    ensures Accepts(hmac, s, nonce, cleanupAt, now) <==>
            nonce !in Names(Cleaned(s.stamps, cleanupAt)) && !Expired(Claim(hmac, s.secret, nonce).value, now)
  {
  }

  // ---------- When a used nonce is accepted again, over whole runs ----------

  // Whether a used nonce has gone from the record other than by expiring: a cleanup has evicted
  // it, or an account rotation has cleared the record, and it was not accepted again since.
  predicate LostBy(hmac: Hmac, s: State, e: Event, nonce: string, lost: bool) {
    match e
    case Validate(tried, cleanupAt, at) =>
      (lost || Evicted(s, nonce, cleanupAt)) && !(tried == nonce && Accepts(hmac, s, nonce, cleanupAt, at))
    case GenerateCsrf(_) => lost
    case Rotate(_, _) => lost
    case RotateAccount(_, _, _) => true
  }

  predicate LostDuring(hmac: Hmac, s: State, es: seq<Event>, nonce: string, lost: bool)
    decreases es
  {
    if es == [] then lost else LostDuring(hmac, Step(hmac, s, es[0]), es[1..], nonce, LostBy(hmac, s, es[0], nonce, lost))
  }

  function LastTime(es: seq<Event>, now: nat): nat {
    if es == [] then now else es[|es| - 1].at
  }

  // Until it expires, the nonce is on record exactly while it is not lost.
  ghost predicate Tracked(hmac: Hmac, s: State, nonce: string, lost: bool, now: nat) {
    var claim := Claim(hmac, s.secret, nonce);
    && Honest(hmac, s) && Invariant(s) && claim.Some? && claim.value <= now + CLOCK_SKEW_SECS
    && (!Expired(claim.value, now) ==> (nonce in Names(s.stamps) <==> !lost))
  }

  lemma CleanupKeepsUnlessEvicted(s: State, nonce: string, cleanupAt: nat)
    requires Distinct(Live(s.stamps, cleanupAt))
    ensures nonce in Names(Cleaned(s.stamps, cleanupAt)) <==>
            nonce in Names(Live(s.stamps, cleanupAt)) && !Evicted(s, nonce, cleanupAt)
  {
  }

  lemma LiveUnlessLost(hmac: Hmac, s: State, nonce: string, lost: bool, now: nat, cleanupAt: nat)
    requires Tracked(hmac, s, nonce, lost, now) && now <= cleanupAt
    requires !Expired(Claim(hmac, s.secret, nonce).value, cleanupAt)
    ensures nonce in Names(Live(s.stamps, cleanupAt)) <==> !lost
    ensures Distinct(Live(s.stamps, cleanupAt))
  {
    LiveIsUnexpiredPart(s.stamps, cleanupAt);
    if nonce in Names(s.stamps) {
      DroppedOnlyWhenExpired(hmac, s, nonce, cleanupAt);
    } else {
      NothingAddedByCleanup(s.stamps, cleanupAt, nonce);
    }
  }

  lemma ValidationTracks(hmac: Hmac, s: State, nonce: string, lost: bool, now: nat, tried: string,
                         cleanupAt: Clock, at: Clock)
    requires Tracked(hmac, s, nonce, lost, now) && now <= cleanupAt <= at
    ensures var e := Validate(tried, cleanupAt, at);
            Tracked(hmac, Step(hmac, s, e), nonce, LostBy(hmac, s, e, nonce, lost), at)
  {
    StepKeepsInvariant(hmac, s, Validate(tried, cleanupAt, at));
    if !Expired(Claim(hmac, s.secret, nonce).value, at) {
      LiveUnlessLost(hmac, s, nonce, lost, now, cleanupAt);
      CleanupKeepsUnlessEvicted(s, nonce, cleanupAt);
      if Accepts(hmac, s, tried, cleanupAt, at) {
        NamesOfSnoc(Cleaned(s.stamps, cleanupAt), (tried, Claim(hmac, s.secret, tried).value));
      }
    }
  }

  lemma StepTracks(hmac: Hmac, s: State, nonce: string, lost: bool, now: nat, e: Event)
    requires Tracked(hmac, s, nonce, lost, now) && Timed([e], now)
    ensures Tracked(hmac, Step(hmac, s, e), nonce, LostBy(hmac, s, e, nonce, lost), e.at)
  {
    StepKeepsInvariant(hmac, s, e);
    match e
    case Validate(tried, cleanupAt, at) => ValidationTracks(hmac, s, nonce, lost, now, tried, cleanupAt, at);
    case GenerateCsrf(at) =>
      if nonce in Names(s.stamps) {
        DroppedOnlyWhenExpired(hmac, s, nonce, at);
      } else {
        NothingAddedByCleanup(s.stamps, at, nonce);
      }
    case Rotate(_, _) =>
    case RotateAccount(_, _, _) =>
  }

  lemma {:induction false} TrackedNonceAcceptedIffLost(hmac: Hmac, s: State, es: seq<Event>, start: nat, nonce: string,
                                                       lost: bool, cleanupAt: Clock, now: Clock)
    requires Tracked(hmac, s, nonce, lost, start)
    requires Timed(es, start) && LastTime(es, start) <= cleanupAt <= now
    ensures var end := Run(hmac, s, es);
            Accepts(hmac, end, nonce, cleanupAt, now) <==>
            && !Expired(Claim(hmac, s.secret, nonce).value, now)
            && (LostDuring(hmac, s, es, nonce, lost) || Evicted(end, nonce, cleanupAt))
    decreases es
  {
    if es == [] {
      AcceptsAccordingToRecord(hmac, s, nonce, cleanupAt, now);
      if !Expired(Claim(hmac, s.secret, nonce).value, now) {
        LiveUnlessLost(hmac, s, nonce, lost, start, cleanupAt);
        CleanupKeepsUnlessEvicted(s, nonce, cleanupAt);
      }
    } else {
      StepTracks(hmac, s, nonce, lost, start, es[0]);
      TrackedNonceAcceptedIffLost(hmac, Step(hmac, s, es[0]), es[1..], es[0].at, nonce,
                                  LostBy(hmac, s, es[0], nonce, lost), cleanupAt, now);
    }
  }

  // After any run, a nonce that was accepted before the run is accepted again exactly if it has
  // not expired and some cleanup since its last acceptance, this validation's included, has
  // evicted it, or an account rotation has cleared the record.
  lemma UsedNonceAcceptedAgainIffLost(hmac: Hmac, s: State, used: Event, es: seq<Event>, cleanupAt: Clock, now: Clock)
    requires Honest(hmac, s) && Invariant(s)
    requires used.Validate? && used.cleanupAt <= used.at && Accepts(hmac, s, used.nonce, used.cleanupAt, used.at)
    requires Timed(es, used.at) && LastTime(es, used.at) <= cleanupAt <= now
    ensures var next := Step(hmac, s, used);
            var end := Run(hmac, next, es);
            Accepts(hmac, end, used.nonce, cleanupAt, now) <==>
            && !Expired(Claim(hmac, s.secret, used.nonce).value, now)
            && (LostDuring(hmac, next, es, used.nonce, false) || Evicted(end, used.nonce, cleanupAt))
  {
    StepKeepsInvariant(hmac, s, used);
    AcceptedIsRecorded(hmac, s, used);
    TrackedNonceAcceptedIffLost(hmac, Step(hmac, s, used), es, used.at, used.nonce, false, cleanupAt, now);
  }

  lemma AcceptedIsRecorded(hmac: Hmac, s: State, used: Event)
    requires used.Validate? && Accepts(hmac, s, used.nonce, used.cleanupAt, used.at)
    ensures used.nonce in Names(Step(hmac, s, used).stamps)
  {
    NamesOfSnoc(Cleaned(s.stamps, used.cleanupAt), (used.nonce, Claim(hmac, s.secret, used.nonce).value));
  }

  // ---------- A run that accepts a nonce twice ----------

  // The i-th of many nonces made at one time, by its random part.
  function Numbered(hmac: Hmac, secret: string, t: Clock, i: nat): string {
    Nonce(hmac, secret, t, Decimal.Print(i))
  }

  function NumberedStamps(hmac: Hmac, secret: string, t: Clock, n: nat): (stamps: seq<Stamp>)
    ensures |stamps| == n
  {
    seq(n, i requires 0 <= i < n => (Numbered(hmac, secret, t, i), t))
  }

  function NumberedEvents(hmac: Hmac, secret: string, t: Clock, n: nat): (es: seq<Event>)
    ensures |es| == n
  {
    seq(n, i requires 0 <= i < n => Validate(Numbered(hmac, secret, t, i), t, t))
  }

  lemma NumberedIsFresh(hmac: Hmac, secret: string, t: Clock, i: nat, j: nat)
    ensures Claim(hmac, secret, Numbered(hmac, secret, t, i)) == Some(t)
    ensures Numbered(hmac, secret, t, i) == Numbered(hmac, secret, t, j) <==> i == j
  {
    assert '_' !in Decimal.Print(i) && '_' !in Decimal.Print(j);
    FreshNonceSplits(hmac, secret, t, Decimal.Print(i));
    FreshNonceSplits(hmac, secret, t, Decimal.Print(j));
    Decimal.ValueOfPrint(i);
    Decimal.ValueOfPrint(j);
  }

  lemma {:induction false} NumberedAreLive(hmac: Hmac, secret: string, t: Clock, n: nat)
    ensures Live(NumberedStamps(hmac, secret, t, n), t) == NumberedStamps(hmac, secret, t, n)
  {
    var stamps := NumberedStamps(hmac, secret, t, n);
    if n == 0 {
    } else {
      NumberedAreLive(hmac, secret, t, n - 1);
      assert stamps[..n - 1] == NumberedStamps(hmac, secret, t, n - 1);
      assert !Expired(t, t);
    }
  }

  lemma NumberedAreKept(hmac: Hmac, secret: string, t: Clock, n: nat)
    requires n <= MAX_USED_NONCES
    ensures Cleaned(NumberedStamps(hmac, secret, t, n), t) == NumberedStamps(hmac, secret, t, n)
  {
    NumberedAreLive(hmac, secret, t, n);
  }

  lemma NumberedIsNew(hmac: Hmac, secret: string, t: Clock, n: nat)
    ensures Numbered(hmac, secret, t, n) !in Names(NumberedStamps(hmac, secret, t, n))
  {
    var nonce, stamps := Numbered(hmac, secret, t, n), NumberedStamps(hmac, secret, t, n);
    if nonce in Names(stamps) {
      var i :| 0 <= i < n && stamps[i].0 == nonce;
      NumberedIsFresh(hmac, secret, t, i, n);
    }
  }

  // Validating the next numbered nonce with the first n on record.
  lemma NumberedStep(hmac: Hmac, s: State, t: Clock, n: nat, nonce: string, next: seq<Stamp>)
    requires s.stamps == NumberedStamps(hmac, s.secret, t, n) && n <= MAX_USED_NONCES
    requires nonce == Numbered(hmac, s.secret, t, n) && next == NumberedStamps(hmac, s.secret, t, n + 1)
    ensures AfterValidate(hmac, s, nonce, t, t) == s.(stamps := next)
  {
    NumberedFacts(hmac, s.secret, t, n, nonce, s.stamps, next);
    AcceptedIsAppended(hmac, s, nonce, t, t);
  }

  lemma NumberedFacts(hmac: Hmac, secret: string, t: Clock, n: nat, nonce: string, stamps: seq<Stamp>, next: seq<Stamp>)
    requires stamps == NumberedStamps(hmac, secret, t, n) && n <= MAX_USED_NONCES
    requires nonce == Numbered(hmac, secret, t, n) && next == NumberedStamps(hmac, secret, t, n + 1)
    ensures Cleaned(stamps, t) == stamps && nonce !in Names(stamps)
    ensures Claim(hmac, secret, nonce) == Some(t) && !Expired(t, t)
    ensures stamps + [(nonce, t)] == next
  {
    NumberedAreKept(hmac, secret, t, n);
    NumberedIsFresh(hmac, secret, t, n, n);
    NumberedIsNew(hmac, secret, t, n);
    NumberedStampsSnoc(hmac, secret, t, n);
  }

  lemma AcceptedIsAppended(hmac: Hmac, s: State, nonce: string, now: Clock, time: nat)
    requires Cleaned(s.stamps, now) == s.stamps && nonce !in Names(s.stamps)
    requires Claim(hmac, s.secret, nonce) == Some(time) && !Expired(time, now) && time <= now + CLOCK_SKEW_SECS
    ensures AfterValidate(hmac, s, nonce, now, now) == s.(stamps := s.stamps + [(nonce, time)])
  {
  }

  lemma NumberedStampsSnoc(hmac: Hmac, secret: string, t: Clock, n: nat)
    ensures NumberedStamps(hmac, secret, t, n) + [(Numbered(hmac, secret, t, n), t)]
         == NumberedStamps(hmac, secret, t, n + 1)
  {
  }

  lemma {:induction false} RunConcats(hmac: Hmac, s: State, before: seq<Event>, after: seq<Event>, nonce: string)
    ensures Run(hmac, s, before + after) == Run(hmac, Run(hmac, s, before), after)
    ensures Acceptances(hmac, s, before + after, nonce)
         == Acceptances(hmac, s, before, nonce) + Acceptances(hmac, Run(hmac, s, before), after, nonce)
    decreases before
  {
    if before == [] {
      assert before + after == after;
    } else {
      assert (before + after)[1..] == before[1..] + after;
      RunConcats(hmac, Step(hmac, s, before[0]), before[1..], after, nonce);
    }
  }

  lemma NumberedEventsSnoc(hmac: Hmac, secret: string, t: Clock, n: nat)
    ensures NumberedEvents(hmac, secret, t, n + 1)
         == NumberedEvents(hmac, secret, t, n) + [Validate(Numbered(hmac, secret, t, n), t, t)]
  {
  }

  lemma RunOfOne(hmac: Hmac, s: State, e: Event)
    ensures Run(hmac, s, [e]) == Step(hmac, s, e)
  {
  }

  lemma {:induction false} NumberedRun(hmac: Hmac, s: State, t: Clock, n: nat)
    requires s.stamps == [] && n <= MAX_USED_NONCES + 1
    ensures Run(hmac, s, NumberedEvents(hmac, s.secret, t, n)) == s.(stamps := NumberedStamps(hmac, s.secret, t, n))
  {
    if n == 0 {
    } else {
      var events := NumberedEvents(hmac, s.secret, t, n - 1);
      var last := Validate(Numbered(hmac, s.secret, t, n - 1), t, t);
      NumberedRun(hmac, s, t, n - 1);
      NumberedStep(hmac, s.(stamps := NumberedStamps(hmac, s.secret, t, n - 1)), t, n - 1,
                   Numbered(hmac, s.secret, t, n - 1), NumberedStamps(hmac, s.secret, t, n));
      NumberedEventsSnoc(hmac, s.secret, t, n - 1);
      RunConcats(hmac, s, events, [last], "");
      RunOfOne(hmac, Run(hmac, s, events), last);
    }
  }

  lemma FirstIsAccepted(hmac: Hmac, s: State, t: Clock, n: nat)
    requires s.stamps == [] && n >= 1
    ensures Acceptances(hmac, s, NumberedEvents(hmac, s.secret, t, n), Numbered(hmac, s.secret, t, 0)) >= 1
  {
    NumberedIsFresh(hmac, s.secret, t, 0, 0);
    var nonce, es := Numbered(hmac, s.secret, t, 0), NumberedEvents(hmac, s.secret, t, n);
    EmptyRecordAccepts(hmac, s, nonce, t);
    assert es[0] == Validate(nonce, t, t);
    AcceptancesCountFirst(hmac, s, es, nonce, t);
  }

  lemma EmptyRecordAccepts(hmac: Hmac, s: State, nonce: string, t: Clock)
    requires s.stamps == [] && Claim(hmac, s.secret, nonce) == Some(t)
    ensures Accepts(hmac, s, nonce, t, t)
  {
  }

  lemma AcceptancesCountFirst(hmac: Hmac, s: State, es: seq<Event>, nonce: string, t: Clock)
    requires es != [] && es[0] == Validate(nonce, t, t) && Accepts(hmac, s, nonce, t, t)
    ensures Acceptances(hmac, s, es, nonce) >= 1
  {
  }

  lemma {:induction false} NumberedTimed(hmac: Hmac, secret: string, t: Clock, n: nat, es: seq<Event>)
    requires n <= |es| && forall i :: 0 <= i < |es| ==> es[i].Validate? && es[i].cleanupAt == es[i].at == t
    ensures Timed(es[|es| - n..], t)
  {
    if n == 0 {
    } else {
      assert es[|es| - n..][1..] == es[|es| - (n - 1)..];
      NumberedTimed(hmac, secret, t, n - 1, es);
    }
  }

  // Without the bound on live nonces at-most-once fails: 1001 nonces of one second are
  // validated, and then the first of them once more.
  lemma SomeRunAcceptsANonceTwice(hmac: Hmac, s: State, t: Clock) returns (es: seq<Event>, nonce: string)
    requires s.stamps == []
    ensures Timed(es, t) && Acceptances(hmac, s, es, nonce) >= 2
    ensures forall i :: 0 <= i < |es| ==> es[i].Validate?
  {
    var n := MAX_USED_NONCES + 1;
    nonce := Numbered(hmac, s.secret, t, 0);
    var again := Validate(nonce, t, t);
    es := NumberedEvents(hmac, s.secret, t, n) + [again];
    NumberedTimed(hmac, s.secret, t, |es|, es);
    assert es[0..] == es;
    NumberedRun(hmac, s, t, n);
    FirstIsAccepted(hmac, s, t, n);
    RunConcats(hmac, s, NumberedEvents(hmac, s.secret, t, n), [again], nonce);
    FirstIsAcceptedAgain(hmac, Run(hmac, s, NumberedEvents(hmac, s.secret, t, n)), t);
  }

  lemma FirstIsAcceptedAgain(hmac: Hmac, s: State, t: Clock)
    requires s.stamps == NumberedStamps(hmac, s.secret, t, MAX_USED_NONCES + 1)
    ensures Acceptances(hmac, s, [Validate(Numbered(hmac, s.secret, t, 0), t, t)], Numbered(hmac, s.secret, t, 0)) == 1
  {
    var nonce := Numbered(hmac, s.secret, t, 0);
    NumberedAreLive(hmac, s.secret, t, MAX_USED_NONCES + 1);
    NumberedIsFresh(hmac, s.secret, t, 0, 0);
    var kept := s.stamps[1..];
    assert Cleaned(s.stamps, t) == kept;
    if nonce in Names(kept) {
      var i :| 0 <= i < |kept| && kept[i].0 == nonce;
      NumberedIsFresh(hmac, s.secret, t, i + 1, 0);
    }
    assert Accepts(hmac, s, nonce, t, t);
  }

  // An account rotation forgets every nonce but keeps the secret, so a nonce used just
  // before it is accepted once more until it expires.
  lemma UsedNonceAcceptedAfterAccountRotation(hmac: Hmac, s: State, used: Event, rotation: Event, again: Event)
    requires used.Validate? && rotation.RotateAccount? && again.Validate?
    requires Timed([used, rotation, again], 0) && again.nonce == used.nonce
    requires Accepts(hmac, s, used.nonce, used.cleanupAt, used.at)
    ensures Accepts(hmac, Step(hmac, Step(hmac, s, used), rotation), again.nonce, again.cleanupAt, again.at)
            <==> !Expired(Claim(hmac, s.secret, used.nonce).value, again.at)
  {
    assert [used, rotation, again][1..] == [rotation, again];
    assert [rotation, again][1..] == [again];
    assert Timed([rotation, again], used.at) && Timed([again], rotation.at);
    assert used.at <= rotation.at <= again.at;
    var s2 := Step(hmac, Step(hmac, s, used), rotation);
    assert s2.stamps == [] && s2.secret == s.secret;
    assert Cleaned([], again.cleanupAt) == [];
  }

  // ---------- A fresh nonce works ----------

  lemma SplitUndoesJoin(time: string, random: string, tag: string)
    requires '_' !in time && '_' !in random
    ensures Split(time + "_" + random + "_" + tag) == Some(NonceParts(time, random, tag))
  {
    var tail := random + "_" + tag;
    var nonce := time + "_" + random + "_" + tag;
    assert nonce == time + ['_'] + tail;
    assert tail == random + ['_'] + tag;
    IndexOfFirst(time, '_', tail);
    assert nonce[|time| + 1..] == tail && nonce[..|time|] == time;
    IndexOfFirst(random, '_', tag);
    assert tail[|random| + 1..] == tag && tail[..|random|] == random;
  }

  lemma JoinUndoesSplit(nonce: string)
    requires Split(nonce).Some?
    ensures var NonceParts(time, random, tag) := Split(nonce).value;
            '_' !in time && '_' !in random && nonce == time + "_" + random + "_" + tag
  {
    var i := IndexOf(nonce, '_');
    var rest := nonce[i + 1..];
    var j := IndexOf(rest, '_');
    assert nonce == nonce[..i] + ['_'] + rest;
    assert rest == rest[..j] + ['_'] + rest[j + 1..];
    Regroup(nonce[..i], rest[..j], rest[j + 1..]);
    assert Split(nonce).value == NonceParts(nonce[..i], rest[..j], rest[j + 1..]);
  }

  lemma Regroup(a: string, b: string, c: string)
    ensures a + ['_'] + (b + ['_'] + c) == a + "_" + b + "_" + c
  {
  }

  // A nonce has a claim exactly if it was made with the secret, and then the claim is its time.
  lemma ClaimIffAuthentic(hmac: Hmac, secret: string, nonce: string, t: nat)
    ensures Claim(hmac, secret, nonce) == Some(t) <==>
            exists time, random :: Authentic(hmac, secret, nonce, time, random, t)
  {
    if Claim(hmac, secret, nonce) == Some(t) {
      JoinUndoesSplit(nonce);
      var parts := Split(nonce).value;
      assert Authentic(hmac, secret, nonce, parts.time, parts.random, t);
    } else if time, random :| Authentic(hmac, secret, nonce, time, random, t) {
      SplitUndoesJoin(time, random, hmac(secret, time + "_" + random));
    }
  }

  lemma TimelyIffClaim(hmac: Hmac, secret: string, nonce: string, now: nat)
    ensures AuthenticAndTimely(hmac, secret, nonce, now) <==>
            var claim := Claim(hmac, secret, nonce);
            claim.Some? && claim.value - 60 <= now <= claim.value + 300
  {
    var claim := Claim(hmac, secret, nonce);
    if claim.Some? {
      ClaimIffAuthentic(hmac, secret, nonce, claim.value);
    }
    if AuthenticAndTimely(hmac, secret, nonce, now) {
      var time, random, t: nat :| Authentic(hmac, secret, nonce, time, random, t) && t - 60 <= now <= t + 300;
      ClaimIffAuthentic(hmac, secret, nonce, t);
    }
  }

  // Accepted are exactly the nonces that are not on record after the cleanup, were made with
  // the session's secret and are timely.
  lemma AcceptsIffAuthentic(hmac: Hmac, s: State, nonce: string, cleanupAt: nat, now: Clock)
    ensures Accepts(hmac, s, nonce, cleanupAt, now) <==>
            nonce !in Names(Cleaned(s.stamps, cleanupAt)) && AuthenticAndTimely(hmac, s.secret, nonce, now)
  {
    TimelyIffClaim(hmac, s.secret, nonce, now);
  }

  // The text of a nonce splits back into its timestamp, its random part and its HMAC.
  lemma FreshNonceSplits(hmac: Hmac, secret: string, now: Clock, random: string)
    requires '_' !in random
    ensures Split(Nonce(hmac, secret, now, random)) ==
            Some(NonceParts(Decimal.Print(now), random, hmac(secret, Payload(Decimal.Print(now), random))))
    ensures Claim(hmac, secret, Nonce(hmac, secret, now, random)) == Some(now)
  {
    var time := Decimal.Print(now);
    assert '_' !in time;
    SplitUndoesJoin(time, random, hmac(secret, Payload(time, random)));
    Decimal.ParseUndoesPrint(now);
  }

  predicate Untried(es: seq<Event>, nonce: string) {
    forall i :: 0 <= i < |es| ==> es[i].Validate? ==> es[i].nonce != nonce
  }

  lemma {:induction false} UntriedStaysUnrecorded(hmac: Hmac, s: State, es: seq<Event>, nonce: string)
    requires nonce !in Names(s.stamps) && Untried(es, nonce)
    ensures nonce !in Names(Run(hmac, s, es).stamps) && Run(hmac, s, es).secret == s.secret
    decreases es
  {
    if es == [] {
    } else {
      var e := es[0];
      if e.Validate? {
        NothingAddedByCleanup(s.stamps, e.cleanupAt, nonce);
        if Accepts(hmac, s, e.nonce, e.cleanupAt, e.at) {
          NamesOfSnoc(Cleaned(s.stamps, e.cleanupAt), (e.nonce, Claim(hmac, s.secret, e.nonce).value));
        }
      } else if e.GenerateCsrf? {
        NothingAddedByCleanup(s.stamps, e.at, nonce);
      }
      UntriedStaysUnrecorded(hmac, Step(hmac, s, e), es[1..], nonce);
    }
  }

  lemma {:induction false} NothingAddedByCleanup(stamps: seq<Stamp>, now: nat, nonce: string)
    requires nonce !in Names(stamps)
    ensures nonce !in Names(Live(stamps, now)) && nonce !in Names(Cleaned(stamps, now))
  {
    LiveIsUnexpiredPart(stamps, now);
    NamesHold(stamps, nonce);
    NamesHold(Live(stamps, now), nonce);
    NamesHold(Cleaned(stamps, now), nonce);
    assert forall x :: x in Cleaned(stamps, now) ==> x in Live(stamps, now);
  }

  // A nonce generated now is accepted on first use up to 300 seconds later, whatever
  // cleanups, validations of other nonces and rotations happen in between.
  lemma FreshNonceAccepted(hmac: Hmac, s: State, es: seq<Event>, born: Clock, random: string,
                           cleanupAt: Clock, now: Clock)
    requires '_' !in random
    requires var nonce := Nonce(hmac, s.secret, born, random);
             nonce !in Names(s.stamps) && Untried(es, nonce)
    requires born <= cleanupAt <= now
    ensures Accepts(hmac, Run(hmac, s, es), Nonce(hmac, s.secret, born, random), cleanupAt, now)
            <==> now <= born + NONCE_EXPIRY_SECS
  {
    var nonce := Nonce(hmac, s.secret, born, random);
    UntriedStaysUnrecorded(hmac, s, es, nonce);
    NothingAddedByCleanup(Run(hmac, s, es).stamps, cleanupAt, nonce);
    FreshNonceSplits(hmac, s.secret, born, random);
  }
}
