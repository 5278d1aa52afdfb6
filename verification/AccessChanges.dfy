/** Changes to a catalog's access: the sliding-window limiter, and the version check in front of it. */
module AccessChanges {
  import opened Decimal
  import opened Runs
  import opened Text
  import opened Wrappers

  type Time = nat

  const WINDOW: nat := 60 * 60 * 1_000_000_000
  const LIMIT: nat := 30

  // ----- the specification: a person's whole history of grants -----

  /** How many of the given grants lie less than one window back. */
  function Recent(grants: seq<Time>, now: Time): nat {
    if grants == [] then 0
    else Recent(grants[..|grants| - 1], now) + (if grants[|grants| - 1] + WINDOW > now then 1 else 0)
  }

  predicate Ordered(grants: seq<Time>) {
    forall i, j :: 0 <= i <= j < |grants| ==> grants[i] <= grants[j]
  }

  /** In order, and each one made while fewer than the limit lay less than one window back. */
  predicate Lawful(grants: seq<Time>) {
    grants == []
    || (var init, t := grants[..|grants| - 1], grants[|grants| - 1];
        Lawful(init) && Recent(init, t) < LIMIT && (init != [] ==> init[|init| - 1] <= t))
  }

  lemma {:induction false} LawfulOrdered(grants: seq<Time>)
    requires Lawful(grants)
    ensures Ordered(grants)
  {
    if grants != [] {
      LawfulOrdered(grants[..|grants| - 1]);
    }
  }

  /** How many grants lie in the window that starts at `from`. */
  function Within(grants: seq<Time>, from: Time): nat {
    if grants == [] then 0
    else
      var t := grants[|grants| - 1];
      Within(grants[..|grants| - 1], from) + (if from <= t < from + WINDOW then 1 else 0)
  }

  lemma {:induction false} WithinAreRecent(grants: seq<Time>, from: Time, now: Time)
    requires now < from + WINDOW
    ensures Within(grants, from) <= Recent(grants, now)
  {
    if grants != [] {
      WithinAreRecent(grants[..|grants| - 1], from, now);
    }
  }

  /** So no window of one hour, wherever it starts, ever holds more than the limit. */
  lemma {:induction false} NoWindowHoldsMore(grants: seq<Time>, from: Time)
    requires Lawful(grants)
    ensures Within(grants, from) <= LIMIT
  {
    if grants != [] {
      var init, t := grants[..|grants| - 1], grants[|grants| - 1];
      NoWindowHoldsMore(init, from);
      if from <= t < from + WINDOW {
        WithinAreRecent(init, from, t);
      }
    }
  }

  // ----- what the queue of slots has to do with it -----

  /** All of these grants are out of the window. */
  predicate Expired(grants: seq<Time>, now: Time) {
    forall i :: 0 <= i < |grants| ==> grants[i] + WINDOW <= now
  }

  lemma {:induction false} RecentOfExpired(grants: seq<Time>, now: Time)
    requires Expired(grants, now)
    ensures Recent(grants, now) == 0
  {
    if grants != [] {
      RecentOfExpired(grants[..|grants| - 1], now);
    }
  }

  /** Expired grants in front and live ones behind: only the live ones count. */
  lemma {:induction false} RecentOfTail(dropped: seq<Time>, kept: seq<Time>, now: Time)
    requires Expired(dropped, now) && Ordered(kept) && (kept != [] ==> kept[0] + WINDOW > now)
    ensures Recent(dropped + kept, now) == |kept|
  {
    var all := dropped + kept;
    if kept == [] {
      assert all == dropped;
      RecentOfExpired(dropped, now);
    } else {
      var init := kept[..|kept| - 1];
      assert all[..|all| - 1] == dropped + init;
      assert init != [] ==> init[0] == kept[0];
      assert kept[0] <= kept[|kept| - 1];
      RecentOfTail(dropped, init, now);
    }
  }

  // ----- the limiter -----

  /** One person's queue: the grants that left it, all of them expired, and the ones still in it make up a
      lawful history that ends by now. */
  ghost predicate Queued(gone: seq<Time>, slots: seq<Time>, clock: Time) {
    && Lawful(gone + slots) && Expired(gone, clock)
    && forall i :: 0 <= i < |slots| ==> slots[i] <= clock
  }

  /** Pop the front as long as it is out of the window. */
  method PopExpired(slots: seq<Time>, now: Time) returns (kept: seq<Time>)
    requires forall i :: 0 <= i < |slots| ==> slots[i] <= now
    ensures |kept| <= |slots| && kept == slots[|slots| - |kept|..]
    ensures Expired(slots[..|slots| - |kept|], now)
    ensures kept != [] ==> kept[0] + WINDOW > now
  {
    kept := slots;
    while kept != [] && now - kept[0] >= WINDOW
      invariant |kept| <= |slots| && kept == slots[|slots| - |kept|..]
      invariant Expired(slots[..|slots| - |kept|], now)
      decreases |kept|
    {
      kept := kept[1..];
    }
  }

  lemma {:induction false} OrderedTail(front: seq<Time>, back: seq<Time>)
    requires Ordered(front + back)
    ensures Ordered(back)
  {
    assert forall i :: 0 <= i < |back| ==> back[i] == (front + back)[|front| + i];
  }

  lemma PoppedStillQueued(gone: seq<Time>, slots: seq<Time>, clock: Time, popped: seq<Time>, kept: seq<Time>, now: Time)
    requires Queued(gone, slots, clock) && clock <= now && slots == popped + kept
    requires Expired(popped, now) && (kept != [] ==> kept[0] + WINDOW > now)
    ensures Queued(gone + popped, kept, now) && gone + popped + kept == gone + slots
    ensures Recent(gone + slots, now) == |kept|
  {
    Glue(gone, popped, kept);
    LawfulOrdered(gone + slots);
    OrderedTail(gone + popped, kept);
    RecentOfTail(gone + popped, kept, now);
  }

  lemma GrantedStillQueued(gone: seq<Time>, slots: seq<Time>, now: Time)
    requires Queued(gone, slots, now) && Recent(gone + slots, now) < LIMIT
    ensures Queued(gone, slots + [now], now) && gone + (slots + [now]) == gone + slots + [now]
  {
    var all := gone + slots + [now];
    Glue(gone, slots, [now]);
    assert all[..|all| - 1] == gone + slots;
  }

  lemma QueuedLater(gone: seq<Time>, slots: seq<Time>, clock: Time, now: Time)
    requires Queued(gone, slots, clock) && clock <= now
    ensures Queued(gone, slots, now)
  {
  }

  /** One attempt on one person's queue; `taken` slots left it at the front. */
  method TakeFrom(queue: seq<Time>, now: Time, ghost gone: seq<Time>, ghost clock: Time)
    returns (granted: bool, kept: seq<Time>, taken: nat)
    requires Queued(gone, queue, clock) && clock <= now
    ensures taken <= |queue| && Queued(gone + queue[..taken], kept, now)
    ensures granted <==> Recent(gone + queue, now) < LIMIT
    ensures gone + queue[..taken] + kept == if granted then gone + queue + [now] else gone + queue
  {
    kept := PopExpired(queue, now);
    taken := |queue| - |kept|;
    assert queue == queue[..taken] + kept;
    PoppedStillQueued(gone, queue, clock, queue[..taken], kept, now);
    granted := |kept| < LIMIT;
    if granted {
      GrantedStillQueued(gone + queue[..taken], kept, now);
      kept := kept + [now];
    }
  }

  class Limiter {
    /** A person's slots, oldest first; only the front is ever taken out. */
    var slots: map<string, seq<Time>>
    /** The grants that have left the queue. */
    ghost var gone: map<string, seq<Time>>
    ghost var clock: Time

    /** Every grant ever made to a person. */
    ghost function GrantsOf(sub: string): seq<Time>
      reads this
      requires slots.Keys == gone.Keys
    {
      if sub in slots then gone[sub] + slots[sub] else []
    }

    ghost predicate Valid()
      reads this
    {
      && slots.Keys == gone.Keys
      && forall sub :: sub in slots ==> Queued(gone[sub], slots[sub], clock)
    }

    constructor ()
      ensures Valid() && clock == 0 && slots == map[]
    {
      slots, gone, clock := map[], map[], 0;
    }

    /** Grants exactly when fewer than the limit of this person's grants lie less than one window back,
        and changes nobody else's. */
    method TakeSlot(sub: string, now: Time) returns (granted: bool)
      requires Valid() && clock <= now
      modifies this
      ensures Valid() && clock == now
      ensures granted <==> Recent(old(GrantsOf(sub)), now) < 30
      ensures GrantsOf(sub) == if granted then old(GrantsOf(sub)) + [now] else old(GrantsOf(sub))
      ensures forall k :: k != sub ==> GrantsOf(k) == old(GrantsOf(k))
    {
      var queue := if sub in slots then slots[sub] else [];
      ghost var left := if sub in slots then gone[sub] else [];
      forall k | k in slots ensures Queued(gone[k], slots[k], now) {
        QueuedLater(gone[k], slots[k], clock, now);
      }
      var kept, taken;
      granted, kept, taken := TakeFrom(queue, now, left, clock);
      slots := slots[sub := kept];
      gone := gone[sub := left + queue[..taken]];
      clock := now;
    }
  }

  /** So at every moment of every run no window of one hour holds more than the limit of a person's grants. */
  lemma NoHourHoldsMoreThanTheLimit(limiter: Limiter, sub: string, from: Time)
    requires limiter.Valid()
    ensures Within(limiter.GrantsOf(sub), from) <= 30
  {
    if sub in limiter.slots {
      assert Queued(limiter.gone[sub], limiter.slots[sub], limiter.clock);
      NoWindowHoldsMore(limiter.GrantsOf(sub), from);
    }
  }

  // ----- the optimistic update in front of the limiter -----

  /** `u64::from_str`: digits, after an optional plus sign. */
  function ParseU64(s: string): int {
    var digits := if s != "" && s[0] == '+' then s[1..] else s;
    if digits != "" && AllDigits(digits) && NumberOf(digits) <= U64_MAX then NumberOf(digits) else -1
  }

  /** The texts read as a number: digits, with any zeros in front, and a plus sign or none. */
  ghost predicate Spelled(s: string, plus: string, zeros: nat, n: nat) {
    (plus == "" || plus == "+") && s == plus + (Zeros(zeros) + Digits(n))
  }

  lemma ParseU64Exactly(s: string, n: nat)
    ensures ParseU64(s) == n <==> n <= U64_MAX && exists plus, zeros :: Spelled(s, plus, zeros, n)
  {
    if ParseU64(s) == n {
      var plus := if s[0] == '+' then "+" else "";
      var digits := if s[0] == '+' then s[1..] else s;
      var zeros := ZerosThenDigits(digits);
      assert s == plus + digits;
      assert Spelled(s, plus, zeros, n);
    }
    if plus, zeros :| n <= U64_MAX && Spelled(s, plus, zeros, n) {
      SpelledIsRead(s, plus, zeros, n);
    }
  }

  lemma SpelledIsRead(s: string, plus: string, zeros: nat, n: nat)
    requires Spelled(s, plus, zeros, n) && n <= U64_MAX
    ensures ParseU64(s) == n
  {
    var digits := Zeros(zeros) + Digits(n);
    DigitsCanonical(n);
    ZerosKeepNumber(zeros, Digits(n));
    assert digits != "" && AllDigits(digits) && NumberOf(digits) == n;
    if plus == "+" {
      assert s[0] == '+' && s[1..] == digits;
    } else {
      assert s == digits && s[0] != '+';
    }
  }

  function NextVersion(current: string): string {
    if ParseU64(current) >= 0 then Digits(ParseU64(current) + 1) else "2"
  }

  /** The version after `n` accepted changes. */
  function VersionAfter(first: string, n: nat): string {
    if n == 0 then first else NextVersion(VersionAfter(first, n - 1))
  }

  /** The number a version counts on from; a text that is no number counts as 1. */
  function CountsFrom(version: string): nat {
    if ParseU64(version) >= 0 then ParseU64(version) else 1
  }

  lemma ParseDigits(n: nat)
    requires n <= U64_MAX
    ensures ParseU64(Digits(n)) == n
  {
    DigitsCanonical(n);
  }

  /** Whatever the first version says, the later ones count up by one, in decimal. */
  lemma {:induction false} VersionsCountUp(first: string, n: nat)
    requires 0 < n && CountsFrom(first) + n - 1 <= U64_MAX
    ensures VersionAfter(first, n) == Digits(CountsFrom(first) + n)
  {
    if n > 1 {
      VersionsCountUp(first, n - 1);
      ParseDigits(CountsFrom(first) + n - 1);
    }
  }

  /** So no version ever comes back. */
  lemma VersionsNeverRepeat(first: string, i: nat, j: nat)
    requires i < j && CountsFrom(first) + j <= U64_MAX
    ensures VersionAfter(first, i) != VersionAfter(first, j)
  {
    VersionsCountUp(first, j);
    ParseDigits(CountsFrom(first) + j);
    if i > 0 {
      VersionsCountUp(first, i);
      ParseDigits(CountsFrom(first) + i);
    }
  }

  /** The current version, and the base versions of the changes accepted so far. */
  datatype Changes = Changes(version: string, accepted: seq<string>)

  /** A change made against a version; `granted` says whether the limiter lets it pass. */
  datatype Attempt = Attempt(base: string, granted: bool)

  ghost function Next(s: Changes, a: Attempt): Option<Changes> {
    Some(if a.base == s.version && a.granted then Changes(NextVersion(a.base), s.accepted + [a.base]) else s)
  }

  ghost predicate Counted(first: string, s: Changes) {
    && s.version == VersionAfter(first, |s.accepted|)
    && forall i :: 0 <= i < |s.accepted| ==> s.accepted[i] == VersionAfter(first, i)
  }

  ghost function CountedFrom(first: string): Changes -> bool {
    s => Counted(first, s)
  }

  lemma AttemptKeeps(first: string, s: Changes, a: Attempt)
    requires Counted(first, s)
    ensures Counted(first, Next(s, a).value)
  {
    hide NextVersion;
    var t := Next(s, a).value;
    if t != s {
      assert VersionAfter(first, |t.accepted|) == NextVersion(VersionAfter(first, |s.accepted|));
      hide VersionAfter;
      forall i | 0 <= i < |t.accepted| ensures t.accepted[i] == VersionAfter(first, i) {
        assert t.accepted[i] == if i < |s.accepted| then s.accepted[i] else s.version;
      }
    }
  }

  lemma EveryAttemptKeeps(first: string)
    ensures Kept(Next, CountedFrom(first))
  {
    hide Counted;
    forall s, a | Counted(first, s) ensures Counted(first, Next(s, a).value) {
      AttemptKeeps(first, s, a);
    }
  }

  /** In any run of attempts one base version is accepted at most once: of two changes made against the same
      version, one is told that the catalog has changed. */
  lemma OneChangePerVersion(first: string, attempts: seq<Attempt>, i: nat, j: nat)
    requires Run(Next, Changes(first, []), attempts).Some?
    requires i < j < |Run(Next, Changes(first, []), attempts).value.accepted|
    requires CountsFrom(first) + j <= U64_MAX
    ensures var accepted := Run(Next, Changes(first, []), attempts).value.accepted;
      accepted[i] != accepted[j]
  {
    EveryAttemptKeeps(first);
    RunKeeps(Next, CountedFrom(first), Changes(first, []), attempts);
    VersionsNeverRepeat(first, i, j);
  }

  datatype Grant = Grant(group: string, verb: string)

  datatype Row = Row(name: string, owner: string, grants: seq<Grant>, generation: nat, version: string)

  datatype Outcome = Changed | NoSuchCatalog | ChangedMeanwhile | TooManyChanges

  class DemoCatalog {
    var row: Row
    const limiter: Limiter
    /** The version at the start, the attempts made since, and the base versions of the accepted ones. */
    ghost const first: string
    ghost var attempts: seq<Attempt>
    ghost var accepted: seq<string>

    ghost function State(): Changes
      reads this
    {
      Changes(row.version, accepted)
    }

    /** The catalog's life so far is a run of the attempts made. */
    ghost predicate Valid()
      reads this, limiter
    {
      limiter.Valid() && Run(Next, Changes(first, []), attempts) == Some(State())
    }

    constructor (row: Row, limiter: Limiter)
      requires limiter.Valid()
      ensures this.row == row && this.limiter == limiter && Valid() && accepted == []
    {
      this.row, this.limiter, first, attempts, accepted := row, limiter, row.version, [], [];
    }

    /** A change lands only on the version it was made against, and only a change that gets that far uses up a slot. */
    method Update(name: string, version: string, owner: string, grants: seq<Grant>, sub: string, now: Time)
      returns (outcome: Outcome)
      requires Valid() && limiter.clock <= now
      modifies this, limiter
      ensures Valid() && limiter.clock <= now
      ensures outcome.NoSuchCatalog? <==> old(row).name != name
      ensures outcome.ChangedMeanwhile? <==> old(row).name == name && old(row).version != version
      ensures outcome.Changed? <==>
                (old(row).name == name && old(row).version == version && Recent(old(limiter.GrantsOf(sub)), now) < LIMIT)
      ensures row ==
              if outcome.Changed? then Row(name, owner, grants, old(row).generation + 1, NextVersion(version)) else old(row)
      ensures limiter.GrantsOf(sub) ==
              if outcome.Changed? then old(limiter.GrantsOf(sub)) + [now] else old(limiter.GrantsOf(sub))
      ensures attempts == old(attempts) + [Attempt(version, outcome.Changed?)]
      ensures accepted == if outcome.Changed? then old(accepted) + [version] else old(accepted)
    {
      hide Limiter.Valid, Limiter.GrantsOf;
      ghost var before := State();
      if row.name != name {
        outcome := NoSuchCatalog;
      } else if row.version != version {
        outcome := ChangedMeanwhile;
      } else {
        var granted := limiter.TakeSlot(sub, now);
        if !granted {
          outcome := TooManyChanges;
        } else {
          row := Row(name, owner, grants, row.generation + 1, NextVersion(version));
          accepted := accepted + [version];
          outcome := Changed;
        }
      }
      RunOneMore(first, attempts, before, Attempt(version, outcome.Changed?));
      attempts := attempts + [Attempt(version, outcome.Changed?)];
    }
  }

  lemma RunOneMore(first: string, attempts: seq<Attempt>, s: Changes, a: Attempt)
    requires Run(Next, Changes(first, []), attempts) == Some(s)
    ensures Run(Next, Changes(first, []), attempts + [a]) == Next(s, a)
  {
    RunConcat(Next, Changes(first, []), attempts, [a]);
    RunStep(Next, s, [a]);
    assert [a][1..] == [];
  }

  /** So whatever updates a catalog has seen: no two that were accepted were made against the same version. */
  lemma AcceptedVersionsDiffer(catalog: DemoCatalog, i: nat, j: nat)
    requires catalog.Valid() && i < j < |catalog.accepted| && CountsFrom(catalog.first) + j <= U64_MAX
    ensures catalog.accepted[i] != catalog.accepted[j]
  {
    OneChangePerVersion(catalog.first, catalog.attempts, i, j);
  }
}
