/** The cache layer: fetchWithCache keeps, per key, the data a producer
    last resolved to and when, and calls the producer again only once that
    data is more than twelve hours old. The `/` route is five such calls on
    the five source keys; the `/discord` route is one call whose producer
    always throws. */
module TtlCache {
  import opened JsValues

  /** CACHE_DURATION_MS: 60 * 60 * 12000 ms, twelve hours. */
  const CacheDurationMs: nat := 43_200_000

  /** What `cache[key]` holds: the data the producer resolved to, and the
      time of that call in milliseconds. */
  datatype Entry = Entry(data: Value, lastFetchTime: nat)

  /** What fetchWithCache resolves to: the cached or fresh data, or
      `{ error: message }` when the producer threw. */
  datatype Reply = Data(value: Value) | Error(message: string)

  /** The entry under `key` must be fetched again: there is none, or it is
      strictly more than the cache duration old. */
  predicate IsStale(entries: map<string, Entry>, key: string, now: nat) {
    key !in entries || now - entries[key].lastFetchTime > CacheDurationMs
  }

  /** One call of fetchWithCache: what it resolves to, the map afterwards,
      and whether it called the producer. */
  datatype Step = Step(reply: Reply, entries: map<string, Entry>, invoked: bool)

  /** fetchWithCache(key, producer) at time `now`, where `producer` is what
      the producer would give if it were called. */
  function Fetch(entries: map<string, Entry>, key: string, now: nat, producer: Outcome): (s: Step)
    ensures s.invoked <==> IsStale(entries, key, now)
    ensures s.reply.Error? <==> s.invoked && producer.Thrown?
    ensures s.reply.Error? ==> s.entries == entries
    ensures entries.Keys <= s.entries.Keys <= entries.Keys + {key}
  {
    if !IsStale(entries, key, now) then Step(Data(entries[key].data), entries, false)
    else match producer
      case Thrown(message) => Step(Error(message), entries, true)
      case Resolved(data) => Step(Data(data), entries[key := Entry(data, now)], true)
  }

  /** Two maps agree on `key`: both lack it, or both hold the same entry. */
  predicate SameAt(m1: map<string, Entry>, m2: map<string, Entry>, key: string) {
    (key in m1 <==> key in m2) && (key in m1 ==> m1[key] == m2[key])
  }

  /** A fresh entry is served as it is: the producer is not called and the
      map does not change. */
  lemma FreshEntryIsServed(entries: map<string, Entry>, key: string, now: nat, producer: Outcome)
    requires key in entries && now - entries[key].lastFetchTime <= CacheDurationMs
    ensures Fetch(entries, key, now, producer) == Step(Data(entries[key].data), entries, false)
  {
  }

  /** A missing or stale entry whose producer resolves is replaced by the
      new data stamped `now`, which is returned; no other key changes. */
  lemma RefreshStoresData(entries: map<string, Entry>, key: string, now: nat, data: Value)
    requires IsStale(entries, key, now)
    ensures var s := Fetch(entries, key, now, Resolved(data));
            && s.invoked && s.reply == Data(data)
            && key in s.entries && s.entries[key] == Entry(data, now)
            && forall k :: k != key ==> SameAt(s.entries, entries, k)
  {
  }

  /** A producer that throws gives `{ error: message }` and leaves the map as
      it was, so the entry stays stale: any later call calls the producer
      again. */
  lemma FailureIsNotCached(entries: map<string, Entry>, key: string, now: nat, message: string, later: nat, next: Outcome)
    requires IsStale(entries, key, now) && now <= later
    ensures var s := Fetch(entries, key, now, Thrown(message));
            && s == Step(Error(message), entries, true)
            && Fetch(s.entries, key, later, next).invoked
  {
  }

  /** After a successful fetch at `now`, every call up to the cache duration
      later (or at an earlier clock reading) serves that data without calling
      the producer, even when the data is the adapters' soft failure `null`. */
  lemma CachedForWholeWindow(entries: map<string, Entry>, key: string, now: nat, data: Value, later: nat, next: Outcome)
    requires IsStale(entries, key, now) && later <= now + CacheDurationMs
    ensures var s := Fetch(entries, key, now, Resolved(data));
            Fetch(s.entries, key, later, next) == Step(Data(data), s.entries, false)
  {
  }

  /** A producer that resolves (every adapter of the `/` route catches its
      own errors) never makes the call answer `{ error }`, fresh entry or
      not. */
  lemma ResolvingProducerNeverErrs(entries: map<string, Entry>, key: string, now: nat, data: Value)
    ensures Fetch(entries, key, now, Resolved(data)).reply.Data?
  {
  }

  /** A call on one key leaves every other key as it was. */
  lemma FetchLeavesOtherKeys(entries: map<string, Entry>, key: string, now: nat, producer: Outcome, other: string)
    requires other != key
    ensures SameAt(Fetch(entries, key, now, producer).entries, entries, other)
  {
  }

  /** A call depends on the map only through its own key. */
  lemma FetchReadsOnlyItsKey(e1: map<string, Entry>, e2: map<string, Entry>, key: string, now: nat, producer: Outcome)
    requires SameAt(e1, e2, key)
    ensures Fetch(e1, key, now, producer).reply == Fetch(e2, key, now, producer).reply
    ensures Fetch(e1, key, now, producer).invoked == Fetch(e2, key, now, producer).invoked
    ensures SameAt(Fetch(e1, key, now, producer).entries, Fetch(e2, key, now, producer).entries, key)
  {
  }

  /** Calls on two different keys can run in either order: each gives the
      same reply and the map ends the same. */
  lemma FetchesOnDistinctKeysCommute(entries: map<string, Entry>, k1: string, p1: Outcome, k2: string, p2: Outcome, now: nat)
    requires k1 != k2
    ensures var a1 := Fetch(entries, k1, now, p1);
            var a2 := Fetch(a1.entries, k2, now, p2);
            var b2 := Fetch(entries, k2, now, p2);
            var b1 := Fetch(b2.entries, k1, now, p1);
            a1.reply == b1.reply && a2.reply == b2.reply && a2.entries == b1.entries
  {
    var a1 := Fetch(entries, k1, now, p1);
    var b2 := Fetch(entries, k2, now, p2);
    FetchReadsOnlyItsKey(a1.entries, entries, k2, now, p2);
    FetchReadsOnlyItsKey(b2.entries, entries, k1, now, p1);
  }

  // ----- Successive calls on one key -----

  /** A call of fetchWithCache: its time and what its producer would give. */
  datatype Call = Call(now: nat, producer: Outcome)

  /** Successive calls of fetchWithCache on one key, one step per call. */
  function Run(entries: map<string, Entry>, key: string, calls: seq<Call>): (steps: seq<Step>)
    ensures |steps| == |calls|
    decreases |calls|
  {
    if calls == [] then []
    else
      var s := Fetch(entries, key, calls[0].now, calls[0].producer);
      [s] + Run(s.entries, key, calls[1..])
  }

  /** Within the cache duration of the entry's fetch time no call runs the
      producer: every call returns the stored data and the map stays put. */
  lemma {:induction false} NoRefetchWithinWindow(entries: map<string, Entry>, key: string, calls: seq<Call>)
    requires key in entries
    requires forall i :: 0 <= i < |calls| ==> calls[i].now <= entries[key].lastFetchTime + CacheDurationMs
    ensures forall i :: 0 <= i < |calls| ==>
              Run(entries, key, calls)[i] == Step(Data(entries[key].data), entries, false)
  {
    if calls != [] {
      NoRefetchWithinWindow(entries, key, calls[1..]);
      var s := Fetch(entries, key, calls[0].now, calls[0].producer);
      assert s == Step(Data(entries[key].data), entries, false);
      var steps := Run(entries, key, calls);
      assert steps == [s] + Run(entries, key, calls[1..]);
      forall i | 0 <= i < |calls| ensures steps[i] == Step(Data(entries[key].data), entries, false) {
        if i > 0 {
          assert calls[1..][i - 1] == calls[i];
          assert steps[i] == Run(entries, key, calls[1..])[i - 1];
        }
      }
    }
  }

  /** At most one fetch per window: when a call finds the entry missing or
      stale and its producer resolves, no call within the cache duration
      after it calls the producer again. */
  lemma OneFetchPerWindow(entries: map<string, Entry>, key: string, calls: seq<Call>)
    requires |calls| > 0 && calls[0].producer.Resolved? && IsStale(entries, key, calls[0].now)
    requires forall i :: 0 <= i < |calls| ==> calls[i].now <= calls[0].now + CacheDurationMs
    ensures Run(entries, key, calls)[0].invoked
    ensures forall i :: 0 < i < |calls| ==> !Run(entries, key, calls)[i].invoked
  {
    var s := Fetch(entries, key, calls[0].now, calls[0].producer);
    forall i | 0 <= i < |calls[1..]| ensures calls[1..][i].now <= s.entries[key].lastFetchTime + CacheDurationMs {
      assert calls[1..][i] == calls[i + 1];
    }
    NoRefetchWithinWindow(s.entries, key, calls[1..]);
    forall i | 0 < i < |calls| ensures !Run(entries, key, calls)[i].invoked {
      assert Run(entries, key, calls)[i] == Run(s.entries, key, calls[1..])[i - 1];
    }
  }

  /** Once an entry is missing or stale, every later call whose producer
      throws calls it again and leaves the map alone: errors never stop the
      retries. */
  lemma {:induction false} FailuresAlwaysRetry(entries: map<string, Entry>, key: string, calls: seq<Call>)
    requires forall i :: 0 <= i < |calls| ==> calls[i].producer.Thrown? && IsStale(entries, key, calls[i].now)
    ensures forall i :: 0 <= i < |calls| ==>
              Run(entries, key, calls)[i] == Step(Error(calls[i].producer.message), entries, true)
  {
    if calls != [] {
      FailuresAlwaysRetry(entries, key, calls[1..]);
      var s := Fetch(entries, key, calls[0].now, calls[0].producer);
      assert s == Step(Error(calls[0].producer.message), entries, true);
      var steps := Run(entries, key, calls);
      assert steps == [s] + Run(entries, key, calls[1..]);
      forall i | 0 <= i < |calls| ensures steps[i] == Step(Error(calls[i].producer.message), entries, true) {
        if i > 0 {
          assert calls[1..][i - 1] == calls[i];
          assert steps[i] == Run(entries, key, calls[1..])[i - 1];
        }
      }
    }
  }

  // ----- The routes -----

  /** The closed set of source keys. */
  datatype Source = LinkedIn | Medium | Discord | Telegram | Twitter

  /** The cache key and response field of each source. */
  function KeyOf(source: Source): string {
    match source
    case LinkedIn => "linkedin"
    case Medium => "medium"
    case Discord => "discord"
    case Telegram => "telegram"
    case Twitter => "twitter"
  }

  /** The five cache keys. */
  const SourceKeys: set<string> := {"linkedin", "medium", "discord", "telegram", "twitter"}

  /** One value per source, as the `/` route's response record has them. */
  datatype PerSource<T> = PerSource(linkedin: T, medium: T, discord: T, telegram: T, twitter: T) {
    function Get(source: Source): T {
      match source
      case LinkedIn => linkedin
      case Medium => medium
      case Discord => discord
      case Telegram => telegram
      case Twitter => twitter
    }
  }

  /** The `/` route: fetchWithCache on the five keys in the order the source
      lists them, with what each adapter would give; returns the replies and
      the map afterwards. */
  function Root(entries: map<string, Entry>, now: nat, producers: PerSource<Outcome>): (r: (PerSource<Reply>, map<string, Entry>))
    ensures entries.Keys <= r.1.Keys <= entries.Keys + SourceKeys
  {
    var s1 := Fetch(entries, "linkedin", now, producers.linkedin);
    var s2 := Fetch(s1.entries, "medium", now, producers.medium);
    var s3 := Fetch(s2.entries, "discord", now, producers.discord);
    var s4 := Fetch(s3.entries, "telegram", now, producers.telegram);
    var s5 := Fetch(s4.entries, "twitter", now, producers.twitter);
    (PerSource(s1.reply, s2.reply, s3.reply, s4.reply, s5.reply), s5.entries)
  }

  /** A source's reply from the `/` route is what a lone call on the
      starting map gives, and its key ends as that lone call leaves it. */
  lemma RootSourceIsIndependent(entries: map<string, Entry>, now: nat, producers: PerSource<Outcome>, source: Source)
    ensures Root(entries, now, producers).0.Get(source)
            == Fetch(entries, KeyOf(source), now, producers.Get(source)).reply
    ensures SameAt(Root(entries, now, producers).1,
                   Fetch(entries, KeyOf(source), now, producers.Get(source)).entries, KeyOf(source))
  {
    var s1 := Fetch(entries, "linkedin", now, producers.linkedin);
    var s2 := Fetch(s1.entries, "medium", now, producers.medium);
    var s3 := Fetch(s2.entries, "discord", now, producers.discord);
    var s4 := Fetch(s3.entries, "telegram", now, producers.telegram);
    match source
    case LinkedIn =>
      FetchLeavesOtherKeys(s1.entries, "medium", now, producers.medium, "linkedin");
      FetchLeavesOtherKeys(s2.entries, "discord", now, producers.discord, "linkedin");
      FetchLeavesOtherKeys(s3.entries, "telegram", now, producers.telegram, "linkedin");
      FetchLeavesOtherKeys(s4.entries, "twitter", now, producers.twitter, "linkedin");
    case Medium =>
      FetchReadsOnlyItsKey(s1.entries, entries, "medium", now, producers.medium);
      FetchLeavesOtherKeys(s2.entries, "discord", now, producers.discord, "medium");
      FetchLeavesOtherKeys(s3.entries, "telegram", now, producers.telegram, "medium");
      FetchLeavesOtherKeys(s4.entries, "twitter", now, producers.twitter, "medium");
    case Discord =>
      FetchLeavesOtherKeys(entries, "linkedin", now, producers.linkedin, "discord");
      FetchLeavesOtherKeys(s1.entries, "medium", now, producers.medium, "discord");
      FetchReadsOnlyItsKey(s2.entries, entries, "discord", now, producers.discord);
      FetchLeavesOtherKeys(s3.entries, "telegram", now, producers.telegram, "discord");
      FetchLeavesOtherKeys(s4.entries, "twitter", now, producers.twitter, "discord");
    case Telegram =>
      FetchLeavesOtherKeys(entries, "linkedin", now, producers.linkedin, "telegram");
      FetchLeavesOtherKeys(s1.entries, "medium", now, producers.medium, "telegram");
      FetchLeavesOtherKeys(s2.entries, "discord", now, producers.discord, "telegram");
      FetchReadsOnlyItsKey(s3.entries, entries, "telegram", now, producers.telegram);
      FetchLeavesOtherKeys(s4.entries, "twitter", now, producers.twitter, "telegram");
    case Twitter =>
      FetchLeavesOtherKeys(entries, "linkedin", now, producers.linkedin, "twitter");
      FetchLeavesOtherKeys(s1.entries, "medium", now, producers.medium, "twitter");
      FetchLeavesOtherKeys(s2.entries, "discord", now, producers.discord, "twitter");
      FetchLeavesOtherKeys(s3.entries, "telegram", now, producers.telegram, "twitter");
      FetchReadsOnlyItsKey(s4.entries, entries, "twitter", now, producers.twitter);
  }

  /** The `/` route touches no key but the five source keys. */
  lemma RootLeavesOtherKeys(entries: map<string, Entry>, now: nat, producers: PerSource<Outcome>, k: string)
    requires k !in SourceKeys
    ensures SameAt(Root(entries, now, producers).1, entries, k)
  {
    var s1 := Fetch(entries, "linkedin", now, producers.linkedin);
    var s2 := Fetch(s1.entries, "medium", now, producers.medium);
    var s3 := Fetch(s2.entries, "discord", now, producers.discord);
    var s4 := Fetch(s3.entries, "telegram", now, producers.telegram);
    FetchLeavesOtherKeys(entries, "linkedin", now, producers.linkedin, k);
    FetchLeavesOtherKeys(s1.entries, "medium", now, producers.medium, k);
    FetchLeavesOtherKeys(s2.entries, "discord", now, producers.discord, k);
    FetchLeavesOtherKeys(s3.entries, "telegram", now, producers.telegram, k);
    FetchLeavesOtherKeys(s4.entries, "twitter", now, producers.twitter, k);
  }

  /** The order of the five calls does not matter: each source's reply is
      what a lone call on the starting map gives, each source key ends as a
      lone call leaves it, and every other key is untouched. */
  lemma RootIsOrderIndependent(entries: map<string, Entry>, now: nat, producers: PerSource<Outcome>)
    ensures forall source: Source ::
              Root(entries, now, producers).0.Get(source)
              == Fetch(entries, KeyOf(source), now, producers.Get(source)).reply
    ensures forall source: Source ::
              SameAt(Root(entries, now, producers).1,
                     Fetch(entries, KeyOf(source), now, producers.Get(source)).entries, KeyOf(source))
    ensures forall k :: k !in SourceKeys ==> SameAt(Root(entries, now, producers).1, entries, k)
  {
    forall source: Source
      ensures Root(entries, now, producers).0.Get(source)
              == Fetch(entries, KeyOf(source), now, producers.Get(source)).reply
      ensures SameAt(Root(entries, now, producers).1,
                     Fetch(entries, KeyOf(source), now, producers.Get(source)).entries, KeyOf(source))
    {
      RootSourceIsIndependent(entries, now, producers, source);
    }
    forall k | k !in SourceKeys ensures SameAt(Root(entries, now, producers).1, entries, k) {
      RootLeavesOtherKeys(entries, now, producers, k);
    }
  }

  /** On an empty cache, producers that resolve come back exactly as they
      resolved, under their own source. */
  lemma RootOnEmptyCache(now: nat, values: PerSource<Value>)
    ensures var producers := PerSource(Resolved(values.linkedin), Resolved(values.medium),
                                       Resolved(values.discord), Resolved(values.telegram),
                                       Resolved(values.twitter));
            forall source: Source :: Root(map[], now, producers).0.Get(source) == Data(values.Get(source))
  {
    var producers := PerSource(Resolved(values.linkedin), Resolved(values.medium),
                               Resolved(values.discord), Resolved(values.telegram),
                               Resolved(values.twitter));
    RootIsOrderIndependent(map[], now, producers);
  }

  /** The ReferenceError the `/discord` route's producer throws: it names a
      constant that is never declared. */
  const UndeclaredLeaderboardError: string := "WITNET_DISCORD_MEE6_LEADERBOARD is not defined"

  /** The `/discord` route can only serve what the `/` route stored: it
      never changes the map, and answers the error whenever the entry is
      missing or stale. */
  lemma DiscordRouteNeverRefreshes(entries: map<string, Entry>, now: nat)
    ensures var s := Fetch(entries, KeyOf(Discord), now, Thrown(UndeclaredLeaderboardError));
            && s.entries == entries
            && (IsStale(entries, "discord", now) <==> s.reply == Error(UndeclaredLeaderboardError))
            && (!IsStale(entries, "discord", now) ==> s.reply == Data(entries["discord"].data))
  {
  }

  /** The process-wide `cache` object. */
  class Cache {
    var entries: map<string, Entry>

    constructor ()
      ensures entries == map[]
    {
      entries := map[];
    }

    /** fetchWithCache(key, producer) at time `now`. */
    method FetchWithCache(key: string, now: nat, producer: Outcome) returns (reply: Reply, invoked: bool)
      modifies this
      ensures Step(reply, entries, invoked) == Fetch(old(entries), key, now, producer)
    {
      invoked := false;
      if key !in entries || now - entries[key].lastFetchTime > CacheDurationMs {
        invoked := true;
        match producer
        case Thrown(message) =>
          return Error(message), invoked;
        case Resolved(data) =>
          entries := entries[key := Entry(data, now)];
      }
      reply := Data(entries[key].data);
    }

    /** The `/` route: the five cached fetches, assembled into one record. */
    method RootRoute(now: nat, producers: PerSource<Outcome>) returns (response: PerSource<Reply>)
      modifies this
      ensures (response, entries) == Root(old(entries), now, producers)
    {
      var linkedin, medium, discord, telegram, twitter;
      var invoked: bool;
      linkedin, invoked := FetchWithCache("linkedin", now, producers.linkedin);
      medium, invoked := FetchWithCache("medium", now, producers.medium);
      discord, invoked := FetchWithCache("discord", now, producers.discord);
      telegram, invoked := FetchWithCache("telegram", now, producers.telegram);
      twitter, invoked := FetchWithCache("twitter", now, producers.twitter);
      response := PerSource(linkedin, medium, discord, telegram, twitter);
    }

    /** The `/linkedin`, `/medium`, `/telegram` and `/twitter` routes: one
        cached fetch on the source's key. */
    method SourceRoute(source: Source, now: nat, producer: Outcome) returns (reply: Reply)
      requires source != Discord
      modifies this
      ensures var s := Fetch(old(entries), KeyOf(source), now, producer);
              reply == s.reply && entries == s.entries
    {
      var invoked;
      reply, invoked := FetchWithCache(KeyOf(source), now, producer);
    }

    /** The `/discord` route: its producer throws before it can fetch. */
    method DiscordRoute(now: nat) returns (reply: Reply)
      modifies this
      ensures entries == old(entries)
      ensures reply == Fetch(old(entries), KeyOf(Discord), now, Thrown(UndeclaredLeaderboardError)).reply
    {
      var invoked;
      reply, invoked := FetchWithCache(KeyOf(Discord), now, Thrown(UndeclaredLeaderboardError));
    }
  }
}
