/**
 * The peer cache of client.py and its limit on forced refreshes. A resolution is two segments, up to
 * the card fetch and after it, so that other resolutions can run while a card is being fetched.
 */
module PeerClient {
  import opened Wrappers
  import opened Receiver

  type Card = string

  datatype Cache = Cache(peers: map<string, Peer>, cards: map<string, Card>, refreshed: map<string, real>)

  /** How the first segment ends: with the peer, with an exception, or with a card to be fetched. */
  datatype Begun = Resolved(peer: Peer) | Unusable | Fetching

  /** What a client is built with; `extract` is `extract_peer_info`, which may raise. */
  datatype Options = Options(interval: real, extract: (Card, string) -> Option<Peer>)

  function LastRefresh(c: Cache, url: string): real {
    if url in c.refreshed then c.refreshed[url] else 0.0
  }

  /** Keep what the card says about the peer; a card that says nothing usable raises. */
  function Learn(O: Options, c: Cache, url: string, card: Card): (Cache, Begun) {
    var info := O.extract(card, url);
    if info.None? then (c, Unusable) else (c.(peers := c.peers[url := info.value]), Resolved(info.value))
  }

  /** `resolve_peer` up to the fetch; `now` is read only if a refresh is forced. */
  function Begin(O: Options, c: Cache, url: string, force: bool, now: real): (Cache, Begun) {
    if force then
      if now - LastRefresh(c, url) < O.interval && url in c.peers then (c, Resolved(c.peers[url]))
      else (c.(refreshed := c.refreshed[url := now]), Fetching)
    else if url in c.peers then (c, Resolved(c.peers[url]))
    else if url in c.cards then Learn(O, c, url, c.cards[url])
    else (c, Fetching)
  }

  /** The rest of it, with the card fetched or `None` if the fetch raised. */
  function Finish(O: Options, c: Cache, url: string, card: Option<Card>): (Cache, Begun) {
    if card.None? then (c, Unusable) else Learn(O, c.(cards := c.cards[url := card.value]), url, card.value)
  }

  /** The object that holds the cache. */
  class Client {
    const options: Options
    var peers: map<string, Peer>
    var cards: map<string, Card>
    var lastForceRefresh: map<string, real>

    ghost function Contents(): Cache
      reads this
    {
      Cache(peers, cards, lastForceRefresh)
    }

    constructor (options: Options)
      ensures this.options == options && Contents() == Cache(map[], map[], map[])
    {
      this.options := options;
      peers, cards, lastForceRefresh := map[], map[], map[];
    }

    method BeginResolve(url: string, force: bool, now: real) returns (r: Begun)
      modifies this
      ensures (Contents(), r) == Begin(options, old(Contents()), url, force, now)
    {
      if force {
        var last := if url in lastForceRefresh then lastForceRefresh[url] else 0.0;
        if now - last < options.interval {
          if url in peers {
            return Resolved(peers[url]);
          }
        }
        lastForceRefresh := lastForceRefresh[url := now];
        return Fetching;
      }
      if url in peers {
        return Resolved(peers[url]);
      }
      if url !in cards {
        return Fetching;
      }
      r := LearnPeer(url, cards[url]);
    }

    method FinishResolve(url: string, card: Option<Card>) returns (r: Begun)
      modifies this
      ensures (Contents(), r) == Finish(options, old(Contents()), url, card)
    {
      if card.None? {
        return Unusable;
      }
      cards := cards[url := card.value];
      r := LearnPeer(url, card.value);
    }

    method LearnPeer(url: string, card: Card) returns (r: Begun)
      modifies `peers
      ensures (Contents(), r) == Learn(options, old(Contents()), url, card)
    {
      var info := options.extract(card, url);
      if info.None? {
        return Unusable;
      }
      peers := peers[url := info.value];
      r := Resolved(info.value);
    }
  }

  // --- runs --------------------------------------------------------------------------------------

  /** Calls begin and fetches end in any order; a card may also be fetched to send an envelope. */
  datatype Event =
    | Called(url: string, force: bool, now: real)
    | Fetched(url: string, card: Option<Card>)
    | CardFetched(url: string, found: Card)

  function Step(O: Options, c: Cache, e: Event): Cache {
    match e
    case Called(url, force, now) => Begin(O, c, url, force, now).0
    case Fetched(url, card) => Finish(O, c, url, card).0
    case CardFetched(url, found) => c.(cards := c.cards[url := found])
  }

  function Run(O: Options, c: Cache, es: seq<Event>): Cache {
    if es == [] then c else Step(O, Run(O, c, es[..|es| - 1]), es[|es| - 1])
  }

  /** Event `i` starts a forced fetch of the card of `url`. */
  predicate Refreshes(O: Options, c: Cache, es: seq<Event>, i: nat, url: string)
    requires i < |es|
  {
    && es[i].Called? && es[i].url == url && es[i].force
    && Begin(O, Run(O, c, es[..i]), url, true, es[i].now).1.Fetching?
  }

  /** The clock never goes back. */
  ghost predicate Ticking(es: seq<Event>) {
    forall i, j :: 0 <= i < j < |es| && es[i].Called? && es[j].Called? ==> es[i].now <= es[j].now
  }

  lemma RunStep(O: Options, c: Cache, es: seq<Event>, i: nat)
    requires i < |es|
    ensures Run(O, c, es[..i + 1]) == Step(O, Run(O, c, es[..i]), es[i])
  {
    assert es[..i + 1][..i] == es[..i];
  }

  /** A peer once cached stays cached. */
  lemma {:induction false} StaysKnown(O: Options, c: Cache, es: seq<Event>, i: nat, j: nat, url: string)
    requires i <= j <= |es| && url in Run(O, c, es[..i]).peers
    ensures url in Run(O, c, es[..j]).peers
    decreases j
  {
    if i < j {
      StaysKnown(O, c, es, i, j - 1, url);
      RunStep(O, c, es, j - 1);
      KnownStep(O, Run(O, c, es[..j - 1]), es[j - 1], url);
    }
  }

  lemma KnownStep(O: Options, c: Cache, e: Event, url: string)
    requires url in c.peers
    ensures url in Step(O, c, e).peers
  {
  }

  /** After a forced fetch the recorded time is that fetch's or a later one's. */
  lemma {:induction false} RefreshRecorded(O: Options, c: Cache, es: seq<Event>, i: nat, j: nat, url: string)
    requires i < j <= |es| && Ticking(es) && Refreshes(O, c, es, i, url)
    ensures LastRefresh(Run(O, c, es[..j]), url) >= es[i].now
    decreases j
  {
    RunStep(O, c, es, j - 1);
    var before := Run(O, c, es[..j - 1]);
    if i < j - 1 {
      RefreshRecorded(O, c, es, i, j - 1, url);
      RecordKept(O, before, es[j - 1], url, es[i].now);
    }
  }

  lemma RecordKept(O: Options, c: Cache, e: Event, url: string, t: real)
    requires LastRefresh(c, url) >= t && (e.Called? ==> e.now >= t)
    ensures LastRefresh(Step(O, c, e), url) >= t
  {
  }

  /** A forced fetch of a cached peer's card comes at least the interval after every earlier one, cached then or not. */
  lemma RefreshesApart(O: Options, c: Cache, es: seq<Event>, i: nat, j: nat, url: string)
    requires i < j < |es| && Ticking(es) && url in Run(O, c, es[..j]).peers
    requires Refreshes(O, c, es, i, url) && Refreshes(O, c, es, j, url)
    ensures es[j].now - es[i].now >= O.interval
  {
    RefreshRecorded(O, c, es, i, j, url);
  }

  /** Positions of forced fetches of one peer's card, in order. */
  ghost predicate RefreshesAt(O: Options, c: Cache, es: seq<Event>, at: seq<nat>, url: string) {
    && (forall i :: 0 <= i < |at| ==> at[i] < |es| && Refreshes(O, c, es, at[i], url))
    && (forall i :: 0 < i < |at| ==> at[i - 1] < at[i])
  }

  /** The peer is cached when the second of them starts. */
  ghost predicate KnownBySecond(O: Options, c: Cache, es: seq<Event>, at: seq<nat>, url: string)
    requires RefreshesAt(O, c, es, at, url)
  {
    |at| > 1 ==> url in Run(O, c, es[..at[1]]).peers
  }

  lemma {:induction false} Ascending(at: seq<nat>, i: nat, j: nat)
    requires i <= j < |at| && forall k :: 0 < k < |at| ==> at[k - 1] < at[k]
    ensures at[i] <= at[j]
    decreases j
  {
    if i < j {
      Ascending(at, i, j - 1);
    }
  }

  function Times(n: nat, x: real): real {
    if n == 0 then 0.0 else Times(n - 1, x) + x
  }

  lemma {:induction false} TimesIsProduct(n: nat, x: real)
    ensures Times(n, x) == n as real * x
  {
    if n > 0 {
      TimesIsProduct(n - 1, x);
      assert n as real * x == ((n - 1) as real + 1.0) * x;
    }
  }

  lemma {:induction false} RefreshesSpread(O: Options, c: Cache, es: seq<Event>, at: seq<nat>, url: string)
    requires Ticking(es) && |at| > 0 && RefreshesAt(O, c, es, at, url) && KnownBySecond(O, c, es, at, url)
    ensures Times(|at| - 1, O.interval) <= es[at[|at| - 1]].now - es[at[0]].now
    decreases |at|
  {
    var n := |at| - 1;
    if n > 0 {
      var front := at[..n];
      assert front[0] == at[0] && front[n - 1] == at[n - 1] && at[n - 1] < at[n];
      RefreshesSpread(O, c, es, front, url);
      Ascending(at, 1, n);
      StaysKnown(O, c, es, at[1], at[n], url);
      RefreshesApart(O, c, es, at[n - 1], at[n], url);
    }
  }

  /** So a span of time `T` holds `n` of them only if `(n - 1) * interval <= T`. */
  lemma RefreshRate(O: Options, c: Cache, es: seq<Event>, at: seq<nat>, url: string)
    requires Ticking(es) && |at| > 0 && RefreshesAt(O, c, es, at, url) && KnownBySecond(O, c, es, at, url)
    ensures (|at| - 1) as real * O.interval <= es[at[|at| - 1]].now - es[at[0]].now
  {
    RefreshesSpread(O, c, es, at, url);
    TimesIsProduct(|at| - 1, O.interval);
  }

  /** Until then nothing limits them: a peer that is not cached is fetched at every forced call. */
  lemma UnlimitedWhenUnknown(O: Options, c: Cache, url: string, now: real)
    requires url !in c.peers
    ensures var es := [Called(url, true, now), Called(url, true, now)];
            Refreshes(O, c, es, 0, url) && Refreshes(O, c, es, 1, url)
  {
    var es := [Called(url, true, now), Called(url, true, now)];
    assert es[..0] == [];
    RunStep(O, c, es, 0);
  }

  // --- what a resolution returns ------------------------------------------------------------------------

  /** What event `e` hands back to the call it is part of. */
  function Answer(O: Options, c: Cache, e: Event): Begun {
    match e
    case Called(url, force, now) => Begin(O, c, url, force, now).1
    case Fetched(url, card) => Finish(O, c, url, card).1
    case CardFetched(_, _) => Fetching
  }

  /** What the card says about the peer, or the exception if it says nothing usable. */
  function SaidBy(O: Options, url: string, card: Card): Begun {
    match O.extract(card, url)
    case None => Unusable
    case Some(peer) => Resolved(peer)
  }

  /** A resolution that fetched a card returns what that card says, whatever was cached, and raises without one. */
  lemma FetchDecides(O: Options, c: Cache, url: string, card: Option<Card>)
    ensures Answer(O, c, Fetched(url, card)) == if card.None? then Unusable else SaidBy(O, url, card.value)
  {
  }

  /** A call that is not forced asks the network only when neither the peer nor its card is cached. */
  lemma PlainCall(O: Options, c: Cache, url: string, now: real)
    ensures Answer(O, c, Called(url, false, now)) ==
            if url in c.peers then Resolved(c.peers[url])
            else if url in c.cards then SaidBy(O, url, c.cards[url])
            else Fetching
  {
  }

  /** A forced one does unless the peer is cached and the last forced fetch is less than the interval ago. */
  lemma ForcedCall(O: Options, c: Cache, url: string, now: real)
    ensures var recent := now - (if url in c.refreshed then c.refreshed[url] else 0.0) < O.interval;
            Answer(O, c, Called(url, true, now)) ==
            if url in c.peers && recent then Resolved(c.peers[url]) else Fetching
  {
  }

  ghost predicate SameAt<T>(m: map<string, T>, n: map<string, T>, url: string) {
    (url in m <==> url in n) && (url in m ==> n[url] == m[url])
  }

  /** No event changes what is cached of another URL. */
  lemma OtherUrls(O: Options, c: Cache, e: Event, url: string)
    requires e.url != url
    ensures var d := Step(O, c, e);
            SameAt(d.peers, c.peers, url) && SameAt(d.cards, c.cards, url) && SameAt(d.refreshed, c.refreshed, url)
  {
  }

  /** The card of `url` that an event brings. */
  function Brought(e: Event, url: string): Option<Card> {
    match e
    case Fetched(u, card) => if u == url then card else None
    case CardFetched(u, card) => if u == url then Some(card) else None
    case Called(_, _, _) => None
  }

  lemma CardStep(O: Options, c: Cache, e: Event, url: string)
    ensures var d, card := Step(O, c, e), Brought(e, url);
            if card.Some? then url in d.cards && d.cards[url] == card.value else SameAt(d.cards, c.cards, url)
  {
  }

  /** Of the first `i` events, `k` is the last to bring a card of `url`, and brings this one. */
  ghost predicate LatestCard(es: seq<Event>, i: nat, k: nat, url: string, card: Card)
    requires i <= |es|
  {
    k < i && Brought(es[k], url) == Some(card) && forall m :: k < m < i ==> Brought(es[m], url) == None
  }

  ghost predicate NoCard(es: seq<Event>, i: nat, url: string)
    requires i <= |es|
  {
    forall k :: 0 <= k < i ==> Brought(es[k], url) == None
  }

  /** After `i` events the card cached is the one brought last, or else the one there was. */
  ghost predicate CardIsLatest(O: Options, c: Cache, es: seq<Event>, i: nat, url: string)
    requires i <= |es|
  {
    var d := Run(O, c, es[..i]);
    || (url in d.cards && exists k :: 0 <= k < i && LatestCard(es, i, k, url, d.cards[url]))
    || (NoCard(es, i, url) && SameAt(d.cards, c.cards, url))
  }

  lemma {:induction false} CachedCard(O: Options, c: Cache, es: seq<Event>, i: nat, url: string)
    requires i <= |es|
    ensures CardIsLatest(O, c, es, i, url)
    decreases i
  {
    if i == 0 {
      assert es[..0] == [];
    } else {
      CachedCard(O, c, es, i - 1, url);
      CardStaysLatest(O, c, es, i - 1, url);
    }
  }

  lemma CardStaysLatest(O: Options, c: Cache, es: seq<Event>, i: nat, url: string)
    requires i < |es| && CardIsLatest(O, c, es, i, url)
    ensures CardIsLatest(O, c, es, i + 1, url)
  {
    var b, d := Run(O, c, es[..i]), Run(O, c, es[..i + 1]);
    RunStep(O, c, es, i);
    CardStep(O, b, es[i], url);
    if Brought(es[i], url).Some? {
      assert LatestCard(es, i + 1, i, url, d.cards[url]);
    } else if url in b.cards {
      var card := b.cards[url];
      if k :| 0 <= k < i && LatestCard(es, i, k, url, card) {
        assert LatestCard(es, i + 1, k, url, card);
      }
    }
  }

  /**
   * What event `e` learns about the peer at `url`: the end of a fetch learns what the card says; a call that
   * is not forced and finds no peer cached learns what the cached card says.
   */
  function Learned(O: Options, c: Cache, e: Event, url: string): Option<Peer> {
    match e
    case Fetched(u, card) => if u == url && card.Some? then O.extract(card.value, url) else None
    case Called(u, force, _) =>
      if u == url && !force && url !in c.peers && url in c.cards then O.extract(c.cards[url], url) else None
    case CardFetched(_, _) => None
  }

  lemma PeerStep(O: Options, c: Cache, e: Event, url: string)
    ensures var d, peer := Step(O, c, e), Learned(O, c, e, url);
            if peer.Some? then url in d.peers && d.peers[url] == peer.value else SameAt(d.peers, c.peers, url)
  {
  }

  function LearnedAt(O: Options, c: Cache, es: seq<Event>, k: nat, url: string): Option<Peer>
    requires k < |es|
  {
    Learned(O, Run(O, c, es[..k]), es[k], url)
  }

  /** Of the first `i` events, `k` is the last to learn something of `url`, and learns this. */
  ghost predicate LatestPeer(O: Options, c: Cache, es: seq<Event>, i: nat, k: nat, url: string, peer: Peer)
    requires i <= |es|
  {
    && k < i && LearnedAt(O, c, es, k, url) == Some(peer)
    && forall m :: k < m < i ==> LearnedAt(O, c, es, m, url) == None
  }

  ghost predicate NothingLearned(O: Options, c: Cache, es: seq<Event>, i: nat, url: string)
    requires i <= |es|
  {
    forall k :: 0 <= k < i ==> LearnedAt(O, c, es, k, url) == None
  }

  /** After `i` events the peer cached is the one learned last, or else the one there was. */
  ghost predicate PeerIsLatest(O: Options, c: Cache, es: seq<Event>, i: nat, url: string)
    requires i <= |es|
  {
    var d := Run(O, c, es[..i]);
    || (url in d.peers && exists k :: 0 <= k < i && LatestPeer(O, c, es, i, k, url, d.peers[url]))
    || (NothingLearned(O, c, es, i, url) && SameAt(d.peers, c.peers, url))
  }

  lemma {:induction false} CachedPeer(O: Options, c: Cache, es: seq<Event>, i: nat, url: string)
    requires i <= |es|
    ensures PeerIsLatest(O, c, es, i, url)
    decreases i
  {
    if i == 0 {
      assert es[..0] == [];
    } else {
      CachedPeer(O, c, es, i - 1, url);
      PeerStaysLatest(O, c, es, i - 1, url);
    }
  }

  lemma PeerStaysLatest(O: Options, c: Cache, es: seq<Event>, i: nat, url: string)
    requires i < |es| && PeerIsLatest(O, c, es, i, url)
    ensures PeerIsLatest(O, c, es, i + 1, url)
  {
    var b, d := Run(O, c, es[..i]), Run(O, c, es[..i + 1]);
    RunStep(O, c, es, i);
    PeerStep(O, b, es[i], url);
    if LearnedAt(O, c, es, i, url).Some? {
      assert LatestPeer(O, c, es, i + 1, i, url, d.peers[url]);
    } else if url in b.peers {
      var peer := b.peers[url];
      if k :| 0 <= k < i && LatestPeer(O, c, es, i, k, url, peer) {
        StillLatest(O, c, es, i, k, url, peer);
      }
    }
  }

  lemma StillLatest(O: Options, c: Cache, es: seq<Event>, i: nat, k: nat, url: string, peer: Peer)
    requires i < |es| && LatestPeer(O, c, es, i, k, url, peer) && LearnedAt(O, c, es, i, url).None?
    ensures LatestPeer(O, c, es, i + 1, k, url, peer)
  {
  }

  /**
   * In every run of a new client, a call that is not forced and finds the peer cached returns, without a
   * fetch, what the latest usable card learned for its URL said.
   */
  lemma CachedCallSays(O: Options, es: seq<Event>, i: nat, url: string)
    requires i < |es| && es[i].Called? && es[i].url == url && !es[i].force
    requires var c := Cache(map[], map[], map[]); url in Run(O, c, es[..i]).peers
    ensures var c := Cache(map[], map[], map[]);
            exists k, peer :: 0 <= k < i && LatestPeer(O, c, es, i, k, url, peer) &&
                              Answer(O, Run(O, c, es[..i]), es[i]) == Resolved(peer)
  {
    var c := Cache(map[], map[], map[]);
    CachedPeer(O, c, es, i, url);
    PlainCall(O, Run(O, c, es[..i]), url, es[i].now);
    var peer := Run(O, c, es[..i]).peers[url];
    var k :| 0 <= k < i && LatestPeer(O, c, es, i, k, url, peer);
  }

  /** A forced call that is answered from the cache follows a forced fetch of that card within the interval. */
  lemma RecentlyRefreshed(O: Options, es: seq<Event>, j: nat, url: string)
    requires j < |es| && es[j].Called? && es[j].url == url && es[j].force
    requires Answer(O, Run(O, Cache(map[], map[], map[]), es[..j]), es[j]).Resolved?
    ensures es[j].now < O.interval ||
            exists i :: 0 <= i < j && Refreshes(O, Cache(map[], map[], map[]), es, i, url) &&
                        es[j].now - es[i].now < O.interval
  {
    var c := Cache(map[], map[], map[]);
    ForcedCall(O, Run(O, c, es[..j]), url, es[j].now);
    if url in Run(O, c, es[..j]).refreshed {
      LastIsRefresh(O, c, es, j, url);
    }
  }

  /** The recorded time is that of a forced fetch. */
  lemma {:induction false} LastIsRefresh(O: Options, c: Cache, es: seq<Event>, j: nat, url: string)
    requires j <= |es| && c.refreshed == map[] && url in Run(O, c, es[..j]).refreshed
    ensures exists i :: 0 <= i < j && Refreshes(O, c, es, i, url) && es[i].now == Run(O, c, es[..j]).refreshed[url]
    decreases j
  {
    assert es[..0] == [];
    var b := Run(O, c, es[..j - 1]);
    RunStep(O, c, es, j - 1);
    if url in b.refreshed && Run(O, c, es[..j]).refreshed[url] == b.refreshed[url] {
      LastIsRefresh(O, c, es, j - 1, url);
    } else {
      if es[j - 1].url != url {
        OtherUrls(O, b, es[j - 1], url);
      }
      assert Refreshes(O, c, es, j - 1, url);
    }
  }
}
