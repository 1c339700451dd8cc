/**
 * One cycle of `main`: refresh the token file from the wallet file, read the tokens back, stop when
 * there is none, otherwise run a fresh `FireverseMusicBot` per token (`processTokenAndTasks`) with
 * the proxies handed out round-robin. The 16-hour wait between cycles is not modelled: a cycle
 * either stops the loop or is followed by another one.
 */
module Scheduler {
  import opened Options
  import opened LineFiles
  import opened Player
  import opened Auth
  import opened WalletKeys

  // ---------------------------------------------------------------------------------------------
  // Round-robin proxies

  /** `proxies.length > 0 ? proxies[i % proxies.length] : null`: the proxy of the `i`-th token. */
  function ProxyFor(proxies: seq<Proxy>, i: nat): Option<Proxy> {
    if |proxies| > 0 then Some(proxies[i % |proxies|]) else None
  }

  /**
   * No proxy exactly when the list is empty; otherwise the first tokens take the proxies in list
   * order, every proxy handed out is one of the list, and tokens `i` and `i + |proxies|` share one.
   */
  lemma RoundRobin(proxies: seq<Proxy>, i: nat)
    ensures ProxyFor(proxies, i).None? <==> proxies == []
    ensures ProxyFor(proxies, i).Some? ==> ProxyFor(proxies, i).value in proxies
    ensures i < |proxies| ==> ProxyFor(proxies, i) == Some(proxies[i])
    ensures ProxyFor(proxies, i + |proxies|) == ProxyFor(proxies, i)
  {
    if proxies != [] {
      var n := |proxies|;
      assert (i + n) % n == i % n by { ModShift(i, n); }
    }
  }

  lemma ModShift(i: nat, n: nat)
    requires n > 0
    ensures (i + n) % n == i % n && (i + n) / n == i / n + 1
  {
    DivModUnique(i + n, n, i / n + 1, i % n);
  }

  /** Euclidean division is determined by any decomposition with a remainder in range. */
  lemma DivModUnique(x: nat, n: nat, q: nat, r: nat)
    requires n > 0 && r < n && x == q * n + r
    ensures x / n == q && x % n == r
  {
    var q' := x / n;
    if q' > q {
      MulMonotone(q' - q, n);
    } else if q' < q {
      MulMonotone(q - q', n);
    }
  }

  lemma MulMonotone(a: nat, n: nat)
    requires a >= 1
    ensures a * n >= n
  {
  }

  /** The slot after slot `m % len`, and the round it falls in. */
  lemma NextSlot(m: nat, len: nat)
    requires len > 0
    ensures (m + 1) % len == (if m % len == len - 1 then 0 else m % len + 1)
    ensures (m + 1) / len == (if m % len == len - 1 then m / len + 1 else m / len)
  {
    var q, r := m / len, m % len;
    if r == len - 1 {
      assert m + 1 == (q + 1) * len;
      DivModUnique(m + 1, len, q + 1, 0);
    } else {
      DivModUnique(m + 1, len, q, r + 1);
    }
  }

  /** How many of the first `n` tokens are handed slot `k` of a list of `len` proxies. */
  function Load(len: nat, k: nat, n: nat): nat
    requires len > 0
    decreases n
  {
    if n == 0 then 0 else Load(len, k, n - 1) + (if (n - 1) % len == k then 1 else 0)
  }

  /**
   * The assignment is balanced: of the first `n` tokens, slot `k` serves `n / len` of them, plus
   * one when `k` lies in the last, incomplete round. So loads differ by at most one.
   */
  lemma {:induction false} RoundRobinBalanced(len: nat, k: nat, n: nat)
    requires k < len
    ensures Load(len, k, n) == n / len + (if k < n % len then 1 else 0)
    decreases n
  {
    if n > 0 {
      RoundRobinBalanced(len, k, n - 1);
      NextSlot(n - 1, len);
    }
  }

  /** Every full round of `len` tokens hands each slot exactly one more token. */
  lemma RoundRobinRound(len: nat, k: nat, n: nat)
    requires k < len
    ensures Load(len, k, n + len) == Load(len, k, n) + 1
  {
    RoundRobinBalanced(len, k, n);
    RoundRobinBalanced(len, k, n + len);
    ModShift(n, len);
  }

  /** No proxy serves more than one token beyond any other. */
  lemma RoundRobinFair(len: nat, j: nat, k: nat, n: nat)
    requires j < len && k < len
    ensures Load(len, j, n) <= Load(len, k, n) + 1
  {
    RoundRobinBalanced(len, j, n);
    RoundRobinBalanced(len, k, n);
  }

  // ---------------------------------------------------------------------------------------------
  // One account

  /**
   * The inputs of one account's run: the reply to its user-info request, the recommended songs,
   * the service's answers, and `Date.now()` when its bot is created.
   */
  datatype Feed = Feed(userInfo: UserInfoReply, songs: seq<Song>, svc: Service, start: int)

  /** What an account's bot leaves behind: token, 1-based index, proxy, played ids, songs counted, seconds listened. */
  datatype AccountRun = AccountRun(
    token: string,
    index: nat,
    proxy: Option<Proxy>,
    played: set<SongId>,
    songCount: nat,
    listened: nat)

  /** The run a fresh bot makes: it plays the first new songs of the recommendation, up to the quota. */
  function ExpectedRun(token: string, i: nat, proxy: Option<Proxy>, feed: Feed): AccountRun {
    var picks := Pick({}, SongsToPlay, feed.songs);
    AccountRun(token, i + 1, proxy, IdSet(picks), |picks|, TotalListening(feed.svc, picks))
  }

  /**
   * `processTokenAndTasks(token, ..., i, ..., proxy)`: a bot numbered `i + 1` is created,
   * initialized (which always succeeds) and runs its tasks once.
   */
  method ProcessTokenAndTasks(token: string, i: nat, proxy: Option<Proxy>, feed: Feed) returns (run: AccountRun)
    ensures run == ExpectedRun(token, i, proxy, feed)
    ensures run.songCount <= SongsToPlay && run.songCount == |run.played|
  {
    var bot := new FireverseMusicBot(token, i + 1, proxy, feed.start);
    ghost var books0 := Ledger({}, 0, [], 0);
    assert bot.Books() == books0;
    var ok := bot.Initialize(feed.userInfo);
    if ok {
      bot.PerformTasks(feed.songs, feed.svc);
    }
    assert bot.Books() == Account(books0, feed.svc, Pick({}, SongsToPlay, feed.songs));
    RunOfBooks(token, i, proxy, feed, bot.Books());
    run := AccountRun(bot.token, bot.accountIndex, bot.proxy, bot.playedSongs, bot.songCount, bot.totalListeningTime);
  }

  /** The bookkeeping a fresh bot ends with, read as the account's run. */
  lemma RunOfBooks(token: string, i: nat, proxy: Option<Proxy>, feed: Feed, books: Ledger)
    requires books == Account(Ledger({}, 0, [], 0), feed.svc, Pick({}, SongsToPlay, feed.songs))
    ensures AccountRun(token, i + 1, proxy, books.played, books.count, books.listened) == ExpectedRun(token, i, proxy, feed)
  {
    AccountFacts(Ledger({}, 0, [], 0), feed.svc, Pick({}, SongsToPlay, feed.songs));
  }

  /** Each account plays the songs of its recommendation with new ids, first occurrences only, at most 25. */
  lemma ExpectedRunPlays(token: string, i: nat, proxy: Option<Proxy>, feed: Feed)
    ensures var all := FirstOccurrences({}, feed.songs);
            && ExpectedRun(token, i, proxy, feed).songCount == (if SongsToPlay < |all| then SongsToPlay else |all|)
            && Pick({}, SongsToPlay, feed.songs) <= all
  {
    PickIsQuotaOfFirstOccurrences({}, SongsToPlay, feed.songs);
  }

  // ---------------------------------------------------------------------------------------------
  // One cycle of `main`

  /** A cycle either stops the loop (no token) or runs every token's account. */
  datatype Cycle = Stopped | Ran(runs: seq<AccountRun>)

  /**
   * One pass of `main`'s loop: `getTokensFromWallets`, `readTokensFromFile`, the empty-list exit,
   * then one run per token in file order, token `i` with the round-robin proxy `i`.
   */
  method RunCycle(walletFile: Option<string>, tokenFile: Option<string>, proxies: seq<Proxy>,
                  auth: nat -> Replies, feeds: nat -> Feed)
    returns (cycle: Cycle, newTokenFile: Option<string>)
    ensures WroteTokens(walletFile, tokenFile, auth, newTokenFile)
    ensures cycle.Stopped? <==> ReadTokens(newTokenFile) == []
    ensures cycle.Ran? ==>
              var tokens := ReadTokens(newTokenFile);
              && |cycle.runs| == |tokens|
              && forall i :: 0 <= i < |tokens| ==>
                   cycle.runs[i] == ExpectedRun(tokens[i], i, ProxyFor(proxies, i), feeds(i))
  {
    newTokenFile := GetTokensFromWallets(walletFile, tokenFile, auth);
    var tokens := ReadTokens(newTokenFile);
    if |tokens| == 0 {
      return Stopped, newTokenFile;
    }
    var runs := ProcessTokens(tokens, proxies, feeds);
    cycle := Ran(runs);
  }

  /** `main`'s `for` loop over the tokens: one run per token, in order, token `i` with proxy `i`. */
  method ProcessTokens(tokens: seq<string>, proxies: seq<Proxy>, feeds: nat -> Feed) returns (runs: seq<AccountRun>)
    ensures |runs| == |tokens|
    ensures forall i :: 0 <= i < |tokens| ==> runs[i] == ExpectedRun(tokens[i], i, ProxyFor(proxies, i), feeds(i))
  {
    runs := [];
    for i := 0 to |tokens|
      invariant |runs| == i
      invariant forall j :: 0 <= j < i ==> runs[j] == ExpectedRun(tokens[j], j, ProxyFor(proxies, j), feeds(j))
    {
      var run := ProcessTokenAndTasks(tokens[i], i, ProxyFor(proxies, i), feeds(i));
      runs := runs + [run];
    }
  }

  /**
   * When the wallet file holds keys and every token obtained can be stored, the cycle runs exactly
   * the accounts of the wallets that signed in, in wallet order.
   */
  lemma CycleRunsSignedInWallets(walletFile: Option<string>, tokenFile: Option<string>, auth: nat -> Replies,
                                 newTokenFile: Option<string>)
    requires WroteTokens(walletFile, tokenFile, auth, newTokenFile)
    requires walletFile.Some? && ScanKeys(walletFile.value) != []
    requires var tokens := Collected(auth, |ScanKeys(walletFile.value)|);
             forall j :: 0 <= j < |tokens| ==> IsStorableToken(tokens[j])
    ensures ReadTokens(newTokenFile) == Collected(auth, |ScanKeys(walletFile.value)|)
  {
    GeneratedTokensReadBack(auth, |ScanKeys(walletFile.value)|);
  }
}
