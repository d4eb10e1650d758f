/** The Discord adapter: getDiscorServerdMembers adds up the player counts
    of up to 100 leaderboard requests, stopping at the first empty one. */
module DiscordMembers {
  import opened JsValues
  import opened Digits

  /** `maxPages`: the most leaderboard requests one run makes. */
  const MaxPages: nat := 100

  /** What one leaderboard request yields: the length of the `players` list
      in the reply, or the message of the error it throws (a failed fetch, a
      body that is not JSON, a reply without `players`). */
  datatype PageResult = Players(count: nat) | Failed(message: string)

  /** The leaderboard service as the adapter sees it: the reply to the
      `call`-th request of a run (counting from 0) when that request's URL
      asks for page `page`. Replies may change from one call to the next. */
  type Leaderboard = (nat, nat) -> PageResult

  /** getMee6LeaderboardDiscord(apiUrl, page = 0) as the `call`-th request of
      a run: `apiUrl` is never read, and the URL carries `page`, which is 0
      unless a second argument is passed. */
  function Mee6Leaderboard(board: Leaderboard, call: nat, apiUrl: int, page: nat := 0): PageResult {
    board(call, page)
  }

  /** The `apiUrl` argument has no effect on the request. */
  lemma ApiUrlIsIgnored(board: Leaderboard, call: nat, a: int, b: int, page: nat)
    ensures Mee6Leaderboard(board, call, a, page) == Mee6Leaderboard(board, call, b, page)
  {
  }

  /** Called with one argument, the request asks for page 0. */
  lemma OneArgumentAsksForPageZero(board: Leaderboard, call: nat, apiUrl: int)
    ensures Mee6Leaderboard(board, call, apiUrl) == board(call, 0)
  {
  }

  /** The page the source's loop asks for on each call: it passes its
      counter as `apiUrl`, so `page` keeps its default. */
  function AsWrittenPage(call: nat): nat { 0 }

  /** The page the loop evidently means to ask for: the counter itself. */
  function IntendedPage(call: nat): nat { call }

  /** A reply that lets the loop go on: a non-empty list of players. */
  predicate Continues(r: PageResult) {
    r.Players? && r.count != 0
  }

  function CountOf(r: PageResult): nat {
    if r.Players? then r.count else 0
  }

  /** The players counted over the first `n` calls when call `j` asks for
      page `pageOf(j)`. */
  function Total(board: Leaderboard, pageOf: nat -> nat, n: nat): nat {
    if n == 0 then 0 else Total(board, pageOf, n - 1) + CountOf(board(n - 1, pageOf(n - 1)))
  }

  /** What a run of the loop that asks for page `pageOf(j)` on call `j`
      must do: make `calls` requests, at most `MaxPages`, going on only past
      non-empty replies and stopping at the first empty or failed one (or at
      the limit); answer `null` if the last request failed, otherwise the
      decimal string of every player counted. */
  predicate Accumulates(board: Leaderboard, pageOf: nat -> nat, v: Value, calls: nat) {
    0 < calls <= MaxPages
    && (forall j :: 0 <= j < calls - 1 ==> Continues(board(j, pageOf(j))))
    && (calls == MaxPages || !Continues(board(calls - 1, pageOf(calls - 1))))
    && v == (if board(calls - 1, pageOf(calls - 1)).Failed? then Null
             else Str(DecimalString(Total(board, pageOf, calls))))
  }

  /** The contract leaves no choice: one leaderboard and one page schedule
      admit a single answer and a single number of requests. */
  lemma AccumulatesIsDeterministic(board: Leaderboard, pageOf: nat -> nat, v1: Value, c1: nat, v2: Value, c2: nat)
    requires Accumulates(board, pageOf, v1, c1) && Accumulates(board, pageOf, v2, c2)
    ensures c1 == c2 && v1 == v2
  {
  }

  /** getDiscorServerdMembers, as written: the counter goes in as `apiUrl`,
      so every request asks for page 0. A thrown request error is caught by
      the function and turned into `null`. */
  method GetDiscordServerMembers(board: Leaderboard) returns (v: Value, calls: nat)
    ensures Accumulates(board, AsWrittenPage, v, calls)
  {
    calls := 0;
    var members: nat := 0;
    var page: nat := 0;
    while page < MaxPages
      invariant page <= MaxPages && calls == page
      invariant forall j :: 0 <= j < page ==> Continues(board(j, AsWrittenPage(j)))
      invariant members == Total(board, AsWrittenPage, page)
    {
      var leaderboard := Mee6Leaderboard(board, page, page);
      calls := calls + 1;
      if leaderboard.Failed? {
        return Null, calls;
      }
      if leaderboard.count == 0 {
        break;
      }
      members := leaderboard.count + members;
      page := page + 1;
    }
    v := Str(DecimalString(members));
  }

  /** The loop with the page number passed where it belongs: request `j`
      asks for page `j`. */
  method GetDiscordServerMembersPaged(board: Leaderboard) returns (v: Value, calls: nat)
    ensures Accumulates(board, IntendedPage, v, calls)
  {
    calls := 0;
    var members: nat := 0;
    var page: nat := 0;
    while page < MaxPages
      invariant page <= MaxPages && calls == page
      invariant forall j :: 0 <= j < page ==> Continues(board(j, IntendedPage(j)))
      invariant members == Total(board, IntendedPage, page)
    {
      var leaderboard := Mee6Leaderboard(board, page, page, page);
      calls := calls + 1;
      if leaderboard.Failed? {
        return Null, calls;
      }
      if leaderboard.count == 0 {
        break;
      }
      members := leaderboard.count + members;
      page := page + 1;
    }
    v := Str(DecimalString(members));
  }

  // ----- A leaderboard that does not change during a run -----

  /** A leaderboard whose page `p` holds `sizes[p]` players, and no player
      past the last page, whatever the call. */
  function Fixed(sizes: seq<nat>): Leaderboard {
    (call: nat, page: nat) => if page < |sizes| then Players(sizes[page]) else Players(0)
  }

  function Sum(s: seq<nat>): nat {
    if s == [] then 0 else Sum(s[..|s| - 1]) + s[|s| - 1]
  }

  /** Asking for page 0 every time counts the first page once per call. */
  lemma {:induction false} TotalOfFirstPage(sizes: seq<nat>, n: nat)
    requires |sizes| > 0
    ensures Total(Fixed(sizes), AsWrittenPage, n) == n * sizes[0]
  {
    if n > 0 {
      TotalOfFirstPage(sizes, n - 1);
    }
  }

  /** Asking for page `j` on call `j` counts the pages in order. */
  lemma {:induction false} TotalOfPages(sizes: seq<nat>, n: nat)
    requires n <= |sizes|
    ensures Total(Fixed(sizes), IntendedPage, n) == Sum(sizes[..n])
  {
    if n > 0 {
      TotalOfPages(sizes, n - 1);
      assert sizes[..n][..n - 1] == sizes[..n - 1];
    }
  }

  /** As written, a fixed leaderboard whose first page is non-empty is read
      `MaxPages` times over: the run makes all 100 requests and reports 100
      times the first page, however many pages there are. */
  lemma AsWrittenRepeatsFirstPage(sizes: seq<nat>)
    requires |sizes| > 0 && sizes[0] > 0
    ensures Accumulates(Fixed(sizes), AsWrittenPage, Str(DecimalString(MaxPages * sizes[0])), MaxPages)
  {
    TotalOfFirstPage(sizes, MaxPages);
  }

  /** Read page by page, a fixed leaderboard whose first empty page is `k`
      gives the sum of the pages before it, after `k + 1` requests. */
  lemma PagedStopsAtFirstEmptyPage(sizes: seq<nat>, k: nat)
    requires k < |sizes| && k < MaxPages && sizes[k] == 0
    requires forall j :: 0 <= j < k ==> sizes[j] > 0
    ensures Accumulates(Fixed(sizes), IntendedPage, Str(DecimalString(Sum(sizes[..k]))), k + 1)
  {
    TotalOfPages(sizes, k + 1);
    assert sizes[..k + 1][..k] == sizes[..k];
  }

  lemma SmallNumerals()
    ensures DecimalString(100) == "100" && DecimalString(5000) == "5000"
  {
  }

  /** Pages of 50, 50 and 0 players, read page by page: "100" after three
      requests. */
  lemma FiftyFiftyZeroPaged()
    ensures Accumulates(Fixed([50, 50, 0]), IntendedPage, Str("100"), 3)
  {
    var sizes: seq<nat> := [50, 50, 0];
    PagedStopsAtFirstEmptyPage(sizes, 2);
    assert sizes[..2] == [50, 50];
    assert [50, 50][..1] == [50] && [50][..0] == [];
    assert Sum(sizes[..2]) == 100;
    SmallNumerals();
  }

  /** The same leaderboard, read as written: "5000" after a hundred
      requests. */
  lemma FiftyFiftyZeroAsWritten()
    ensures Accumulates(Fixed([50, 50, 0]), AsWrittenPage, Str("5000"), MaxPages)
  {
    AsWrittenRepeatsFirstPage([50, 50, 0]);
    SmallNumerals();
  }
}
