/**
 * MINDBODY clients (models/mindbody.go). `GetClients` pages through the
 * client list: each request asks for `limit=5` at offset `count`; after each
 * page the offset grows by the page's `PageSize` and the loop stops once
 * `TotalResults - count <= 0`, after one page in debug mode, or at the first
 * error. Every page is decoded into the same `MindBody` value, and decoding a
 * JSON array into a slice replaces the slice, so only the last page's clients
 * remain when the loop ends.
 *
 * The replies to the successive requests are an input sequence; when the
 * loop issues a request the sequence does not answer, the model stops with
 * `Unanswered` (the source would go on requesting).
 */
module MindBody {

  /** A MINDBODY client record (`mbUser`). */
  datatype Client = Client(
    id: string,
    uniqueId: int,
    firstName: string,
    middleName: string,
    lastName: string,
    email: string,
    mobilePhone: string,
    homePhone: string,
    workPhone: string,
    active: bool,
    status: string,
    action: string)

  /** The decoded fields of one page: `PaginationResponse.PageSize`, `.TotalResults` and `Clients`. */
  datatype Page = Page(pageSize: int, totalResults: int, clients: seq<Client>)

  /** The answer to one request: an error (building or doing the request), or a decoded page. */
  datatype Reply = Failed(err: string) | Answered(page: Page)

  /** How `GetClients` ends: with the clients `mb` holds, with an error, or waiting for an unanswered request. */
  datatype Fetch = Fetched(clients: seq<Client>) | FetchFailed(err: string) | Unanswered

  /** The zero `MindBody` value the loop starts from. */
  const EmptyPage := Page(0, 0, [])

  /**
   * Reference definition of the loop from its head: `k` replies consumed, the
   * offset `count`, `resultsLeft`, and the last decoded page `mb`. Returns the
   * offsets of the requests issued from here on and how the loop ends.
   */
  function Walk(debug: bool, replies: seq<Reply>, k: nat, count: int, resultsLeft: int, mb: Page): (r: (seq<int>, Fetch))
    requires k <= |replies|
    ensures resultsLeft > 0 ==> |r.0| >= 1 && r.0[0] == count
    decreases |replies| - k
  {
    if resultsLeft <= 0 then ([], Fetched(mb.clients))
    else if k == |replies| then ([count], Unanswered)
    else match replies[k]
      case Failed(e) => ([count], FetchFailed(e))
      case Answered(p) =>
        if debug then ([count], Fetched(p.clients))
        else
          var next := count + p.pageSize;
          var rest := Walk(debug, replies, k + 1, next, p.totalResults - next, p);
          ([count] + rest.0, rest.1)
  }

  /** The whole run of `GetClients`, as the loop starts it. */
  function Run(debug: bool, replies: seq<Reply>): (seq<int>, Fetch) {
    Walk(debug, replies, 0, 0, 1, EmptyPage)
  }

  /**
   * `mb.GetClients(config, token)`: returns the offsets of the requests it
   * issued (each with `limit=5`) and how it ended.
   */
  method GetClients(debug: bool, replies: seq<Reply>) returns (offsets: seq<int>, outcome: Fetch)
    ensures (offsets, outcome) == Run(debug, replies)
  {
    var count := 0;
    var resultsLeft := 1;
    var mb := EmptyPage;
    var k := 0;
    offsets := [];
    assert [] + Walk(debug, replies, k, count, resultsLeft, mb).0 == Walk(debug, replies, k, count, resultsLeft, mb).0;
    assert Run(debug, replies) == Resume([], Walk(debug, replies, k, count, resultsLeft, mb));
    while true
      invariant k <= |replies|
      invariant Run(debug, replies) == Resume(offsets, Walk(debug, replies, k, count, resultsLeft, mb))
      decreases |replies| - k
    {
      if resultsLeft <= 0 {
        outcome := Fetched(mb.clients);
        assert offsets + [] == offsets;
        return;
      }
      WalkStep(debug, replies, k, count, resultsLeft, mb, offsets);
      offsets := offsets + [count];
      if k == |replies| {
        outcome := Unanswered;
        return;
      }
      match replies[k] {
        case Failed(e) =>
          outcome := FetchFailed(e);
          return;
        case Answered(p) =>
          mb := p;
      }
      k := k + 1;
      if debug {
        outcome := Fetched(mb.clients);
        return;
      }
      count := count + mb.pageSize;
      resultsLeft := mb.totalResults - count;
    }
  }

  /** The offsets issued before the loop head, followed by the rest of the run. */
  function Resume(prefix: seq<int>, rest: (seq<int>, Fetch)): (seq<int>, Fetch) {
    (prefix + rest.0, rest.1)
  }

  /** One pass of the loop body, from a head where results are left. */
  lemma WalkStep(debug: bool, replies: seq<Reply>, k: nat, count: int, resultsLeft: int, mb: Page, prefix: seq<int>)
    requires k <= |replies| && resultsLeft > 0
    ensures k == |replies| ==> Resume(prefix, Walk(debug, replies, k, count, resultsLeft, mb)) == (prefix + [count], Unanswered)
    ensures k < |replies| && replies[k].Failed? ==>
              Resume(prefix, Walk(debug, replies, k, count, resultsLeft, mb)) == (prefix + [count], FetchFailed(replies[k].err))
    ensures k < |replies| && replies[k].Answered? && debug ==>
              Resume(prefix, Walk(debug, replies, k, count, resultsLeft, mb)) == (prefix + [count], Fetched(replies[k].page.clients))
    ensures k < |replies| && replies[k].Answered? && !debug ==>
              var p := replies[k].page;
              var next := count + p.pageSize;
              Resume(prefix, Walk(debug, replies, k, count, resultsLeft, mb))
                == Resume(prefix + [count], Walk(debug, replies, k + 1, next, p.totalResults - next, p))
  {
    if k < |replies| && replies[k].Answered? && !debug {
      var p := replies[k].page;
      var next := count + p.pageSize;
      var rest := Walk(debug, replies, k + 1, next, p.totalResults - next, p);
      assert prefix + ([count] + rest.0) == prefix + [count] + rest.0;
    }
  }

  /** The first request is always made, at offset 0. */
  lemma FirstRequestAtZero(debug: bool, replies: seq<Reply>)
    ensures |Run(debug, replies).0| >= 1 && Run(debug, replies).0[0] == 0
  {
  }

  /** In debug mode exactly one request is made. */
  lemma DebugMakesOneRequest(replies: seq<Reply>)
    ensures |Run(true, replies).0| == 1
  {
  }

  /**
   * Each later offset is the previous offset plus the previous page's
   * `PageSize`, and request `i + 1` is only made when page `i` left results.
   */
  lemma {:induction false} OffsetsAccumulate(debug: bool, replies: seq<Reply>, k: nat, count: int, resultsLeft: int, mb: Page, i: nat)
    requires k <= |replies| && resultsLeft > 0
    requires i + 1 < |Walk(debug, replies, k, count, resultsLeft, mb).0|
    ensures k + i < |replies| && replies[k + i].Answered?
    ensures var offsets := Walk(debug, replies, k, count, resultsLeft, mb).0;
            var p := replies[k + i].page;
            offsets[i + 1] == offsets[i] + p.pageSize && p.totalResults - offsets[i + 1] > 0
    decreases i
  {
    var p := replies[k].page;
    var next := count + p.pageSize;
    if i > 0 {
      OffsetsAccumulate(debug, replies, k + 1, next, p.totalResults - next, p, i - 1);
    }
  }

  /** A fetch that completes without debug mode ends on a page that left no results, and returns its clients only. */
  lemma {:induction false} FetchEndsOnLastPage(replies: seq<Reply>, k: nat, count: int, resultsLeft: int, mb: Page)
    requires k <= |replies| && resultsLeft > 0
    requires Walk(false, replies, k, count, resultsLeft, mb).1.Fetched?
    ensures var (offsets, outcome) := Walk(false, replies, k, count, resultsLeft, mb);
            var last := k + |offsets| - 1;
            && last < |replies| && replies[last].Answered?
            && replies[last].page.totalResults - (offsets[|offsets| - 1] + replies[last].page.pageSize) <= 0
            && outcome.clients == replies[last].page.clients
    decreases |replies| - k
  {
    var p := replies[k].page;
    var next := count + p.pageSize;
    if p.totalResults - next > 0 {
      FetchEndsOnLastPage(replies, k + 1, next, p.totalResults - next, p);
    }
  }

  /**
   * With a zero page size and results remaining, the offset never advances:
   * every reply is consumed by a request at the same offset and the loop still
   * asks for more.
   */
  lemma {:induction false} ZeroPageSizeNeverEnds(replies: seq<Reply>, k: nat, count: int, resultsLeft: int, mb: Page)
    requires k <= |replies| && resultsLeft > 0
    requires forall j :: k <= j < |replies| ==>
               replies[j].Answered? && replies[j].page.pageSize == 0 && replies[j].page.totalResults > count
    ensures Walk(false, replies, k, count, resultsLeft, mb).1 == Unanswered
    ensures |Walk(false, replies, k, count, resultsLeft, mb).0| == |replies| - k + 1
    ensures forall j :: 0 <= j < |Walk(false, replies, k, count, resultsLeft, mb).0| ==>
              Walk(false, replies, k, count, resultsLeft, mb).0[j] == count
    decreases |replies| - k
  {
    if k < |replies| {
      var p := replies[k].page;
      ZeroPageSizeNeverEnds(replies, k + 1, count, p.totalResults - count, p);
    }
  }

  /** Two pages, one client each, as the first two replies of a listing of two clients. */
  lemma LastPageOnlyWitness(a: Client, b: Client)
    ensures Run(false, [Answered(Page(1, 2, [a])), Answered(Page(1, 2, [b]))]) == ([0, 1], Fetched([b]))
  {
    var replies := [Answered(Page(1, 2, [a])), Answered(Page(1, 2, [b]))];
    assert replies[0] == Answered(Page(1, 2, [a])) && replies[1] == Answered(Page(1, 2, [b]));
    assert Walk(false, replies, 2, 2, 0, Page(1, 2, [b])) == ([], Fetched([b]));
    assert [1] + [] == [1];
    assert Walk(false, replies, 1, 1, 1, Page(1, 2, [a])) == ([1], Fetched([b]));
    assert [0] + [1] == [0, 1];
  }

  /**
   * Reference definition of the intended fetch: the same requests, with every
   * page's clients appended to those already fetched.
   */
  function WalkAll(debug: bool, replies: seq<Reply>, k: nat, count: int, resultsLeft: int, acc: seq<Client>): (r: (seq<int>, Fetch))
    requires k <= |replies|
    decreases |replies| - k
  {
    if resultsLeft <= 0 then ([], Fetched(acc))
    else if k == |replies| then ([count], Unanswered)
    else match replies[k]
      case Failed(e) => ([count], FetchFailed(e))
      case Answered(p) =>
        if debug then ([count], Fetched(acc + p.clients))
        else
          var next := count + p.pageSize;
          var rest := WalkAll(debug, replies, k + 1, next, p.totalResults - next, acc + p.clients);
          ([count] + rest.0, rest.1)
  }

  /** The clients of replies `k` up to (not including) `m`, in order. */
  function PagesClients(replies: seq<Reply>, k: nat, m: nat): seq<Client>
    requires k <= m <= |replies|
    requires forall j :: k <= j < m ==> replies[j].Answered?
    decreases m - k
  {
    if k == m then [] else replies[k].page.clients + PagesClients(replies, k + 1, m)
  }

  /**
   * The accumulating fetch issues exactly the requests the source does, and a
   * completed fetch holds every page's clients in order.
   */
  lemma {:induction false} WalkAllKeepsEveryPage(debug: bool, replies: seq<Reply>, k: nat, count: int, resultsLeft: int, mb: Page, acc: seq<Client>)
    requires k <= |replies|
    ensures WalkAll(debug, replies, k, count, resultsLeft, acc).0 == Walk(debug, replies, k, count, resultsLeft, mb).0
    ensures var n := |Walk(debug, replies, k, count, resultsLeft, mb).0|;
            WalkAll(debug, replies, k, count, resultsLeft, acc).1.Fetched? && resultsLeft > 0 ==>
              && k + n <= |replies|
              && (forall j :: k <= j < k + n ==> replies[j].Answered?)
              && WalkAll(debug, replies, k, count, resultsLeft, acc).1.clients == acc + PagesClients(replies, k, k + n)
    decreases |replies| - k
  {
    if resultsLeft > 0 && k < |replies| && replies[k].Answered? && !debug {
      var p := replies[k].page;
      var next := count + p.pageSize;
      WalkAllKeepsEveryPage(debug, replies, k + 1, next, p.totalResults - next, p, acc + p.clients);
      var n := |Walk(debug, replies, k, count, resultsLeft, mb).0|;
      if WalkAll(debug, replies, k, count, resultsLeft, acc).1.Fetched? && p.totalResults - next > 0 {
        assert acc + p.clients + PagesClients(replies, k + 1, k + n)
            == acc + (p.clients + PagesClients(replies, k + 1, k + n));
      }
    }
  }

  /** The intended fetch of the same two pages keeps both clients. */
  lemma AllPagesWitness(a: Client, b: Client)
    ensures WalkAll(false, [Answered(Page(1, 2, [a])), Answered(Page(1, 2, [b]))], 0, 0, 1, []) == ([0, 1], Fetched([a, b]))
  {
    var replies := [Answered(Page(1, 2, [a])), Answered(Page(1, 2, [b]))];
    assert replies[0] == Answered(Page(1, 2, [a])) && replies[1] == Answered(Page(1, 2, [b]));
    assert [a] + [b] == [a, b] && [] + [a] == [a];
    assert WalkAll(false, replies, 2, 2, 0, [a, b]) == ([], Fetched([a, b]));
    assert [1] + [] == [1];
    assert WalkAll(false, replies, 1, 1, 1, [a]) == ([1], Fetched([a, b]));
    assert [0] + [1] == [0, 1];
  }
}
