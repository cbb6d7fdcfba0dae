/** The server's cursor-pagination drain: follow the upstream's "next" links
    from a first URL, concatenating every page's data, and fail with the
    first error met. */
module Pagination {
  import opened Wrappers

  /** One decoded upstream page: its data (possibly missing), its `paging.next`
      link (possibly missing) and its `error.message` when it carries one. */
  datatype Page<T> = Page(data: Option<seq<T>>, next: Option<string>, error: Option<string>)

  /** What one request yields: a decoded page, or a failure of the call or of
      the decoding, with its message. */
  datatype Response<T> = Received(page: Page<T>) | TransportFailure(message: string)

  /** `data.data || []`. */
  function DataOf<T>(p: Page<T>): seq<T> {
    if p.data.Some? then p.data.value else []
  }

  /** `data.paging?.next || null`, with "" standing for "no next page" (both
      end the loop). */
  function NextOf<T>(p: Page<T>): string {
    if p.next.Some? then p.next.value else ""
  }

  /** What draining from `url` yields, following at most `fuel` links; None
      when the chain is longer than that. */
  function Drain<T>(upstream: string -> Response<T>, url: string, fuel: nat): Option<Result<seq<T>, string>>
    decreases fuel
  {
    if url == "" then Some(Success([]))
    else if fuel == 0 then None
    else match upstream(url)
      case TransportFailure(m) => Some(Failure(m))
      case Received(page) =>
        if page.error.Some? then Some(Failure(page.error.value))
        else match Drain(upstream, NextOf(page), fuel - 1)
          case None => None
          case Some(Failure(m)) => Some(Failure(m))
          case Some(Success(rest)) => Some(Success(DataOf(page) + rest))
  }

  /** The URLs requested while draining from `url` with `fuel` links. */
  function Requests<T>(upstream: string -> Response<T>, url: string, fuel: nat): seq<string>
    decreases fuel
  {
    if url == "" || fuel == 0 then []
    else match upstream(url)
      case TransportFailure(_) => [url]
      case Received(page) =>
        if page.error.Some? then [url] else [url] + Requests(upstream, NextOf(page), fuel - 1)
  }

  /** The accumulated results prefixed to what the rest of the chain yields. */
  function Prefixed<T>(done: seq<T>, rest: Result<seq<T>, string>): Result<seq<T>, string> {
    match rest
    case Success(xs) => Success(done + xs)
    case Failure(m) => Failure(m)
  }

  /** Gathering in two steps is gathering once. */
  lemma PrefixedTwice<T>(done: seq<T>, more: seq<T>, rest: Result<seq<T>, string>)
    ensures Prefixed(done, Prefixed(more, rest)) == Prefixed(done + more, rest)
    ensures Prefixed([], rest) == rest
  {
    if rest.Success? {
      assert done + (more + rest.value) == (done + more) + rest.value;
      assert [] + rest.value == rest.value;
    }
  }

  /** One step of the drain from a non-empty URL. */
  lemma DrainStep<T>(upstream: string -> Response<T>, url: string, fuel: nat)
    requires url != "" && Drain(upstream, url, fuel).Some?
    ensures fuel > 0
    ensures upstream(url).TransportFailure? ==> Drain(upstream, url, fuel).value == Failure(upstream(url).message)
    ensures upstream(url).Received? && upstream(url).page.error.Some? ==>
      Drain(upstream, url, fuel).value == Failure(upstream(url).page.error.value)
    ensures upstream(url).Received? && upstream(url).page.error.None? ==>
      && Drain(upstream, NextOf(upstream(url).page), fuel - 1).Some?
      && Drain(upstream, url, fuel).value
         == Prefixed(DataOf(upstream(url).page), Drain(upstream, NextOf(upstream(url).page), fuel - 1).value)
      && Requests(upstream, url, fuel) == [url] + Requests(upstream, NextOf(upstream(url).page), fuel - 1)
    ensures !(upstream(url).Received? && upstream(url).page.error.None?) ==> Requests(upstream, url, fuel) == [url]
  {
  }

  /** A page that arrived without an error moves the drain on to its next
      link: its data joins what was gathered and its URL joins the requests. */
  lemma DrainContinues<T>(upstream: string -> Response<T>, url: string, f: nat,
                              total: Result<seq<T>, string>, allRequests: seq<string>,
                              results: seq<T>, requested: seq<string>)
    requires url != "" && Drain(upstream, url, f).Some?
    requires upstream(url).Received? && upstream(url).page.error.None?
    requires total == Prefixed(results, Drain(upstream, url, f).value)
    requires allRequests == requested + Requests(upstream, url, f)
    ensures var page := upstream(url).page;
      && f > 0
      && Drain(upstream, NextOf(page), f - 1).Some?
      && total == Prefixed(results + DataOf(page), Drain(upstream, NextOf(page), f - 1).value)
      && allRequests == (requested + [url]) + Requests(upstream, NextOf(page), f - 1)
  {
    var page := upstream(url).page;
    DrainStep(upstream, url, f);
    PrefixedTwice(results, DataOf(page), Drain(upstream, NextOf(page), f - 1).value);
    assert (requested + [url]) + Requests(upstream, NextOf(page), f - 1)
        == requested + ([url] + Requests(upstream, NextOf(page), f - 1));
  }

  /** A page that failed ends the drain with its message, dropping what was gathered. */
  lemma DrainStops<T>(upstream: string -> Response<T>, url: string, f: nat,
                      total: Result<seq<T>, string>, allRequests: seq<string>,
                      results: seq<T>, requested: seq<string>)
    requires url != "" && Drain(upstream, url, f).Some?
    requires !(upstream(url).Received? && upstream(url).page.error.None?)
    requires total == Prefixed(results, Drain(upstream, url, f).value)
    requires allRequests == requested + Requests(upstream, url, f)
    ensures allRequests == requested + [url]
    ensures upstream(url).TransportFailure? ==> total == Failure(upstream(url).message)
    ensures upstream(url).Received? ==> total == Failure(upstream(url).page.error.value)
  {
    DrainStep(upstream, url, f);
  }

  /** `fetchAllPages(url)`: requests pages one after another while there is a
      next link; returns the concatenated data, or the first failure (the data
      gathered so far is dropped). `requested` lists the URLs asked for. The
      ghost `fuel` bounds the chain for the proof; the loop itself has none. */
  method FetchAllPages<T>(url: string, upstream: string -> Response<T>, ghost fuel: nat)
    returns (r: Result<seq<T>, string>, requested: seq<string>)
    requires Drain(upstream, url, fuel).Some?
    ensures r == Drain(upstream, url, fuel).value
    ensures requested == Requests(upstream, url, fuel)
  {
    ghost var total := Drain(upstream, url, fuel).value;
    ghost var allRequests := Requests(upstream, url, fuel);
    var results: seq<T> := [];
    var nextUrl := url;
    ghost var f := fuel;
    requested := [];
    PrefixedTwice([], [], total);
    while nextUrl != ""
      invariant Drain(upstream, nextUrl, f).Some?
      invariant total == Prefixed(results, Drain(upstream, nextUrl, f).value)
      invariant allRequests == requested + Requests(upstream, nextUrl, f)
      decreases f
    {
      var response := upstream(nextUrl);
      if !(response.Received? && response.page.error.None?) {
        DrainStops(upstream, nextUrl, f, total, allRequests, results, requested);
        requested := requested + [nextUrl];
        if response.TransportFailure? {
          return Failure(response.message), requested;
        }
        return Failure(response.page.error.value), requested;
      }
      var page := response.page;
      DrainContinues(upstream, nextUrl, f, total, allRequests, results, requested);
      requested := requested + [nextUrl];
      results := results + DataOf(page);
      nextUrl := NextOf(page);
      f := f - 1;
    }
    r := Success(results);
    assert results + [] == results;
  }

  /** More fuel than needed changes nothing. */
  lemma {:induction false} DrainFuelIndependent<T>(upstream: string -> Response<T>, url: string, f1: nat, f2: nat)
    requires Drain(upstream, url, f1).Some? && f1 <= f2
    ensures Drain(upstream, url, f2) == Drain(upstream, url, f1)
    ensures Requests(upstream, url, f2) == Requests(upstream, url, f1)
    decreases f1
  {
    if url != "" && upstream(url).Received? && upstream(url).page.error.None? {
      DrainFuelIndependent(upstream, NextOf(upstream(url).page), f1 - 1, f2 - 1);
    }
  }

  /** The data of the pages at the given URLs, concatenated in order. */
  function PagesData<T>(upstream: string -> Response<T>, urls: seq<string>): seq<T> {
    if urls == [] then []
    else
      var response := upstream(urls[0]);
      (if response.Received? then DataOf(response.page) else []) + PagesData(upstream, urls[1..])
  }

  /** A successful drain: every page asked for arrived without an error, each
      next URL is the previous page's link, the last page has no link, and
      the result is all their data in page order. */
  lemma {:induction false} DrainSuccess<T>(upstream: string -> Response<T>, url: string, fuel: nat, xs: seq<T>)
    requires Drain(upstream, url, fuel) == Some(Success(xs))
    ensures var reqs := Requests(upstream, url, fuel);
      && xs == PagesData(upstream, reqs)
      && (forall i :: 0 <= i < |reqs| ==> upstream(reqs[i]).Received? && upstream(reqs[i]).page.error.None?)
      && (forall i :: 0 <= i < |reqs| - 1 ==> reqs[i + 1] == NextOf(upstream(reqs[i]).page))
      && (reqs == [] <==> url == "")
      && (reqs != [] ==> reqs[0] == url && NextOf(upstream(reqs[|reqs| - 1]).page) == "")
    decreases fuel
  {
    if url != "" {
      var page := upstream(url).page;
      var rest := Drain(upstream, NextOf(page), fuel - 1).value.value;
      DrainSuccess(upstream, NextOf(page), fuel - 1, rest);
      var reqs := Requests(upstream, url, fuel);
      assert reqs[1..] == Requests(upstream, NextOf(page), fuel - 1);
    }
  }

  /** A failed drain: the failure is the message of the last page asked for
      (a transport failure or an error payload), and every earlier page
      arrived without an error. Nothing gathered before it is returned. */
  lemma {:induction false} DrainFailure<T>(upstream: string -> Response<T>, url: string, fuel: nat, m: string)
    requires Drain(upstream, url, fuel) == Some(Failure(m))
    ensures var reqs := Requests(upstream, url, fuel);
      && reqs != [] && reqs[0] == url
      && (forall i :: 0 <= i < |reqs| - 1 ==> upstream(reqs[i]).Received? && upstream(reqs[i]).page.error.None?)
      && (upstream(reqs[|reqs| - 1]) == TransportFailure(m) ||
          (upstream(reqs[|reqs| - 1]).Received? && upstream(reqs[|reqs| - 1]).page.error == Some(m)))
    decreases fuel
  {
    var response := upstream(url);
    if response.Received? && response.page.error.None? {
      DrainFailure(upstream, NextOf(response.page), fuel - 1, m);
      var reqs := Requests(upstream, url, fuel);
      assert reqs[1..] == Requests(upstream, NextOf(response.page), fuel - 1);
    }
  }

  /** A chain of pages: the first yields `[1, 2]` and links to "p2"; "p2"
      yields `[3]` and no link. */
  function TwoPages(url: string): Response<int> {
    if url == "p1" then Received(Page(Some([1, 2]), Some("p2"), None))
    else if url == "p2" then Received(Page(Some([3]), None, None))
    else TransportFailure("unexpected URL")
  }

  /** The same chain with the second page carrying an error. */
  function FailingSecondPage(url: string): Response<int> {
    if url == "p1" then Received(Page(Some([1, 2]), Some("p2"), None))
    else Received(Page(None, None, Some("rate limited")))
  }

  /** Two pages give `[1, 2, 3]`; an error on the second page gives that
      error, not `[1, 2]`. */
  lemma TwoPageExamples()
    ensures Drain(TwoPages, "p1", 2) == Some(Success([1, 2, 3]))
    ensures Drain(FailingSecondPage, "p1", 2) == Some(Failure("rate limited"))
  {
    assert TwoPages("p2") == Received(Page(Some([3]), None, None));
    assert [3] + [] == [3];
    assert Drain(TwoPages, "p2", 1) == Some(Success([3]));
    assert TwoPages("p1") == Received(Page(Some([1, 2]), Some("p2"), None));
    assert [1, 2] + [3] == [1, 2, 3];
    assert Drain(FailingSecondPage, "p2", 1) == Some(Failure("rate limited"));
  }
}
