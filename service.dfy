// seoman/service.py: the `SearchAnalytics` object, its fetch loop over the
// query bodies, the saved-query loader, the file-name cleaner and the
// choice of export writer.

module Service {
  import opened Wrappers
  import opened Strings
  import opened Json
  import opened Dates
  import opened ServiceUtils

  const StartRowKey := "startRow"
  const RowLimitKey := "rowLimit"
  const RowsKey := "rows"

  /** A response with more rows than this asks for an overflow query. */
  const OverflowThreshold := 24999
  /** The `startRow` of an overflow query. */
  const OverflowStartRow := 24999
  /** Seconds slept between a failed request and its retry. */
  const RetrySleep := 2

  /** What one `execute()` of a Search Analytics query gives: a response with
      a "rows" list, a response without one, an `HttpError`, or the expired
      credentials' `RefreshError`. */
  datatype Answer = Rows(rows: seq<Json>) | NoRows | HttpError | Expired

  /** What the fetch loop does that is visible outside: requests, sleeps and
      the "More than 25.000 rows found" question. */
  datatype Event = Execute(url: string, body: Body) | Sleep(seconds: nat) | AskMoreRows(count: nat)

  /** How the two attempts for one body end: rows, nothing usable (both
      attempts failed, or no "rows" key), or a `RefreshError` on the way out. */
  datatype Fetched = Got(rows: seq<Json>) | Dropped | Stopped

  datatype Fetch = Fetch(fetched: Fetched, events: seq<Event>, next: nat)

  /** The two `try` blocks that fetch one body. `remote(k)` answers the k-th
      request of the session; `k` is the number of requests made so far. At
      most two requests go out, the second only after an `HttpError` on the
      first and after a two-second sleep. */
  function FetchBody(url: string, body: Body, remote: nat -> Answer, k: nat): (f: Fetch)
    ensures remote(k) != HttpError ==> f.events == [Execute(url, body)] && f.next == k + 1
    ensures remote(k) == HttpError ==>
      f.events == [Execute(url, body), Sleep(RetrySleep), Execute(url, body)] && f.next == k + 2
    ensures f.fetched.Got? ==> remote(f.next - 1) == Rows(f.fetched.rows)
    ensures remote(f.next - 1).Rows? ==> f.fetched == Got(remote(f.next - 1).rows)
    ensures f.fetched == Stopped <==> remote(f.next - 1) == Expired
    ensures f.fetched == Dropped <==> remote(f.next - 1) == NoRows || remote(f.next - 1) == HttpError
  {
    var once := [Execute(url, body)];
    match remote(k)
    case Rows(rs) => Fetch(Got(rs), once, k + 1)
    case NoRows => Fetch(Dropped, once, k + 1)
    case Expired => Fetch(Stopped, once, k + 1)
    case HttpError =>
      var twice := once + [Sleep(RetrySleep)] + once;
      match remote(k + 1)
      case Rows(rs) => Fetch(Got(rs), twice, k + 2)
      case NoRows => Fetch(Dropped, twice, k + 2)
      case HttpError => Fetch(Dropped, twice, k + 2)
      case Expired => Fetch(Stopped, twice, k + 2)
  }

  /** The progress of one pass of the fetch loop: whether `self.data` has a
      "rows" key, the row lists appended to it, the closure list
      `extra_bodies`, the events so far, the request counter, and whether a
      `RefreshError` has ended the pass. */
  datatype Pass = Pass(hasRows: bool, groups: seq<seq<Json>>, extras: seq<Body>,
                       events: seq<Event>, next: nat, stopped: bool)

  /** `body.copy()` updated with `{"startRow": 24999}`. */
  function Overflowed(body: Body): (r: Body)
    ensures StartRowKey in r && r[StartRowKey] == Int(OverflowStartRow)
    ensures forall k :: k != StartRowKey ==> (k in r <==> k in body) && (k in body ==> r[k] == body[k])
  {
    body[StartRowKey := Int(OverflowStartRow)]
  }

  /** `con_query(body, query_type)` on a pass that has not been stopped. The
      `setdefault("rows", [])` runs before `data["rows"]` is looked up, so a
      body whose attempts both fail still creates the empty "rows" list. */
  function ConQuerySpec(url: string, body: Body, queryType: string, remote: nat -> Answer, p: Pass): Pass
  {
    var f := FetchBody(url, body, remote, p.next);
    var p1 := p.(events := p.events + f.events, next := f.next);
    match f.fetched
    case Stopped => p1.(stopped := true)
    case Dropped => p1.(hasRows := true)
    case Got(rs) =>
      p1.(hasRows := true, groups := p.groups + [rs],
          extras := if |rs| > OverflowThreshold && queryType == "first" then p.extras + [Overflowed(body)] else p.extras)
  }

  /** `main(body_list, message, query_type)`: `con_query` on each body in
      turn, until a `RefreshError` ends the loop. */
  function RunPass(url: string, bodies: seq<Body>, queryType: string, remote: nat -> Answer, p: Pass): Pass
    decreases |bodies|
  {
    if |bodies| == 0 || p.stopped then p
    else RunPass(url, bodies[1..], queryType, remote, ConQuerySpec(url, bodies[0], queryType, remote, p))
  }

  /** How many requests a list of events holds. */
  function Requests(events: seq<Event>): nat
    decreases |events|
  {
    if |events| == 0 then 0 else Requests(events[..|events| - 1]) + (if events[|events| - 1].Execute? then 1 else 0)
  }

  lemma {:induction false} RequestsAppend(a: seq<Event>, b: seq<Event>)
    ensures Requests(a + b) == Requests(a) + Requests(b)
    decreases |b|
  {
    if |b| == 0 {
      assert a + b == a;
    } else {
      RequestsAppend(a, b[..|b| - 1]);
      assert (a + b)[..|a + b| - 1] == a + b[..|b| - 1];
    }
  }

  /** Every body costs one or two requests, each recorded as an event, and
      what a pass had before is kept: its events, row lists and overflow
      bodies are prefixes of the new ones, and "rows" never disappears. */
  lemma {:induction false} PassProgress(url: string, bodies: seq<Body>, queryType: string, remote: nat -> Answer, p: Pass)
    ensures var r := RunPass(url, bodies, queryType, remote, p);
      && Requests(r.events) == Requests(p.events) + (r.next - p.next)
      && p.next <= r.next <= p.next + 2 * |bodies|
      && (!p.stopped && !r.stopped ==> p.next + |bodies| <= r.next)
      && p.events <= r.events && p.groups <= r.groups && p.extras <= r.extras
      && |r.groups| <= |p.groups| + |bodies|
      && (p.hasRows ==> r.hasRows)
      && (p.stopped ==> r == p)
    decreases |bodies|
  {
    if |bodies| > 0 && !p.stopped {
      var q := ConQuerySpec(url, bodies[0], queryType, remote, p);
      ConQueryProgress(url, bodies[0], queryType, remote, p);
      PassProgress(url, bodies[1..], queryType, remote, q);
    }
  }

  /** One body: one or two requests, each recorded, and nothing lost. */
  lemma ConQueryProgress(url: string, body: Body, queryType: string, remote: nat -> Answer, p: Pass)
    ensures var q := ConQuerySpec(url, body, queryType, remote, p);
      && Requests(q.events) == Requests(p.events) + (q.next - p.next)
      && p.next + 1 <= q.next <= p.next + 2
      && p.events <= q.events && p.groups <= q.groups && p.extras <= q.extras
      && |q.groups| <= |p.groups| + 1
      && (p.hasRows ==> q.hasRows)
  {
    var f := FetchBody(url, body, remote, p.next);
    FetchRequests(url, body, remote, p.next);
    RequestsAppend(p.events, f.events);
  }

  /** The events of one body hold exactly the requests it made. */
  lemma FetchRequests(url: string, body: Body, remote: nat -> Answer, k: nat)
    ensures var f := FetchBody(url, body, remote, k);
      Requests(f.events) == f.next - k
  {
    var e := Execute(url, body);
    if remote(k) == HttpError {
      assert [e, Sleep(RetrySleep), e] == [e, Sleep(RetrySleep)] + [e];
      assert [e, Sleep(RetrySleep)] == [e] + [Sleep(RetrySleep)];
      RequestsAppend([e, Sleep(RetrySleep)], [e]);
      RequestsAppend([e], [Sleep(RetrySleep)]);
    }
  }

  /** A pass that is not stopped leaves a "rows" key behind whenever it had
      at least one body, even if no request brought rows back. */
  lemma {:induction false} PassCreatesRows(url: string, bodies: seq<Body>, queryType: string, remote: nat -> Answer, p: Pass)
    requires !p.stopped && |bodies| > 0
    ensures var r := RunPass(url, bodies, queryType, remote, p);
      !r.stopped ==> r.hasRows
    decreases |bodies|
  {
    var q := ConQuerySpec(url, bodies[0], queryType, remote, p);
    if !q.stopped {
      assert q.hasRows;
      PassRowsFlag(url, bodies[1..], queryType, remote, q);
    }
  }

  lemma {:induction false} PassRowsFlag(url: string, bodies: seq<Body>, queryType: string, remote: nat -> Answer, p: Pass)
    requires p.hasRows
    ensures RunPass(url, bodies, queryType, remote, p).hasRows
    decreases |bodies|
  {
    if |bodies| > 0 && !p.stopped {
      PassRowsFlag(url, bodies[1..], queryType, remote, ConQuerySpec(url, bodies[0], queryType, remote, p));
    }
  }

  /** Overflow bodies come only from the "first" pass, each one a body of the
      pass with `startRow` set to 24999. */
  lemma {:induction false} PassExtras(url: string, bodies: seq<Body>, queryType: string, remote: nat -> Answer, p: Pass)
    ensures var r := RunPass(url, bodies, queryType, remote, p);
      && p.extras <= r.extras
      && (queryType != "first" ==> r.extras == p.extras)
      && forall i :: |p.extras| <= i < |r.extras| ==> exists j :: 0 <= j < |bodies| && r.extras[i] == Overflowed(bodies[j])
    decreases |bodies|
  {
    if |bodies| > 0 && !p.stopped {
      var q := ConQuerySpec(url, bodies[0], queryType, remote, p);
      PassExtras(url, bodies[1..], queryType, remote, q);
      var r := RunPass(url, bodies, queryType, remote, p);
      forall i | |p.extras| <= i < |r.extras|
        ensures exists j :: 0 <= j < |bodies| && r.extras[i] == Overflowed(bodies[j])
      {
        if i < |q.extras| {
          assert q.extras[i] == Overflowed(bodies[0]);
        } else {
          var j :| 0 <= j < |bodies[1..]| && r.extras[i] == Overflowed(bodies[1..][j]);
          assert r.extras[i] == Overflowed(bodies[j + 1]);
        }
      }
    }
  }

  /** When every request of a pass returns rows, every body costs exactly one
      request, its rows are appended as one element of "rows" in body order,
      and exactly the bodies with more than 24999 rows are queued again, in
      order, on the "first" pass. */
  lemma {:induction false} PassAllAnswered(url: string, bodies: seq<Body>, queryType: string, remote: nat -> Answer, p: Pass)
    requires !p.stopped
    requires forall k :: p.next <= k < p.next + |bodies| ==> remote(k).Rows?
    ensures var r := RunPass(url, bodies, queryType, remote, p);
      && !r.stopped
      && r.next == p.next + |bodies|
      && r.events == p.events + Requested(url, bodies)
      && r.groups == p.groups + Answers(remote, p.next, |bodies|)
      && r.extras == p.extras + OverflowsOf(bodies, queryType, remote, p.next)
    decreases |bodies|
  {
    if |bodies| > 0 {
      var q := ConQuerySpec(url, bodies[0], queryType, remote, p);
      ConQueryAnswered(url, bodies[0], queryType, remote, p);
      PassAllAnswered(url, bodies[1..], queryType, remote, q);
      AnsweredStep(url, bodies, queryType, remote, p, q, RunPass(url, bodies[1..], queryType, remote, q));
    }
  }

  /** The inductive step of `PassAllAnswered`: one answered body in front of
      the rest of the pass. */
  lemma AnsweredStep(url: string, bodies: seq<Body>, queryType: string, remote: nat -> Answer, p: Pass, q: Pass, r: Pass)
    requires |bodies| > 0 && remote(p.next).Rows?
    requires forall k :: p.next <= k < p.next + |bodies| ==> remote(k).Rows?
    requires var rs := remote(p.next).rows;
      q == p.(events := p.events + [Execute(url, bodies[0])], next := p.next + 1, hasRows := true, groups := p.groups + [rs],
              extras := p.extras + if |rs| > OverflowThreshold && queryType == "first" then [Overflowed(bodies[0])] else [])
    requires r.events == q.events + Requested(url, bodies[1..])
    requires r.groups == q.groups + Answers(remote, q.next, |bodies| - 1)
    requires r.extras == q.extras + OverflowsOf(bodies[1..], queryType, remote, q.next)
    ensures r.events == p.events + Requested(url, bodies)
    ensures r.groups == p.groups + Answers(remote, p.next, |bodies|)
    ensures r.extras == p.extras + OverflowsOf(bodies, queryType, remote, p.next)
  {
    assert Requested(url, bodies) == [Execute(url, bodies[0])] + Requested(url, bodies[1..]);
    assert Answers(remote, p.next, |bodies|) == [remote(p.next).rows] + Answers(remote, p.next + 1, |bodies| - 1);
  }

  lemma ConQueryAnswered(url: string, body: Body, queryType: string, remote: nat -> Answer, p: Pass)
    requires remote(p.next).Rows?
    ensures var rs := remote(p.next).rows;
      ConQuerySpec(url, body, queryType, remote, p) ==
        p.(events := p.events + [Execute(url, body)], next := p.next + 1, hasRows := true, groups := p.groups + [rs],
           extras := p.extras + if |rs| > OverflowThreshold && queryType == "first" then [Overflowed(body)] else [])
  {
    var rs := remote(p.next).rows;
    assert FetchBody(url, body, remote, p.next) == Fetch(Got(rs), [Execute(url, body)], p.next + 1);
    assert p.extras + [] == p.extras;
  }

  /** The events of bodies each requested once. */
  function Requested(url: string, bodies: seq<Body>): seq<Event>
    decreases |bodies|
  {
    if |bodies| == 0 then [] else [Execute(url, bodies[0])] + Requested(url, bodies[1..])
  }

  /** The row lists of `n` requests from the k-th on, all of which return rows. */
  function Answers(remote: nat -> Answer, k: nat, n: nat): seq<seq<Json>>
    requires forall j :: k <= j < k + n ==> remote(j).Rows?
    decreases n
  {
    if n == 0 then [] else [remote(k).rows] + Answers(remote, k + 1, n - 1)
  }

  /** The overflow bodies of a pass in which every request returns rows. */
  function OverflowsOf(bodies: seq<Body>, queryType: string, remote: nat -> Answer, k: nat): seq<Body>
    decreases |bodies|
  {
    if |bodies| == 0 then []
    else
      var rest := OverflowsOf(bodies[1..], queryType, remote, k + 1);
      if remote(k).Rows? && |remote(k).rows| > OverflowThreshold && queryType == "first"
      then [Overflowed(bodies[0])] + rest else rest
  }

  /** When every request of a pass fails with an `HttpError`, each body is
      tried twice with a sleep between, no rows and no overflow bodies are
      recorded, and "rows" is still created. */
  lemma {:induction false} PassAllFailed(url: string, bodies: seq<Body>, queryType: string, remote: nat -> Answer, p: Pass)
    requires !p.stopped
    requires forall k :: p.next <= k < p.next + 2 * |bodies| ==> remote(k) == HttpError
    ensures var r := RunPass(url, bodies, queryType, remote, p);
      && !r.stopped
      && r.next == p.next + 2 * |bodies|
      && r.groups == p.groups && r.extras == p.extras
      && r.hasRows == (p.hasRows || |bodies| > 0)
      && r.events == p.events + Retried(url, bodies)
    decreases |bodies|
  {
    if |bodies| > 0 {
      var q := ConQuerySpec(url, bodies[0], queryType, remote, p);
      PassAllFailed(url, bodies[1..], queryType, remote, q);
      assert Retried(url, bodies) == [Execute(url, bodies[0]), Sleep(RetrySleep), Execute(url, bodies[0])] + Retried(url, bodies[1..]);
    }
  }

  /** The events of bodies each tried twice. */
  function Retried(url: string, bodies: seq<Body>): seq<Event>
    decreases |bodies|
  {
    if |bodies| == 0 then [] else [Execute(url, bodies[0]), Sleep(RetrySleep), Execute(url, bodies[0])] + Retried(url, bodies[1..])
  }

  /** A body whose attempts end without rows (no "rows" key, or two
      `HttpError`s) adds no row list and queues no overflow body; only its
      requests are recorded and "rows" is created. */
  lemma ConQueryDropped(url: string, body: Body, queryType: string, remote: nat -> Answer, p: Pass)
    requires FetchBody(url, body, remote, p.next).fetched == Dropped
    ensures var f := FetchBody(url, body, remote, p.next);
      ConQuerySpec(url, body, queryType, remote, p) ==
        p.(events := p.events + f.events, next := f.next, hasRows := true)
  {
  }

  /** The row list one fetch adds to "rows": its rows if it got any. */
  function FetchedRows(f: Fetch): seq<seq<Json>>
  {
    if f.fetched.Got? then [f.fetched.rows] else []
  }

  /** The overflow body one fetch queues: the body with `startRow` 24999 when
      it got more than 24999 rows on the "first" pass. */
  function FetchedOverflow(body: Body, queryType: string, f: Fetch): seq<Body>
  {
    if f.fetched.Got? && |f.fetched.rows| > OverflowThreshold && queryType == "first" then [Overflowed(body)] else []
  }

  /** The row lists a pass fetches from the k-th request on, one per body
      that got rows, in body order, up to the first `RefreshError`. */
  function GotRows(url: string, bodies: seq<Body>, remote: nat -> Answer, k: nat): seq<seq<Json>>
    decreases |bodies|
  {
    if |bodies| == 0 then []
    else
      var f := FetchBody(url, bodies[0], remote, k);
      if f.fetched.Stopped? then [] else FetchedRows(f) + GotRows(url, bodies[1..], remote, f.next)
  }

  /** The bodies of such a pass whose rows number more than 24999, each with
      `startRow` 24999, in body order; none outside the "first" pass. */
  function OverflowBodies(url: string, bodies: seq<Body>, queryType: string, remote: nat -> Answer, k: nat): seq<Body>
    decreases |bodies|
  {
    if |bodies| == 0 then []
    else
      var f := FetchBody(url, bodies[0], remote, k);
      if f.fetched.Stopped? then []
      else FetchedOverflow(bodies[0], queryType, f) + OverflowBodies(url, bodies[1..], queryType, remote, f.next)
  }

  /** One body in terms of its fetch: the requests are recorded, "rows" is
      created unless the fetch stopped, and only a fetch with rows adds a row
      list and perhaps an overflow body. */
  lemma ConQueryStep(url: string, body: Body, queryType: string, remote: nat -> Answer, p: Pass)
    ensures var f := FetchBody(url, body, remote, p.next);
      var q := ConQuerySpec(url, body, queryType, remote, p);
      && q.next == f.next && q.events == p.events + f.events
      && q.stopped == (p.stopped || f.fetched.Stopped?)
      && q.groups == p.groups + FetchedRows(f)
      && q.extras == p.extras + FetchedOverflow(body, queryType, f)
  {
    var f := FetchBody(url, body, remote, p.next);
    assert p.groups + [] == p.groups && p.extras + [] == p.extras;
  }

  /** Whatever the answers, a pass appends exactly the fetched row lists to
      "rows", one per body that got rows, in body order. */
  lemma {:induction false} PassRows(url: string, bodies: seq<Body>, queryType: string, remote: nat -> Answer, p: Pass)
    requires !p.stopped
    ensures RunPass(url, bodies, queryType, remote, p).groups == p.groups + GotRows(url, bodies, remote, p.next)
    decreases |bodies|
  {
    if |bodies| == 0 {
      assert p.groups + [] == p.groups;
    } else {
      var f := FetchBody(url, bodies[0], remote, p.next);
      var q := ConQuerySpec(url, bodies[0], queryType, remote, p);
      ConQueryStep(url, bodies[0], queryType, remote, p);
      if q.stopped {
        assert p.groups + [] == p.groups;
      } else {
        PassRows(url, bodies[1..], queryType, remote, q);
        AppendAssoc(p.groups, FetchedRows(f), GotRows(url, bodies[1..], remote, f.next));
      }
    }
  }

  /** ... and queues exactly the bodies with more than 24999 rows on the
      "first" pass, in body order. */
  lemma {:induction false} PassOverflows(url: string, bodies: seq<Body>, queryType: string, remote: nat -> Answer, p: Pass)
    requires !p.stopped
    ensures RunPass(url, bodies, queryType, remote, p).extras == p.extras + OverflowBodies(url, bodies, queryType, remote, p.next)
    decreases |bodies|
  {
    if |bodies| == 0 {
      assert p.extras + [] == p.extras;
    } else {
      var f := FetchBody(url, bodies[0], remote, p.next);
      var q := ConQuerySpec(url, bodies[0], queryType, remote, p);
      ConQueryStep(url, bodies[0], queryType, remote, p);
      if q.stopped {
        assert p.extras + [] == p.extras;
      } else {
        PassOverflows(url, bodies[1..], queryType, remote, q);
        AppendAssoc(p.extras, FetchedOverflow(bodies[0], queryType, f), OverflowBodies(url, bodies[1..], queryType, remote, f.next));
      }
    }
  }

  /** Concatenation regroups; stated for any element type so that the proofs
      using it need not compare the elements. */
  lemma AppendAssoc<T>(a: seq<T>, b: seq<T>, c: seq<T>)
    ensures (a + b) + c == a + (b + c)
  {
  }

  /** Three bodies whose answers are an `HttpError` then rows, no rows, and
      rows: the first body's retry and the third body are kept, the second
      is dropped. */
  lemma MixedPass(url: string, b1: Body, b2: Body, b3: Body, r1: seq<Json>, r3: seq<Json>, remote: nat -> Answer)
    requires remote(0) == HttpError && remote(1) == Rows(r1) && remote(2) == NoRows && remote(3) == Rows(r3)
    ensures var r := RunPass(url, [b1, b2, b3], "first", remote, Pass(false, [], [], [], 0, false));
      && !r.stopped && r.hasRows && r.next == 4
      && r.groups == [r1, r3]
  {
    var p := Pass(false, [], [], [], 0, false);
    assert [b1, b2, b3][1..] == [b2, b3] && [b2, b3][1..] == [b3];
    var q1 := ConQuerySpec(url, b1, "first", remote, p);
    var q2 := ConQuerySpec(url, b2, "first", remote, q1);
    var q3 := ConQuerySpec(url, b3, "first", remote, q2);
    assert q1.next == 2 && !q1.stopped && q1.groups == [r1];
    assert q2.next == 3 && !q2.stopped && q2.groups == [r1];
    assert q3.next == 4 && !q3.stopped && q3.hasRows && q3.groups == [r1, r3];
    assert RunPass(url, [b1, b2, b3], "first", remote, p) == RunPass(url, [b3], "first", remote, q2);
    assert RunPass(url, [b3], "first", remote, q2) == q3;
  }

  /** Both passes of `concurrent_query_asyncio` over the body list: the
      "first" pass, then, only when it queued overflow bodies and the user
      confirms, the "second" pass over exactly those bodies. */
  function BothPasses(url: string, bodies: seq<Body>, remote: nat -> Answer, p: Pass, confirmRows: bool): (r: (Attempt<()>, Pass))
  {
    var first := RunPass(url, bodies, "first", remote, p);
    if first.stopped then (Threw(RefreshError), first)
    else if |first.extras| == 0 then (Returned(()), first)
    else
      var asked := first.(events := first.events + [AskMoreRows(|first.extras|)]);
      if !confirmRows then (Returned(()), asked)
      else
        var second := RunPass(url, first.extras, "second", remote, asked);
        (if second.stopped then Threw(RefreshError) else Returned(()), second)
  }

  function Fresh(hasRows: bool, groups: seq<seq<Json>>, next: nat): Pass
  {
    Pass(hasRows, groups, [], [], next, false)
  }

  /** `concurrent_query_asyncio` after `create_body_list` has produced the
      whole default list `bodies`: the question about more rows is asked
      exactly when the first pass ends normally with overflow bodies; further
      requests after the first pass happen only when the answer is yes, at
      most two per overflow body; the second pass queues no overflow body;
      and the run ends in `RefreshError` exactly when a pass was stopped. */
  lemma SecondPassGate(url: string, bodies: seq<Body>, remote: nat -> Answer, p: Pass, confirmRows: bool)
    requires !p.stopped
    ensures var first := RunPass(url, bodies, "first", remote, p);
      var (outcome, r) := BothPasses(url, bodies, remote, p, confirmRows);
      && r.extras == first.extras
      && (r.next > first.next ==> confirmRows && !first.stopped && |first.extras| > 0)
      && r.next <= first.next + 2 * |first.extras|
      && (r.events != first.events <==> !first.stopped && |first.extras| > 0)
      && (r.events != first.events ==> first.events < r.events && r.events[|first.events|] == AskMoreRows(|first.extras|))
      && (outcome == Threw(RefreshError) <==> r.stopped)
      && (outcome != Threw(RefreshError) ==> outcome == Returned(()))
      && first.groups <= r.groups
  {
    var first := RunPass(url, bodies, "first", remote, p);
    if !first.stopped && |first.extras| > 0 {
      var asked := first.(events := first.events + [AskMoreRows(|first.extras|)]);
      PassExtras(url, first.extras, "second", remote, asked);
      PassProgress(url, first.extras, "second", remote, asked);
      assert asked.events[|first.events|] == AskMoreRows(|first.extras|);
    }
  }

  /** With at least one body and every request failing, the passes leave
      `self.data == {"rows": []}` behind a fresh object: the state in which
      `export` reports "Results are empty". */
  lemma AllRequestsFailed(url: string, bodies: seq<Body>, remote: nat -> Answer, next: nat, confirmRows: bool)
    requires |bodies| > 0
    requires forall k :: next <= k < next + 2 * |bodies| ==> remote(k) == HttpError
    ensures var (outcome, r) := BothPasses(url, bodies, remote, Fresh(false, [], next), confirmRows);
      && outcome == Returned(())
      && r.hasRows && r.groups == []
      && r.next == next + 2 * |bodies|
  {
    PassAllFailed(url, bodies, "first", remote, Fresh(false, [], next));
  }

  /** The outcome of one call of `concurrent_query_asyncio`, with the object's
      new `self.body`, the new contents of the shared default body list and
      the new pass state. */
  datatype Run = Run(outcome: Attempt<()>, body: Body, shared: seq<Body>, pass: Pass)

  function QueryRun(body: Body, shared: seq<Body>, hasRows: bool, groups: seq<seq<Json>>, url: string,
                    granularity: Option<string>, today: Day, remote: nat -> Answer, next: nat, confirmRows: bool): Run
  {
    var start := Fresh(hasRows, groups, next);
    match DateRangeSpec(None, DateArgOf(body, StartDateKey), DateArgOf(body, EndDateKey), granularity, today)
    case Fails(f) => Run(Threw(f), body, shared, start)
    case NoList => Run(Threw(TypeError), body, shared, start)
    case Days(ds) =>
      var made := BodiesFor(body, ds, granularity);
      var (outcome, p) := BothPasses(url, shared + made, remote, start, confirmRows);
      Run(outcome, LastMade(body, made), shared + made, p)
  }

  /** The body and body list a run leaves, apart from the passes. */
  lemma QueryRunState(body: Body, shared: seq<Body>, hasRows: bool, groups: seq<seq<Json>>, url: string,
                      granularity: Option<string>, today: Day, remote: nat -> Answer, next: nat, confirmRows: bool)
    ensures var r := QueryRun(body, shared, hasRows, groups, url, granularity, today, remote, next, confirmRows);
      match DateRangeSpec(None, DateArgOf(body, StartDateKey), DateArgOf(body, EndDateKey), granularity, today)
      case Days(ds) =>
        var made := BodiesFor(body, ds, granularity);
        r.shared == shared + made && r.body == LastMade(body, made)
      case _ => r.body == body && r.shared == shared && r.pass == Fresh(hasRows, groups, next) && r.outcome.Threw?
  {
  }

  /** `SearchAnalytics`: the query body, the fetched data and the saved-query
      settings of one session. `self.data` is recorded by whether it has a
      "rows" key and the row lists appended to it. */
  class SearchAnalytics {
    var body: Body
    var hasRows: bool
    var groups: seq<seq<Json>>
    var utils: map<string, Json>
    /** The default `new_body` list of `create_body_list`, shared by every call. */
    const shared: BodyList

    constructor (shared: BodyList)
      ensures body == map[StartRowKey := Int(0), RowLimitKey := Int(25000)]
      ensures !hasRows && groups == [] && utils == map[]
      ensures this.shared == shared
    {
      body := map[StartRowKey := Int(0), RowLimitKey := Int(25000)];
      hasRows := false;
      groups := [];
      utils := map[];
      this.shared := shared;
    }

    /** `self.data` as a dict. */
    function Data(): (d: map<string, Json>)
      reads this
      ensures hasRows <==> RowsKey in d
      ensures d.Keys <= {RowsKey}
    {
      if hasRows then map[RowsKey := Arr(seq(|groups|, i requires 0 <= i < |groups| reads this => Arr(groups[i])))]
      else map[]
    }

    /** `update_body(body)`: the given fields are added, replacing the old ones. */
    method UpdateBody(b: Body)
      modifies this
      ensures body == old(body) + b
      ensures hasRows == old(hasRows) && groups == old(groups) && utils == old(utils)
    {
      body := body + b;
    }

    /** `con_query(body, query_type)`: the pass state outside `self.data` is
        passed in and returned. */
    method ConQuery(url: string, b: Body, queryType: string, remote: nat -> Answer,
                    extras0: seq<Body>, events0: seq<Event>, next0: nat)
      returns (extras: seq<Body>, events: seq<Event>, next: nat, stopped: bool)
      modifies this
      ensures Pass(hasRows, groups, extras, events, next, stopped) ==
        ConQuerySpec(url, b, queryType, remote, Pass(old(hasRows), old(groups), extras0, events0, next0, false))
      ensures body == old(body) && utils == old(utils)
    {
      extras, events, next, stopped := extras0, events0, next0, false;
      var data: Option<Answer> := None;
      var a := remote(next);
      events, next := events + [Execute(url, b)], next + 1;
      if a == Expired {
        return extras, events, next, true;
      }
      if a == HttpError {
        events := events + [Sleep(RetrySleep)];
        a := remote(next);
        events, next := events + [Execute(url, b)], next + 1;
        if a == Expired {
          return extras, events, next, true;
        }
        if a != HttpError {
          data := Some(a);
        }
      } else {
        data := Some(a);
      }
      hasRows := true;
      if data.Some? && data.value.Rows? {
        var rows := data.value.rows;
        groups := groups + [rows];
        if |rows| > OverflowThreshold && queryType == "first" {
          extras := extras + [Overflowed(b)];
        }
      }
    }

    /** `main(body_list, message, query_type)`: the bodies one after another. */
    method RunBodies(url: string, bodies: seq<Body>, queryType: string, remote: nat -> Answer,
                     extras0: seq<Body>, events0: seq<Event>, next0: nat)
      returns (extras: seq<Body>, events: seq<Event>, next: nat, stopped: bool)
      modifies this
      ensures Pass(hasRows, groups, extras, events, next, stopped) ==
        RunPass(url, bodies, queryType, remote, Pass(old(hasRows), old(groups), extras0, events0, next0, false))
      ensures body == old(body) && utils == old(utils)
    {
      extras, events, next, stopped := extras0, events0, next0, false;
      var i := 0;
      while i < |bodies| && !stopped
        invariant 0 <= i <= |bodies|
        invariant RunPass(url, bodies[i..], queryType, remote, Pass(hasRows, groups, extras, events, next, stopped)) ==
          RunPass(url, bodies, queryType, remote, Pass(old(hasRows), old(groups), extras0, events0, next0, false))
        invariant body == old(body) && utils == old(utils)
        decreases |bodies| - i
      {
        assert bodies[i..][1..] == bodies[i + 1..];
        extras, events, next, stopped := ConQuery(url, bodies[i], queryType, remote, extras, events, next);
        i := i + 1;
      }
    }
  
    /** `concurrent_query_asyncio(url, granularity)` without the retry
        decorator. `today` is the clock `create_date_range` reads, `next` the
        number of requests made before, `confirmRows` the answer to the
        "include them too?" question. */
    method QueryOnce(url: string, granularity: Option<string>, today: Day, remote: nat -> Answer,
                     next0: nat, confirmRows: bool) returns (outcome: Attempt<()>, events: seq<Event>, next: nat)
      modifies this, shared
      ensures var r := QueryRun(old(body), old(shared.items), old(hasRows), old(groups), url, granularity,
                                today, remote, next0, confirmRows);
        && outcome == r.outcome && body == r.body && shared.items == r.shared
        && hasRows == r.pass.hasRows && groups == r.pass.groups
        && events == r.pass.events && next == r.pass.next
      ensures utils == old(utils)
    {
      var updated, made := CreateBodyList(body, shared, granularity, today);
      body := updated;
      if made.Raised? {
        return Threw(made.failure), [], next0;
      }
      outcome, events, next := FetchAll(url, made.value, remote, next0, confirmRows);
    }

    /** The two `asyncio.run(main(...))` calls and the question between them. */
    method FetchAll(url: string, bodies: seq<Body>, remote: nat -> Answer, next0: nat, confirmRows: bool)
      returns (outcome: Attempt<()>, events: seq<Event>, next: nat)
      modifies this
      ensures var (o, p) := BothPasses(url, bodies, remote, Fresh(old(hasRows), old(groups), next0), confirmRows);
        && outcome == o && hasRows == p.hasRows && groups == p.groups && events == p.events && next == p.next
      ensures body == old(body) && utils == old(utils)
    {
      var extras, stopped;
      extras, events, next, stopped := RunBodies(url, bodies, "first", remote, [], [], next0);
      if stopped {
        return Threw(RefreshError), events, next;
      }
      if |extras| >= 1 {
        events := events + [AskMoreRows(|extras|)];
        if confirmRows {
          var more;
          more, events, next, stopped := RunBodies(url, extras, "second", remote, extras, events, next);
          if stopped {
            return Threw(RefreshError), events, next;
          }
        }
      }
      outcome := Returned(());
    }

    /** `concurrent_query_asyncio` behind `regenerate_credentials`: after a
        `RefreshError` and a yes to "regenerate them?" the method runs again on
        the same object, whose body, default body list and data the first run
        has already changed. */
    method ConcurrentQueryAsyncio(url: string, granularity: Option<string>, today: Day, remote: nat -> Answer,
                                  confirmRegenerate: bool, confirmRows: bool)
      returns (w: Wrapped<()>, first: Attempt<()>, second: Attempt<()>)
      modifies this, shared
      ensures w == RegenerateCredentials(first, confirmRegenerate, second)
      ensures var r1 := QueryRun(old(body), old(shared.items), old(hasRows), old(groups), url, granularity,
                                 today, remote, 0, confirmRows);
        && first == r1.outcome
        && (first == Threw(RefreshError) && confirmRegenerate ==>
             var r2 := QueryRun(r1.body, r1.shared, r1.pass.hasRows, r1.pass.groups, url, granularity,
                                today, remote, r1.pass.next, confirmRows);
             second == r2.outcome && body == r2.body && shared.items == r2.shared
             && hasRows == r2.pass.hasRows && groups == r2.pass.groups)
        && (first != Threw(RefreshError) || !confirmRegenerate ==>
             body == r1.body && shared.items == r1.shared && hasRows == r1.pass.hasRows && groups == r1.pass.groups)
      ensures utils == old(utils)
    {
      var events, next;
      first, events, next := QueryOnce(url, granularity, today, remote, 0, confirmRows);
      second := first;
      if first == Threw(RefreshError) && confirmRegenerate {
        second, events, next := QueryOnce(url, granularity, today, remote, next, confirmRows);
      }
      w := RegenerateCredentials(first, confirmRegenerate, second);
    }

    /** The body of the `process_toml` loop for one key and value. */
    method ApplySetting(key: string, value: Json) returns (failure: Option<Failure>)
      modifies this
      ensures match TomlField(old(body), old(utils), Field(key, value))
        case Raised(f) => failure == Some(f) && body == old(body) && utils == old(utils)
        case Ok((b, u)) => failure.None? && body == b && utils == u
      ensures hasRows == old(hasRows) && groups == old(groups)
    {
      failure := None;
      if key == "dimensions" {
        var all := HasAll(value);
        if all.None? {
          assert TomlField(body, utils, Field(key, value)) == Raised(TypeError);
          return Some(TypeError);
        }
        if all.value {
          UpdateBody(map["dimensions" := Arr(AllDimensions)]);
          assert body == old(body)["dimensions" := Arr(AllDimensions)];
        } else {
          body := body["dimensions" := Arr(Iterated(value).value)];
        }
        assert TomlField(old(body), old(utils), Field(key, value)) == Ok((body, utils));
      }
      if key == "filters" {
        var filters := FilterList(value);
        if filters.Raised? {
          assert TomlField(body, utils, Field(key, value)) == Raised(filters.failure);
          return Some(filters.failure);
        }
        body := body["dimensionFilterGroups" := Arr([Obj([Field("filters", Arr(filters.value))])])];
        assert TomlField(old(body), old(utils), Field(key, value)) == Ok((body, utils));
      }
      if key == "start-date" {
        body := body[StartDateKey := value];
      }
      if key == "end-date" {
        body := body[EndDateKey := value];
      }
      if key == "start-date" {
        // the same value written a second time
        assert body[StartDateKey := value] == body;
        body := body[StartDateKey := value];
      }
      if key == "search-type" {
        body := body["searchType" := value];
      }
      if key == "row-limit" {
        body := body[RowLimitKey := value];
      }
      if key == "start-row" {
        body := body[StartRowKey := value];
      }
      if key == "export-type" {
        utils := utils["export-type" := value];
      }
      if key == "url" {
        utils := utils["url" := value];
      }
    }

    /** The `process_toml` loop over `query_file["query"]`, given the parsed
        file. Reading the file, and the warning about a missing queries
        folder, are not modelled. The fields are applied in order; on an
        exception the fields before it stay applied. */
    method ProcessToml(file: seq<Field>) returns (failure: Option<Failure>)
      modifies this
      ensures var t := TomlLoad(old(body), old(utils), file);
        body == t.body && utils == t.utils && failure == t.failure
      ensures hasRows == old(hasRows) && groups == old(groups)
    {
      var query := Get(file, "query");
      if query.None? {
        return Some(KeyError);
      }
      if !query.value.Obj? {
        return Some(AttributeError);
      }
      var fields := query.value.fields;
      failure := None;
      var i := 0;
      while i < |fields|
        invariant 0 <= i <= |fields|
        invariant TomlFields(body, utils, fields[i..]) == TomlFields(old(body), old(utils), fields)
        invariant hasRows == old(hasRows) && groups == old(groups)
        decreases |fields| - i
      {
        assert fields[i..][0] == fields[i] && fields[i..][1..] == fields[i + 1..];
        var failed := ApplySetting(fields[i].key, fields[i].value);
        if failed.Some? {
          return failed;
        }
        i := i + 1;
      }
      assert fields[i..] == [];
    }
  }

  /** The dimensions stored for "all". */
  const AllDimensions: seq<Json> := [Str("date"), Str("page"), Str("query"), Str("country"), Str("device")]

  /** The one-character texts of `s`, in order. */
  function Chars(s: string): (r: seq<Json>)
    ensures |r| == |s| && forall i :: 0 <= i < |s| ==> r[i] == Str([s[i]])
  {
    seq(|s|, i requires 0 <= i < |s| => Str([s[i]]))
  }

  /** What `for x in value` visits: a list's items, a text's characters
      (a date is its `YYYY-MM-DD` text), a table's keys; `None` when Python
      cannot iterate the value. */
  function Iterated(value: Json): (r: Option<seq<Json>>)
    ensures value.Arr? ==> r == Some(value.items)
    ensures value.Obj? ==> r.Some? && Texts(KeyList(value.fields)) == r.value
    ensures value.Leaf? && value.scalar.Text? ==> r == Some(Chars(value.scalar.s))
    ensures value.Leaf? && value.scalar.Date? ==> r == Some(Chars(DateText(value.scalar.day)))
    ensures value.Leaf? ==> (r.None? <==> !value.scalar.Text? && !value.scalar.Date?)
  {
    match value
    case Arr(items) => Some(items)
    case Obj(fields) => Some(Texts(KeyList(fields)))
    case Leaf(Text(s)) => Some(Chars(s))
    case Leaf(Date(d)) => Some(Chars(DateText(d)))
    case Leaf(_) => None
  }

  /** The keys of a table, in order. */
  function KeyList(fields: seq<Field>): (r: seq<string>)
    ensures |r| == |fields| && forall i :: 0 <= i < |fields| ==> r[i] == fields[i].key
  {
    seq(|fields|, i requires 0 <= i < |fields| => fields[i].key)
  }

  /** `"all" in value`: membership in a list, a substring of a text, a key of
      a table; `None` where Python raises `TypeError`. A date text never
      holds "all". */
  function HasAll(value: Json): (r: Option<bool>)
    ensures r.None? <==> Iterated(value).None?
    ensures value.Arr? ==> r == Some(Str("all") in value.items)
    ensures value.Obj? ==> r == Some("all" in KeyList(value.fields))
    ensures value.Leaf? && value.scalar.Date? ==> r == Some(false)
  {
    match value
    case Arr(items) => Some(Str("all") in items)
    case Obj(fields) =>
      assert Get(fields, "all").Some? <==> "all" in KeyList(fields);
      Some(Get(fields, "all").Some?)
    case Leaf(Text(s)) => Some(Contains(s, "all"))
    case Leaf(Date(d)) =>
      DateHasNoAll(d);
      Some(Contains(DateText(d), "all"))
    case Leaf(_) => None
  }

  /** A `YYYY-MM-DD` text holds only digits and '-', so never "all". */
  lemma DateHasNoAll(d: Day)
    ensures !Contains(DateText(d), "all")
  {
    if Contains(DateText(d), "all") {
      ContainsFirst(DateText(d), "all");
    }
  }

  /** One saved filter "dimension operator expression…": the first two words
      and the remaining words joined by single spaces. */
  function ParseFilter(item: Json): (r: Result<Json>)
    ensures !(item.Leaf? && (item.scalar.Text? || item.scalar.Date?)) ==> r == Raised(AttributeError)
    ensures r.Raised? && item.Leaf? && item.scalar.Text? ==> r == Raised(IndexError) && |SplitWords(item.scalar.s)| < 2
  {
    match item
    case Leaf(Text(s)) =>
      var words := SplitWords(s);
      if |words| < 2 then Raised(IndexError)
      else Ok(Obj([Field("dimension", Str(words[0])), Field("operator", Str(words[1])),
                   Field("expression", Str(Join(words[2..], " ")))]))
    case Leaf(Date(_)) => Raised(IndexError)   // a date text is a single word
    case _ => Raised(AttributeError)
  }

  /** `[filter_parser(c) for c in value]`: the saved filters, all parsed, or
      the first exception among them. A text is iterated by characters, and
      a single character is never two words. */
  function FilterList(value: Json): (r: Result<seq<Json>>)
    ensures value.Arr? ==> (r.Ok? <==> forall i :: 0 <= i < |value.items| ==> ParseFilter(value.items[i]).Ok?)
    ensures value.Arr? && r.Ok? ==>
      |r.value| == |value.items| && forall i :: 0 <= i < |value.items| ==> ParseFilter(value.items[i]) == Ok(r.value[i])
    ensures value.Leaf? && value.scalar.Text? ==> r == if value.scalar.s == "" then Ok([]) else Raised(IndexError)
    ensures value.Leaf? && value.scalar.Date? ==> r == Raised(IndexError)
    ensures value.Leaf? && !value.scalar.Text? && !value.scalar.Date? ==> r == Raised(TypeError)
  {
    match value
    case Leaf(Date(_)) => Raised(IndexError)   // the first character of a date text
    case Leaf(Text(s)) =>
      var items := Iterated(value).value;
      if s == "" then MapResult(items, ParseFilter)
      else
        SplitWordsOneChar(s[0]);
        assert ParseFilter(items[0]) == Raised(IndexError);
        MapResult(items, ParseFilter)
    case _ =>
      match Iterated(value)
      case None => Raised(TypeError)
      case Some(items) => MapResult(items, ParseFilter)
  }

  /** A filter written as words separated by single spaces is read back as
      its first word, its second word and the rest. */
  lemma FilterRoundTrip(dimension: string, operator: string, expression: seq<string>)
    requires IsToken(dimension) && IsToken(operator)
    requires forall i :: 0 <= i < |expression| ==> IsToken(expression[i])
    ensures ParseFilter(Str(Join([dimension, operator] + expression, " "))) ==
      Ok(Obj([Field("dimension", Str(dimension)), Field("operator", Str(operator)),
              Field("expression", Str(Join(expression, " ")))]))
  {
    var ws := [dimension, operator] + expression;
    TokensAfterTwo(dimension, operator, expression);
    SplitWordsJoin(ws);
    var text := Join(ws, " ");
    assert SplitWords(text) == ws;
    assert ws[2..] == expression;
    ParseFilterWords(text);
  }

  lemma TokensAfterTwo(first: string, second: string, rest: seq<string>)
    requires IsToken(first) && IsToken(second)
    requires forall i :: 0 <= i < |rest| ==> IsToken(rest[i])
    ensures forall i :: 0 <= i < |[first, second] + rest| ==> IsToken(([first, second] + rest)[i])
  {
    var ws := [first, second] + rest;
    forall i | 0 <= i < |ws| ensures IsToken(ws[i]) {
      if i >= 2 { assert ws[i] == rest[i - 2]; }
    }
  }

  lemma ParseFilterWords(text: string)
    requires |SplitWords(text)| >= 2
    ensures var words := SplitWords(text);
      ParseFilter(Str(text)) ==
        Ok(Obj([Field("dimension", Str(words[0])), Field("operator", Str(words[1])),
                Field("expression", Str(Join(words[2..], " ")))]))
  {
  }

  /** The settings `process_toml` leaves behind. */
  datatype Loaded = Loaded(body: Body, utils: map<string, Json>, failure: Option<Failure>)

  /** One field of the `[query]` table applied to the body and the settings. */
  function TomlField(body: Body, utils: map<string, Json>, field: Field): Result<(Body, map<string, Json>)>
  {
    var v := field.value;
    match field.key
    case "dimensions" =>
      (match HasAll(v)
       case None => Raised(TypeError)
       case Some(all) => Ok((body["dimensions" := Arr(if all then AllDimensions else Iterated(v).value)], utils)))
    case "filters" =>
      (match FilterList(v)
       case Raised(f) => Raised(f)
       case Ok(fs) => Ok((body["dimensionFilterGroups" := Arr([Obj([Field("filters", Arr(fs))])])], utils)))
    case "start-date" => Ok((body[StartDateKey := v], utils))
    case "end-date" => Ok((body[EndDateKey := v], utils))
    case "search-type" => Ok((body["searchType" := v], utils))
    case "row-limit" => Ok((body[RowLimitKey := v], utils))
    case "start-row" => Ok((body[StartRowKey := v], utils))
    case "export-type" => Ok((body, utils["export-type" := v]))
    case "url" => Ok((body, utils["url" := v]))
    case _ => Ok((body, utils))
  }

  function TomlFields(body: Body, utils: map<string, Json>, fields: seq<Field>): Loaded
    decreases |fields|
  {
    if |fields| == 0 then Loaded(body, utils, None)
    else match TomlField(body, utils, fields[0])
      case Raised(f) => Loaded(body, utils, Some(f))
      case Ok((b, u)) => TomlFields(b, u, fields[1..])
  }

  function TomlLoad(body: Body, utils: map<string, Json>, file: seq<Field>): Loaded
  {
    match Get(file, "query")
    case None => Loaded(body, utils, Some(KeyError))
    case Some(Obj(fields)) => TomlFields(body, utils, fields)
    case Some(_) => Loaded(body, utils, Some(AttributeError))
  }

  /** The keys of the query body that a saved query can set. */
  const TomlBodyKeys: set<string> :=
    {"dimensions", "dimensionFilterGroups", StartDateKey, EndDateKey, "searchType", RowLimitKey, StartRowKey}

  /** Loading a saved query changes no other key of the body, and of the
      settings only "export-type" and "url". */
  lemma {:induction false} TomlTouchesOnlyItsKeys(body: Body, utils: map<string, Json>, fields: seq<Field>)
    ensures var t := TomlFields(body, utils, fields);
      && (forall k :: k !in TomlBodyKeys ==> (k in t.body <==> k in body) && (k in body ==> t.body[k] == body[k]))
      && (forall k :: k != "export-type" && k != "url" ==> (k in t.utils <==> k in utils) && (k in utils ==> t.utils[k] == utils[k]))
      && body.Keys <= t.body.Keys && utils.Keys <= t.utils.Keys
    decreases |fields|
  {
    if |fields| > 0 {
      match TomlField(body, utils, fields[0])
      case Raised(f) =>
      case Ok((b, u)) =>
        FieldTouchesOnlyItsKeys(body, utils, fields[0]);
        TomlTouchesOnlyItsKeys(b, u, fields[1..]);
    }
  }

  lemma FieldTouchesOnlyItsKeys(body: Body, utils: map<string, Json>, field: Field)
    ensures TomlField(body, utils, field).Ok? ==>
      var (b, u) := TomlField(body, utils, field).value;
      && (forall k :: k !in TomlBodyKeys ==> (k in b <==> k in body) && (k in body ==> b[k] == body[k]))
      && (forall k :: k != "export-type" && k != "url" ==> (k in u <==> k in utils) && (k in utils ==> u[k] == utils[k]))
      && body.Keys <= b.Keys && utils.Keys <= u.Keys
  {
  }

  /** A saved query whose `[query]` table holds a "dimensions" list with
      "all" in it, and no later "dimensions" field, asks for the five fixed
      dimensions once it loads without an exception. */
  lemma {:induction false} TomlAllDimensions(body: Body, utils: map<string, Json>, fields: seq<Field>,
                                             i: nat, items: seq<Json>)
    requires i < |fields| && fields[i] == Field("dimensions", Arr(items)) && Str("all") in items
    requires forall j :: i < j < |fields| ==> fields[j].key != "dimensions"
    requires TomlFields(body, utils, fields).failure.None?
    ensures var t := TomlFields(body, utils, fields);
      "dimensions" in t.body && t.body["dimensions"] == Arr(AllDimensions)
    decreases i
  {
    var (b, u) := TomlField(body, utils, fields[0]).value;
    if i == 0 {
      assert forall j :: 0 <= j < |fields[1..]| ==> fields[1..][j].key != "dimensions" by {
        forall j | 0 <= j < |fields[1..]| ensures fields[1..][j].key != "dimensions" {
          assert fields[1..][j] == fields[j + 1];
        }
      }
      TomlKeepsDimensions(b, u, fields[1..]);
    } else {
      assert fields[1..][i - 1] == fields[i];
      assert forall j :: i - 1 < j < |fields[1..]| ==> fields[1..][j].key != "dimensions" by {
        forall j | i - 1 < j < |fields[1..]| ensures fields[1..][j].key != "dimensions" {
          assert fields[1..][j] == fields[j + 1];
        }
      }
      TomlAllDimensions(b, u, fields[1..], i - 1, items);
    }
  }

  /** Fields other than "dimensions" leave the stored dimensions as they are. */
  lemma {:induction false} TomlKeepsDimensions(body: Body, utils: map<string, Json>, fields: seq<Field>)
    requires "dimensions" in body
    requires forall j :: 0 <= j < |fields| ==> fields[j].key != "dimensions"
    ensures var t := TomlFields(body, utils, fields);
      "dimensions" in t.body && t.body["dimensions"] == body["dimensions"]
    decreases |fields|
  {
    if |fields| > 0 {
      match TomlField(body, utils, fields[0])
      case Raised(f) =>
      case Ok((b, u)) =>
        FieldKeepsDimensions(body, utils, fields[0]);
        assert forall j :: 0 <= j < |fields[1..]| ==> fields[1..][j].key != "dimensions" by {
          forall j | 0 <= j < |fields[1..]| ensures fields[1..][j].key != "dimensions" {
            assert fields[1..][j] == fields[j + 1];
          }
        }
        TomlKeepsDimensions(b, u, fields[1..]);
    }
  }

  /** Only a "dimensions" field writes the body's "dimensions" key. */
  lemma FieldKeepsDimensions(body: Body, utils: map<string, Json>, field: Field)
    requires "dimensions" in body && field.key != "dimensions"
    ensures TomlField(body, utils, field).Ok? ==>
      var b := TomlField(body, utils, field).value.0;
      "dimensions" in b && b["dimensions"] == body["dimensions"]
  {
  }

  /** Applying a list of fields and then one more is applying the longer list. */
  lemma {:induction false} TomlFieldsSnoc(body: Body, utils: map<string, Json>, fields: seq<Field>)
    requires |fields| > 0
    requires TomlFields(body, utils, fields[..|fields| - 1]).failure.None?
    ensures var t := TomlFields(body, utils, fields[..|fields| - 1]);
      TomlFields(body, utils, fields) ==
        match TomlField(t.body, t.utils, fields[|fields| - 1])
        case Raised(f) => Loaded(t.body, t.utils, Some(f))
        case Ok((b, u)) => Loaded(b, u, None)
    decreases |fields|
  {
    if |fields| > 1 {
      assert fields[..|fields| - 1][0] == fields[0];
      match TomlField(body, utils, fields[0])
      case Raised(f) =>
      case Ok((b, u)) =>
        assert fields[..|fields| - 1][1..] == fields[1..][..|fields[1..]| - 1];
        TomlFieldsSnoc(b, u, fields[1..]);
    }
  }

  /** The file name `process_toml` opens: ".toml" is added to a name without
      a dot that does not end in ".toml" already. */
  function TomlFileName(filename: string): (r: string)
    ensures EndsWith(r, ".toml") || '.' in r
    ensures r == filename || r == filename + ".toml"
    ensures ('.' in filename) ==> r == filename
  {
    if !EndsWith(filename, ".toml") && '.' !in filename then filename + ".toml" else filename
  }

  lemma TomlFileNameIdempotent(filename: string)
    ensures TomlFileName(TomlFileName(filename)) == TomlFileName(filename)
  {
    var r := TomlFileName(filename);
    if r != filename {
      assert r[|filename|] == '.';
    }
  }

  /** The replacements `__clean_url` applies, in order. */
  const CleanRules: seq<(string, string)> :=
    [("https", ""), ("http", ""), (":", ""), ("sc-domain", ""), ("//", ""),
     ("/", "-"), ("--", "-"), (".", "-"), (",", "-")]

  /** The url after the first `n` replacements, each after lower-casing. */
  function CleanSteps(url: string, n: nat): string
    requires n <= |CleanRules|
  {
    if n == 0 then url
    else Replace(Lower(CleanSteps(url, n - 1)), CleanRules[n - 1].0, CleanRules[n - 1].1)
  }

  /** `url or "query"` after the replacements. */
  function CleanedOrQuery(url: Option<string>): string
  {
    if url.None? || CleanSteps(url.value, |CleanRules|) == "" then "query" else CleanSteps(url.value, |CleanRules|)
  }

  /** `__clean_url(url)`: the url reassigned once per replacement. */
  method CleanUrl(url: Option<string>) returns (r: string)
    ensures r == CleanedOrQuery(url)
    ensures r != ""
    ensures forall c :: c in r ==> !IsUpper(c) && c != '/' && c != '.' && c != ',' && c != ':'
  {
    var u := url;
    for i := 0 to |CleanRules|
      invariant u.None? <==> url.None?
      invariant u.Some? ==> u.value == CleanSteps(url.value, i)
    {
      if u.Some? {
        u := Some(Replace(Lower(u.value), CleanRules[i].0, CleanRules[i].1));
      }
    }
    r := if u.None? || u.value == "" then "query" else u.value;
    if u.Some? {
      CleanedChars(url.value);
    }
  }

  /** A character that a later replacement neither matches nor writes stays
      out of the url once it is gone. */
  lemma {:induction false} StaysAbsent(url: string, c: char, lo: nat, hi: nat)
    requires lo <= hi <= |CleanRules|
    requires !('A' <= c <= 'Z') && !('a' <= c <= 'z')
    requires c !in CleanSteps(url, lo)
    requires forall j :: lo <= j < hi ==> c !in CleanRules[j].1
    ensures c !in CleanSteps(url, hi)
    decreases hi
  {
    if lo < hi {
      StaysAbsent(url, c, lo, hi - 1);
      var s := CleanSteps(url, hi - 1);
      LowerKeepsAbsent(s, c);
      assert CleanSteps(url, hi) == Replace(Lower(s), CleanRules[hi - 1].0, CleanRules[hi - 1].1);
    }
  }

  /** The cleaned url is lower-case and holds no ':', '/', '.' or ','. */
  lemma CleanedChars(url: string)
    ensures forall c :: c in CleanSteps(url, |CleanRules|) ==> !IsUpper(c) && c != '/' && c != '.' && c != ',' && c != ':'
  {
    RemovedAt(url, ':', 2);
    StaysAbsent(url, ':', 3, 9);
    RemovedAt(url, '/', 5);
    StaysAbsent(url, '/', 6, 9);
    RemovedAt(url, '.', 7);
    StaysAbsent(url, '.', 8, 9);
    RemovedAt(url, ',', 8);
    LastStepLower(url);
  }

  /** Replacement `n` removes its one-character pattern. */
  lemma RemovedAt(url: string, c: char, n: nat)
    requires n < |CleanRules| && CleanRules[n].0 == [c] && c !in CleanRules[n].1
    ensures c !in CleanSteps(url, n + 1)
  {
    assert CleanSteps(url, n + 1) == Replace(Lower(CleanSteps(url, n)), [c], CleanRules[n].1);
  }

  lemma LastStepLower(url: string)
    ensures forall c :: c in CleanSteps(url, |CleanRules|) ==> !IsUpper(c)
  {
    var s := CleanSteps(url, 8);
    LowerHasNoUpper(s);
    assert CleanSteps(url, 9) == Replace(Lower(s), ",", "-");
  }

  /** The writers `export` can call. */
  datatype Writer = TableWriter | CsvWriter | JsonWriter | TsvWriter | ExcelWriter

  /** What `export(command, export_type)` does: exit on empty results, only
      lower-case an upper-case type, or call one writer. */
  datatype Dispatch = EmptyResults | LowerCaseOnly | Writes(writer: Writer)

  const UpperTypes: seq<string> := ["CSV", "JSON", "TSV", "TABLE"]

  /** The `export` dispatch. `("sites" or "sitemaps")` is "sites", so only the
      sites command defaults to a table; every type that is not one of the
      eight names, and no type at all otherwise, goes to Excel. */
  function ExportChoice(data: map<string, Json>, command: string, exportType: Option<string>): (d: Dispatch)
    ensures d == EmptyResults <==> data == map[RowsKey := Arr([])]
    ensures d != EmptyResults && exportType.None? ==> d == Writes(if command == "sites" then TableWriter else ExcelWriter)
    ensures d != EmptyResults && exportType.Some? && exportType.value in UpperTypes ==>
      d == LowerCaseOnly
    ensures d != EmptyResults && exportType == Some("csv") ==> d == Writes(CsvWriter)
    ensures d != EmptyResults && exportType == Some("json") ==> d == Writes(JsonWriter)
    ensures d != EmptyResults && exportType == Some("tsv") ==> d == Writes(TsvWriter)
    ensures d != EmptyResults && exportType == Some("table") ==> d == Writes(TableWriter)
    ensures (d != EmptyResults && exportType.Some? && exportType.value !in UpperTypes
             && exportType.value !in ["csv", "json", "tsv", "table"]) ==> d == Writes(ExcelWriter)
  {
    if data == map[RowsKey := Arr([])] then EmptyResults
    else if command == "sites" && exportType.None? then Writes(TableWriter)
    else if exportType.Some? && exportType.value in UpperTypes then LowerCaseOnly
    else if exportType == Some("csv") then Writes(CsvWriter)
    else if exportType == Some("json") then Writes(JsonWriter)
    else if exportType == Some("tsv") then Writes(TsvWriter)
    else if exportType == Some("table") then Writes(TableWriter)
    else Writes(ExcelWriter)
  }
}
