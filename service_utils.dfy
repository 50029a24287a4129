// seoman/utils/service_utils.py: turning one query body into the list of
// per-request bodies, and the credential-retry wrapper.

module ServiceUtils {
  import opened Wrappers
  import opened Json
  import opened Dates

  /** A query body: a Python dict from field names to values. */
  type Body = map<string, Json>

  const StartDateKey := "startDate"
  const EndDateKey := "endDate"

  /** The module-level default list `new_body=[]` of `create_body_list`: one
      list object that every call without an explicit `new_body` appends to. */
  class BodyList {
    var items: seq<Body>

    constructor ()
      ensures items == []
    {
      items := [];
    }
  }

  /** `body.get(key)` as `strptime` then sees it: absent (or null) is `None`;
      a date text parses; another text does not; a number, a list or a dict
      is not a text. */
  function DateArgOf(body: Body, key: string): (r: Option<DateArg>)
    ensures r.None? <==> key !in body || body[key] == Leaf(Null)
    ensures key in body && body[key].Leaf? && body[key].scalar.Date? ==>
      r == Some(Parsed(body[key].scalar.day))
    ensures r == Some(Unparsable) <==> key in body && body[key].Leaf? && body[key].scalar.Text?
    ensures r.Some? && r.value.NotText? ==> (r.value.numeric <==> body[key].Leaf?)
  {
    if key !in body then None
    else match body[key]
      case Leaf(Null) => None
      case Leaf(Date(d)) => Some(Parsed(d))
      case Leaf(Text(_)) => Some(Unparsable)
      case Leaf(_) => Some(NotText(true))
      case _ => Some(NotText(false))
  }

  /** `body.update({"startDate": s, "endDate": e})`. */
  function WithDates(body: Body, s: Day, e: Day): Body
  {
    body[StartDateKey := DateValue(s)][EndDateKey := DateValue(e)]
  }

  lemma WithDatesTwice(body: Body, s: Day, e: Day, s2: Day, e2: Day)
    ensures WithDates(WithDates(body, s, e), s2, e2) == WithDates(body, s2, e2)
  {
  }

  /** The copies appended for a single-weekday granularity: one per date. */
  function SingleDayBodies(body: Body, dates: seq<Day>): seq<Body>
    decreases |dates|
  {
    if |dates| == 0 then []
    else SingleDayBodies(body, dates[..|dates| - 1]) + [WithDates(body, dates[|dates| - 1], dates[|dates| - 1])]
  }

  /** The copies appended for an interval granularity: one per consecutive pair
      of dates; the last date only closes the window before it. */
  function IntervalBodies(body: Body, dates: seq<Day>): seq<Body>
    decreases |dates|
  {
    if |dates| < 2 then []
    else IntervalBodies(body, dates[..|dates| - 1]) + [WithDates(body, dates[|dates| - 2], dates[|dates| - 1] - 1)]
  }

  /** Which of the two loops of `create_body_list` a granularity runs. */
  predicate UsesIntervals(granularity: Option<string>) {
    granularity.Some? && granularity.value !in DayNames
  }

  function BodiesFor(body: Body, dates: seq<Day>, granularity: Option<string>): seq<Body>
  {
    if UsesIntervals(granularity) then IntervalBodies(body, dates) else SingleDayBodies(body, dates)
  }

  lemma {:induction false} SingleDayBodiesAt(body: Body, dates: seq<Day>)
    ensures |SingleDayBodies(body, dates)| == |dates|
    ensures forall i :: 0 <= i < |dates| ==> SingleDayBodies(body, dates)[i] == WithDates(body, dates[i], dates[i])
    decreases |dates|
  {
    if |dates| > 0 {
      var front := dates[..|dates| - 1];
      SingleDayBodiesAt(body, front);
      assert forall i :: 0 <= i < |front| ==> front[i] == dates[i];
    }
  }

  lemma {:induction false} IntervalBodiesAt(body: Body, dates: seq<Day>)
    ensures |IntervalBodies(body, dates)| == if |dates| < 2 then 0 else |dates| - 1
    ensures forall i :: 0 <= i < |dates| - 1 ==>
      IntervalBodies(body, dates)[i] == WithDates(body, dates[i], dates[i + 1] - 1)
    decreases |dates|
  {
    if |dates| >= 2 {
      var front := dates[..|dates| - 1];
      IntervalBodiesAt(body, front);
      assert forall i :: 0 <= i < |front| ==> front[i] == dates[i];
    }
  }

  /** The (startDate, endDate) a body asks for, when both are dates. */
  function Span(b: Body): Option<(Day, Day)>
  {
    match (DateArgOf(b, StartDateKey), DateArgOf(b, EndDateKey))
    case (Some(Parsed(s)), Some(Parsed(e))) => Some((s, e))
    case _ => None
  }

  /** A single-weekday granularity gives one body per date, in order, each
      asking for exactly that day. */
  lemma SingleDayWindows(body: Body, dates: seq<Day>)
    ensures var bodies := SingleDayBodies(body, dates);
      && |bodies| == |dates|
      && forall i :: 0 <= i < |dates| ==> Span(bodies[i]) == Some((dates[i], dates[i]))
  {
    SingleDayBodiesAt(body, dates);
  }

  /** An interval granularity gives len(dates) - 1 bodies; body i runs from
      dates[i] to the day before dates[i + 1], so each window ends the day
      before the next one starts, and for ascending dates none is empty. */
  lemma IntervalWindows(body: Body, dates: seq<Day>)
    ensures var bodies := IntervalBodies(body, dates);
      && |bodies| == (if |dates| < 2 then 0 else |dates| - 1)
      && (forall i :: 0 <= i < |bodies| ==> Span(bodies[i]) == Some((dates[i], dates[i + 1] - 1)))
      && (Ascending(dates) ==> forall i :: 0 <= i < |bodies| ==>
           Span(bodies[i]).Some? && Span(bodies[i]).value.0 <= Span(bodies[i]).value.1)
  {
    IntervalBodiesAt(body, dates);
    var bodies := IntervalBodies(body, dates);
    assert forall i :: 0 <= i < |bodies| ==> Span(bodies[i]) == Some((dates[i], dates[i + 1] - 1));
  }

  /** The interval bodies never reach the last date: no window ends on or after it. */
  lemma IntervalsMissLastDate(body: Body, dates: seq<Day>)
    requires Ascending(dates) && |dates| >= 1
    ensures forall b :: b in IntervalBodies(body, dates) ==>
      exists e :: DateArgOf(b, EndDateKey) == Some(Parsed(e)) && e < dates[|dates| - 1]
  {
    IntervalBodiesAt(body, dates);
    var bodies := IntervalBodies(body, dates);
    forall b | b in bodies
      ensures exists e :: DateArgOf(b, EndDateKey) == Some(Parsed(e)) && e < dates[|dates| - 1]
    {
      var i :| 0 <= i < |bodies| && bodies[i] == b;
      var e := dates[i + 1] - 1;
      assert DateArgOf(b, EndDateKey) == Some(Parsed(e));
      assert e < dates[|dates| - 1];
    }
  }

  /** Every body produced agrees with the input body on every other key. */
  lemma BodiesKeepOtherKeys(body: Body, dates: seq<Day>, granularity: Option<string>)
    ensures forall b, k :: b in BodiesFor(body, dates, granularity) && k != StartDateKey && k != EndDateKey ==>
      (k in b <==> k in body) && (k in body ==> b[k] == body[k])
    ensures forall b :: b in BodiesFor(body, dates, granularity) ==> b.Keys == body.Keys + {StartDateKey, EndDateKey}
  {
    var bodies := BodiesFor(body, dates, granularity);
    SingleDayBodiesAt(body, dates);
    IntervalBodiesAt(body, dates);
    assert forall b :: b in bodies ==> exists s, e :: b == WithDates(body, s, e) by {
      forall b | b in bodies ensures exists s, e :: b == WithDates(body, s, e) {
        var i :| 0 <= i < |bodies| && bodies[i] == b;
        if UsesIntervals(granularity) {
          assert b == WithDates(body, dates[i], dates[i + 1] - 1);
        } else {
          assert b == WithDates(body, dates[i], dates[i]);
        }
      }
    }
  }

  /** The caller's dict after the loops of `create_body_list`: the last body
      copied, or the dict itself when none was. */
  function LastMade(body: Body, made: seq<Body>): Body
  {
    if |made| == 0 then body else made[|made| - 1]
  }

  /** `create_body_list` leaves the caller's dict asking for the last window,
      so a second call with the same dict starts from that window instead of
      the range the user gave. */
  lemma LastWindow(body: Body, ds: seq<Day>, granularity: Option<string>)
    ensures var last := LastMade(body, BodiesFor(body, ds, granularity));
      && (UsesIntervals(granularity) && |ds| >= 2 ==> Span(last) == Some((ds[|ds| - 2], ds[|ds| - 1] - 1)))
      && (!UsesIntervals(granularity) && |ds| >= 1 ==> Span(last) == Some((ds[|ds| - 1], ds[|ds| - 1])))
      && (UsesIntervals(granularity) && |ds| < 2 ==> last == body)
      && (!UsesIntervals(granularity) && |ds| == 0 ==> last == body)
  {
    var made := BodiesFor(body, ds, granularity);
    if UsesIntervals(granularity) {
      IntervalWindows(body, ds);
      if |ds| >= 2 {
        assert Span(made[|made| - 1]) == Some((ds[|ds| - 2], ds[|ds| - 1] - 1));
      }
    } else {
      SingleDayWindows(body, ds);
      if |ds| >= 1 {
        assert Span(made[|made| - 1]) == Some((ds[|ds| - 1], ds[|ds| - 1]));
      }
    }
  }

  /** `create_body_list(body, new_body, granularity)`. The caller's dict is
      updated in place: `updated` is its new value. `today` is the clock that
      `create_date_range` reads. */
  method CreateBodyList(body: Body, newBody: BodyList, granularity: Option<string>, today: Day)
    returns (updated: Body, r: Result<seq<Body>>)
    modifies newBody
    ensures var dates := DateRangeSpec(None, DateArgOf(body, StartDateKey), DateArgOf(body, EndDateKey),
                                       granularity, today);
      match dates
      case Fails(f) => r == Raised(f) && updated == body && newBody.items == old(newBody.items)
      case NoList => r == Raised(TypeError) && updated == body && newBody.items == old(newBody.items)
      case Days(ds) =>
        var made := BodiesFor(body, ds, granularity);
        && newBody.items == old(newBody.items) + made
        && r == Ok(newBody.items)
        && updated == LastMade(body, made)
  {
    var dates := CreateDateRange(None, DateArgOf(body, StartDateKey), DateArgOf(body, EndDateKey),
                                 granularity, today);
    updated := body;
    if dates.Fails? {
      return body, Raised(dates.failure);
    }
    if dates.NoList? {
      return body, Raised(TypeError);
    }
    var ds := dates.days;
    if UsesIntervals(granularity) {
      updated := AppendIntervalBodies(body, ds, newBody);
    } else {
      updated := AppendSingleDayBodies(body, ds, newBody);
    }
    r := Ok(newBody.items);
  }

  /** The loop of lines 43-60: `updated` is the caller's dict after it. */
  method AppendIntervalBodies(body: Body, ds: seq<Day>, newBody: BodyList) returns (updated: Body)
    modifies newBody
    ensures var made := IntervalBodies(body, ds);
      && newBody.items == old(newBody.items) + made
      && updated == if |made| == 0 then body else made[|made| - 1]
  {
    updated := body;
    for idx := 0 to |ds|
      invariant newBody.items ==
        old(newBody.items) + IntervalBodies(body, ds[..if idx < |ds| then idx + 1 else |ds|])
      invariant var made := IntervalBodies(body, ds[..if idx < |ds| then idx + 1 else |ds|]);
        updated == if |made| == 0 then body else made[|made| - 1]
    {
      if idx + 1 < |ds| {
        // dates[idx + 1] exists; for the last index Python's IndexError is swallowed
        if idx > 0 {
          IntervalBodiesAt(body, ds[..idx + 1]);
          WithDatesTwice(body, ds[idx - 1], ds[idx] - 1, ds[idx], ds[idx + 1] - 1);
        }
        updated := WithDates(updated, ds[idx], ds[idx + 1] - 1);
        newBody.items := newBody.items + [updated];
        var prefix := ds[..idx + 2];
        assert prefix[..|prefix| - 1] == ds[..idx + 1];
        assert prefix[|prefix| - 2] == ds[idx] && prefix[|prefix| - 1] == ds[idx + 1];
      }
    }
    assert ds[..|ds|] == ds;
  }

  /** The loops of lines 31-40 and 62-64: `updated` is the caller's dict after them. */
  method AppendSingleDayBodies(body: Body, ds: seq<Day>, newBody: BodyList) returns (updated: Body)
    modifies newBody
    ensures var made := SingleDayBodies(body, ds);
      && newBody.items == old(newBody.items) + made
      && updated == if |made| == 0 then body else made[|made| - 1]
  {
    updated := body;
    for idx := 0 to |ds|
      invariant newBody.items == old(newBody.items) + SingleDayBodies(body, ds[..idx])
      invariant updated == if idx == 0 then body else WithDates(body, ds[idx - 1], ds[idx - 1])
    {
      if idx > 0 {
        WithDatesTwice(body, ds[idx - 1], ds[idx - 1], ds[idx], ds[idx]);
      }
      updated := WithDates(updated, ds[idx], ds[idx]);
      newBody.items := newBody.items + [updated];
      var prefix := ds[..idx + 1];
      assert prefix[..idx] == ds[..idx] && prefix[idx] == ds[idx];
    }
    assert ds[..|ds|] == ds;
    SingleDayBodiesAt(body, ds);
  }

  /** How one call of a wrapped method ends. */
  datatype Attempt<+R> = Returned(value: R) | Threw(failure: Failure)

  /** What `run_query` does, in order. */
  datatype Step = Call | AskToRegenerate | Reauthenticate | Abort

  datatype Wrapped<+R> = Wrapped(outcome: Attempt<R>, steps: seq<Step>)

  /** `regenerate_credentials(method)(...)`: `first` is how the first call ends,
      `confirm` the answer to "do you want to regenerate them?", `second` how
      the repeated call ends (consulted only when it happens). */
  function RegenerateCredentials<R>(first: Attempt<R>, confirm: bool, second: Attempt<R>): (w: Wrapped<R>)
    ensures first != Threw(RefreshError) ==> w.outcome == first && w.steps == [Call]
    ensures first == Threw(RefreshError) && confirm ==>
      w.outcome == second && w.steps == [Call, AskToRegenerate, Reauthenticate, Call]
    ensures first == Threw(RefreshError) && !confirm ==>
      w.outcome == Threw(ExitAborted) && w.steps == [Call, AskToRegenerate, Abort]
    ensures multiset(w.steps)[Call] <= 2 && multiset(w.steps)[Reauthenticate] <= 1
    ensures (multiset(w.steps)[AskToRegenerate] == 1) <==> first == Threw(RefreshError)
  {
    if first != Threw(RefreshError) then Wrapped(first, [Call])
    else if confirm then Wrapped(second, [Call, AskToRegenerate, Reauthenticate, Call])
    else Wrapped(Threw(ExitAborted), [Call, AskToRegenerate, Abort])
  }
}
