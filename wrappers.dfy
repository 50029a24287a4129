// Optional values and the exceptions of the seoman core that the model
// keeps track of.

module Wrappers {

  datatype Option<+T> = None | Some(value: T)

  /** The Python exceptions and exits that leave the core's functions. */
  datatype Failure =
    | IndexError           // `dates[0]` on an empty list
    | UnboundLocalError    // `day_interval` read before assignment
    | TypeError            // `len(None)` / iterating over `None`
    | ValueError           // `strptime` on a text that is not YYYY-MM-DD, `range` with step 0
    | KeyError             // a missing dictionary key that is not caught
    | AttributeError       // `.split()` or `.items()` on a value that has no such method
    | ExitBadRange         // `sys.exit()` after "problem with your start and end date"
    | ExitTooCoarse        // `sys.exit()` after "date range ... smaller than your frequency"
    | ExitEmptyResults     // `sys.exit()` after "Results are empty"
    | ExitNoHeaders        // `sys.exit()` after "An error occured please check your query"
    | ExitAborted          // `exit()` after declining to regenerate credentials
    | RefreshError         // expired credentials, raised by the remote service

  datatype Result<+T> = Ok(value: T) | Raised(failure: Failure)

  /** A list comprehension whose element expression may raise: the results
      of `parse` on every item, or the exception of the first item it fails
      on. */
  function MapResult<T, U>(items: seq<T>, parse: T -> Result<U>): (r: Result<seq<U>>)
    ensures r.Ok? <==> forall i :: 0 <= i < |items| ==> parse(items[i]).Ok?
    ensures r.Ok? ==> |r.value| == |items| && forall i :: 0 <= i < |items| ==> parse(items[i]) == Ok(r.value[i])
    ensures r.Raised? ==> exists i :: (0 <= i < |items| && parse(items[i]) == Raised(r.failure)
      && forall j :: 0 <= j < i ==> parse(items[j]).Ok?)
    decreases |items|
  {
    if |items| == 0 then Ok([])
    else
      var head := parse(items[0]);
      if head.Raised? then Raised(head.failure)
      else
        var rest := MapResult(items[1..], parse);
        assert forall i :: 1 <= i < |items| ==> items[i] == items[1..][i - 1];
        if rest.Raised? then
          assert exists i :: (1 <= i < |items| && parse(items[i]) == Raised(rest.failure)
            && forall j :: 0 <= j < i ==> parse(items[j]).Ok?) by {
            var k :| 0 <= k < |items[1..]| && parse(items[1..][k]) == Raised(rest.failure)
              && forall j :: 0 <= j < k ==> parse(items[1..][j]).Ok?;
            assert items[1..][k] == items[k + 1];
          }
          Raised(rest.failure)
        else
          var all := [head.value] + rest.value;
          assert forall i :: 1 <= i < |items| ==> all[i] == rest.value[i - 1];
          Ok(all)
  }
}
