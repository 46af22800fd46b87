/** The shared behaviour of every dashboard component (src/components/base.js):
    the retry policy of `fetchWithRetry` and the found/not-found results of
    `setHTML` and `setText`. The shadow DOM is a map from the selectors that
    match an element to that element's content; fetch outcomes are given per
    attempt, and waits are returned rather than slept. */
module BaseComponent {
  import opened Common

  /** What one `fetch` call gives: a thrown error, or a response. */
  datatype FetchOutcome =
    | Threw(message: string)
    | Answered(ok: bool, status: nat, statusText: string)

  /** The message of the error an attempt fails with, if it fails. */
  function FailureText(o: FetchOutcome): string {
    match o
    case Threw(m) => m
    case Answered(_, status, text) => "HTTP " + NatToString(status) + ": " + text
  }

  predicate Succeeds(o: FetchOutcome) {
    o.Answered? && o.ok
  }

  /** The outcome of a `fetchWithRetry` call: the response or the thrown message,
      the waits between attempts, the transient notices shown, and the number of
      attempts made. */
  datatype Retried = Retried(result: Result<FetchOutcome, string>, waits: seq<int>, notices: seq<string>, attempts: nat)

  /** `fetchWithRetry(url, options, retryCount)`, where `attempt(k)` is the
      outcome of the fetch made when the retry count is `k`. */
  function Retry(attempt: nat -> FetchOutcome, retryCount: nat, maxRetries: nat, retryDelay: int): (r: Retried)
    ensures r.attempts >= 1 && |r.waits| == |r.notices| == r.attempts - 1
    decreases if retryCount < maxRetries then maxRetries - retryCount else 0
  {
    var o := attempt(retryCount);
    if Succeeds(o) then Retried(Ok(o), [], [], 1)
    else if retryCount < maxRetries then
      var rest := Retry(attempt, retryCount + 1, maxRetries, retryDelay);
      Retried(rest.result, [retryDelay * (retryCount + 1)] + rest.waits,
              ["Connection issue. Retrying... (" + NatToString(retryCount + 1) + "/" + NatToString(maxRetries) + ")"] + rest.notices,
              rest.attempts + 1)
    else Retried(Err("Failed after " + NatToString(maxRetries) + " attempts: " + FailureText(o)), [], [], 1)
  }

  /** The attempts are those numbered `retryCount` onward; at most
      `maxRetries - retryCount + 1` of them when `retryCount <= maxRetries`, and
      a single one otherwise. The wait before the retry numbered `k` is
      `retryDelay * k`: linear, not exponential. */
  lemma {:induction false} RetrySchedule(attempt: nat -> FetchOutcome, retryCount: nat, maxRetries: nat, retryDelay: int)
    ensures var r := Retry(attempt, retryCount, maxRetries, retryDelay);
      (retryCount <= maxRetries ==> r.attempts <= maxRetries - retryCount + 1) &&
      (retryCount > maxRetries ==> r.attempts == 1) &&
      forall k :: 0 <= k < |r.waits| ==> r.waits[k] == retryDelay * (retryCount + k + 1)
    decreases if retryCount < maxRetries then maxRetries - retryCount else 0
  {
    var o := attempt(retryCount);
    if !Succeeds(o) && retryCount < maxRetries {
      var rest := Retry(attempt, retryCount + 1, maxRetries, retryDelay);
      RetrySchedule(attempt, retryCount + 1, maxRetries, retryDelay);
      var r := Retry(attempt, retryCount, maxRetries, retryDelay);
      assert r.waits == [retryDelay * (retryCount + 1)] + rest.waits;
      forall k | 0 <= k < |r.waits| ensures r.waits[k] == retryDelay * (retryCount + k + 1) {
        if k > 0 {
          assert r.waits[k] == rest.waits[k - 1];
        }
      }
    }
  }

  /** The call succeeds iff some attempt within the budget succeeds, and then it
      returns the first successful response after exactly that many attempts. */
  lemma {:induction false} RetryFindsFirstSuccess(attempt: nat -> FetchOutcome, retryCount: nat, maxRetries: nat, retryDelay: int, j: nat)
    requires retryCount <= j && (j <= maxRetries || j == retryCount)
    requires Succeeds(attempt(j))
    requires forall k :: retryCount <= k < j ==> !Succeeds(attempt(k))
    ensures Retry(attempt, retryCount, maxRetries, retryDelay).result == Ok(attempt(j))
    ensures Retry(attempt, retryCount, maxRetries, retryDelay).attempts == j - retryCount + 1
    decreases j - retryCount
  {
    if j > retryCount {
      RetryFindsFirstSuccess(attempt, retryCount + 1, maxRetries, retryDelay, j);
    }
  }

  /** When every attempt within the budget fails, the call throws
      "Failed after <maxRetries> attempts: <last error>" after all of them. */
  lemma {:induction false} RetryExhausted(attempt: nat -> FetchOutcome, retryCount: nat, maxRetries: nat, retryDelay: int)
    requires retryCount <= maxRetries
    requires forall k :: retryCount <= k <= maxRetries ==> !Succeeds(attempt(k))
    ensures var r := Retry(attempt, retryCount, maxRetries, retryDelay);
      r.result == Err("Failed after " + NatToString(maxRetries) + " attempts: " + FailureText(attempt(maxRetries))) &&
      r.attempts == maxRetries - retryCount + 1
    decreases maxRetries - retryCount
  {
    if retryCount < maxRetries {
      RetryExhausted(attempt, retryCount + 1, maxRetries, retryDelay);
    }
  }

  /** A thrown result means no attempt within the budget succeeded. */
  lemma {:induction false} RetryErrMeansAllFailed(attempt: nat -> FetchOutcome, retryCount: nat, maxRetries: nat, retryDelay: int)
    requires Retry(attempt, retryCount, maxRetries, retryDelay).result.Err?
    ensures forall k :: retryCount <= k <= maxRetries ==> !Succeeds(attempt(k))
    ensures !Succeeds(attempt(retryCount))
    decreases if retryCount < maxRetries then maxRetries - retryCount else 0
  {
    if retryCount < maxRetries {
      RetryErrMeansAllFailed(attempt, retryCount + 1, maxRetries, retryDelay);
    }
  }

  /** The words of the box `showError(message)` puts in place of the shadow
      root's content. The component models record the message passed; the box
      reads this text. */
  function ErrorText(message: string): (text: string)
    ensures IsPrefix("Error: ", text) && text[7..] == message
    ensures |text| == |message| + 7
  {
    "Error: " + message
  }

  /** The element content a selector reaches. */
  datatype Content = Html(markup: string) | Text(text: string)

  class DashboardComponent {
    var retryAttempts: int
    var maxRetries: nat
    var retryDelay: int
    /** The content of the element each matching selector reaches. */
    var elements: map<string, Content>

    constructor(elements: map<string, Content>)
      ensures retryAttempts == 0 && maxRetries == 3 && retryDelay == 5000
      ensures this.elements == elements
    {
      retryAttempts := 0;
      maxRetries := 3;
      retryDelay := 5000;
      this.elements := elements;
    }

    /** True iff the selector matched; only then is that element's markup replaced. */
    method SetHTML(selector: string, html: string) returns (found: bool)
      modifies this
      ensures found <==> selector in old(elements)
      ensures elements == if found then old(elements)[selector := Html(html)] else old(elements)
      ensures retryAttempts == old(retryAttempts) && maxRetries == old(maxRetries) && retryDelay == old(retryDelay)
    {
      if selector in elements {
        elements := elements[selector := Html(html)];
        return true;
      }
      return false;
    }

    /** True iff the selector matched; only then is that element's text replaced. */
    method SetText(selector: string, text: string) returns (found: bool)
      modifies this
      ensures found <==> selector in old(elements)
      ensures elements == if found then old(elements)[selector := Text(text)] else old(elements)
      ensures retryAttempts == old(retryAttempts) && maxRetries == old(maxRetries) && retryDelay == old(retryDelay)
    {
      if selector in elements {
        elements := elements[selector := Text(text)];
        return true;
      }
      return false;
    }

    /** One call of `fetchWithRetry`; a success resets `retryAttempts`. */
    method FetchWithRetry(url: string, attempt: nat -> FetchOutcome, retryCount: nat) returns (r: Retried)
      modifies this
      ensures r == Retry(attempt, retryCount, maxRetries, retryDelay)
      ensures retryAttempts == if r.result.Ok? then 0 else old(retryAttempts)
      ensures maxRetries == old(maxRetries) && retryDelay == old(retryDelay) && elements == old(elements)
      decreases if retryCount < maxRetries then maxRetries - retryCount else 0
    {
      var response := attempt(retryCount);
      if Succeeds(response) {
        retryAttempts := 0;
        return Retried(Ok(response), [], [], 1);
      }
      if retryCount < maxRetries {
        var notice := "Connection issue. Retrying... (" + NatToString(retryCount + 1) + "/" + NatToString(maxRetries) + ")";
        var wait := retryDelay * (retryCount + 1);
        var rest := FetchWithRetry(url, attempt, retryCount + 1);
        return Retried(rest.result, [wait] + rest.waits, [notice] + rest.notices, rest.attempts + 1);
      }
      return Retried(Err("Failed after " + NatToString(maxRetries) + " attempts: " + FailureText(response)), [], [], 1);
    }
  }

  /** With the defaults and a call starting from 0, four attempts are made, the
      waits are 5 s, 10 s and 15 s, and the message names 3 attempts. */
  lemma DefaultBudget(attempt: nat -> FetchOutcome)
    requires forall k :: 0 <= k <= 3 ==> !Succeeds(attempt(k))
    ensures var r := Retry(attempt, 0, 3, 5000);
      r.attempts == 4 && r.waits == [5000, 10000, 15000] &&
      r.result == Err("Failed after 3 attempts: " + FailureText(attempt(3)))
  {
    RetryExhausted(attempt, 0, 3, 5000);
    RetrySchedule(attempt, 0, 3, 5000);
    var r := Retry(attempt, 0, 3, 5000);
    assert |r.waits| == 3;
    assert r.waits[0] == 5000 && r.waits[1] == 10000 && r.waits[2] == 15000;
    assert NatToString(3) == "3";
    assert "Failed after " + NatToString(3) + " attempts: " == "Failed after 3 attempts: ";
  }
}
