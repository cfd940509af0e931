/**
 * The load-testing client: the request URL it builds, how one request's
 * outcome is classified, the counters `record_result` keeps, and the error
 * tally and verdict `print_results` reports. The HTTP transport, the clock
 * and the concurrent user loops are left out; what a request answered (a
 * status code, or the text of the exception raised) is a parameter.
 */
module LoadTest {
  import opened Wrappers
  import opened Errors
  import opened Text

  const DefaultBaseUrl := "http://localhost:8000/api/v1"

  /** The outcome `make_request` returns. */
  datatype RequestResult = RequestResult(
    success: bool,
    statusCode: Option<int>,
    responseTime: real,
    endpoint: string,
    error: Option<string>)

  /** What the transport gave back: a status code, or the text of the exception it raised. */
  type Transport = Result<int, string>

  /** A status counts as a success exactly in the 2xx and 3xx ranges. */
  predicate IsSuccessStatus(status: int) {
    200 <= status < 400
  }

  /**
   * `make_request`: GET and POST (in any letter case) go to the transport;
   * any other method fails like an exception would, with no status code.
   */
  function MakeRequest(endpoint: string, httpMethod: string, transport: Transport, elapsed: real): (r: RequestResult)
    ensures r.endpoint == endpoint && r.responseTime == elapsed
    ensures r.success <==> r.statusCode.Some? && IsSuccessStatus(r.statusCode.value)
    ensures r.error.Some? <==> r.statusCode.None?
    ensures Upper(httpMethod) != "GET" && Upper(httpMethod) != "POST" ==>
              r == RequestResult(false, None, elapsed, endpoint, Some("Unsupported method: " + httpMethod))
  {
    var outcome: Transport :=
      if Upper(httpMethod) == "GET" || Upper(httpMethod) == "POST" then transport
      else Err("Unsupported method: " + httpMethod);
    match outcome
    case Ok(status) => RequestResult(IsSuccessStatus(status), Some(status), elapsed, endpoint, None)
    case Err(text) => RequestResult(false, None, elapsed, endpoint, Some(text))
  }

  /** A request that got an error status is a failure that carries no error text. */
  lemma ErrorStatusHasNoText(endpoint: string, httpMethod: string, status: int, elapsed: real)
    requires Upper(httpMethod) == "GET" && !IsSuccessStatus(status)
    ensures var r := MakeRequest(endpoint, httpMethod, Ok(status), elapsed);
            !r.success && r.statusCode == Some(status) && r.error.None?
  {
  }

  /** Where the parts of `a + "/" + b` sit. */
  lemma SlashJoin(a: string, b: string)
    ensures (a + "/" + b)[..|a|] == a && (a + "/" + b)[|a|] == '/' && (a + "/" + b)[|a| + 1..] == b
  {
    var url := a + "/" + b;
    assert url == a + ("/" + b);
    assert url[|a| + 1..] == ("/" + b)[1..];
  }

  class LoadTester {
    const baseUrl: string
    const concurrentUsers: int
    const testDuration: int
    var totalRequests: nat
    var successfulRequests: nat
    var failedRequests: nat
    var responseTimes: seq<real>
    var errors: seq<Option<string>>

    /** The bookkeeping `record_result` keeps consistent. */
    ghost predicate Valid()
      reads this
    {
      && totalRequests == successfulRequests + failedRequests
      && |responseTimes| == totalRequests
      && |errors| == failedRequests
    }

    /** `LoadTester(base_url, concurrent_users, test_duration)`: trailing slashes are dropped from the base. */
    constructor (baseUrl: string, concurrentUsers: int, testDuration: int)
      ensures Valid()
      ensures this.baseUrl == RStripChar(baseUrl, '/')
      ensures this.concurrentUsers == concurrentUsers && this.testDuration == testDuration
      ensures totalRequests == 0 && responseTimes == [] && errors == []
    {
      this.baseUrl := RStripChar(baseUrl, '/');
      this.concurrentUsers := concurrentUsers;
      this.testDuration := testDuration;
      totalRequests := 0;
      successfulRequests := 0;
      failedRequests := 0;
      responseTimes := [];
      errors := [];
    }

    /** The URL `make_request` targets. */
    function RequestUrl(endpoint: string): (url: string)
    {
      baseUrl + "/" + LStripChar(endpoint, '/')
    }

    /**
     * The URL is the base, then exactly one slash, then the endpoint without
     * its leading slashes: the base never ends in a slash and the endpoint
     * part never starts with one.
     */
    lemma RequestUrlJoin(base: string, endpoint: string)
      requires baseUrl == RStripChar(base, '/')
      ensures var url := RequestUrl(endpoint);
              && url[..|baseUrl|] == baseUrl && url[|baseUrl|] == '/'
              && (|baseUrl| > 0 ==> url[|baseUrl| - 1] != '/')
              && url[|baseUrl| + 1..] == LStripChar(endpoint, '/')
              && (|url| > |baseUrl| + 1 ==> url[|baseUrl| + 1] != '/')
              && base == baseUrl + base[|baseUrl|..]
    {
      var e := LStripChar(endpoint, '/');
      SlashJoin(baseUrl, e);
      assert base == baseUrl + base[|baseUrl|..];
    }

    /** `record_result`: one more request, counted as a success or as a failure with its error. */
    method RecordResult(result: RequestResult)
      requires Valid()
      modifies this
      ensures Valid()
      ensures totalRequests == old(totalRequests) + 1
      ensures result.success ==> successfulRequests == old(successfulRequests) + 1 && failedRequests == old(failedRequests)
      ensures !result.success ==> failedRequests == old(failedRequests) + 1 && successfulRequests == old(successfulRequests)
      ensures responseTimes == old(responseTimes) + [result.responseTime]
      ensures errors == if result.success then old(errors) else old(errors) + [result.error]
    {
      totalRequests := totalRequests + 1;
      if result.success {
        successfulRequests := successfulRequests + 1;
      } else {
        failedRequests := failedRequests + 1;
        errors := errors + [result.error];
      }
      responseTimes := responseTimes + [result.responseTime];
    }

    /**
     * `print_results`, its computed parts: the success rate divides by the
     * number of requests, then the five most frequent errors are listed (with
     * `None` written as "None", see `ErrorLinesAsWritten`), then the verdict.
     */
    method PrintResults() returns (r: Result<Report, Exc>)
      requires Valid()
      ensures r == ReportOf(successfulRequests, totalRequests, errors)
    {
      if totalRequests == 0 {
        return Err(DivisionByZero);
      }
      var lines: seq<string> := [];
      if errors != [] {
        var counts := TallyErrors(errors);
        lines := ErrorLines(TopErrors(counts));
      }
      var verdict := VerdictOf(successfulRequests, totalRequests);
      r := Ok(Report(lines, verdict.value));
    }
  }

  // ---------------------------------------------------------------------------
  // The error tally: a dict from error to count, in first-seen order.
  // ---------------------------------------------------------------------------

  type ErrorCount = (Option<string>, nat)

  function Keys(counts: seq<ErrorCount>): (r: seq<Option<string>>)
    ensures |r| == |counts|
    ensures forall i :: 0 <= i < |counts| ==> r[i] == counts[i].0
  {
    seq(|counts|, i requires 0 <= i < |counts| => counts[i].0)
  }

  /** `error_counts[error] = error_counts.get(error, 0) + 1`. */
  function Bump(counts: seq<ErrorCount>, error: Option<string>): (r: seq<ErrorCount>)
  {
    if error in Keys(counts) then
      seq(|counts|, i requires 0 <= i < |counts| => if counts[i].0 == error then (error, counts[i].1 + 1) else counts[i])
    else counts + [(error, 1)]
  }

  /** The dict the tally loop builds from the first `|errors|` errors. */
  function Tally(errors: seq<Option<string>>): seq<ErrorCount> {
    if errors == [] then [] else Bump(Tally(errors[..|errors| - 1]), errors[|errors| - 1])
  }

  /** The tally loop of `print_results`. */
  method TallyErrors(errors: seq<Option<string>>) returns (counts: seq<ErrorCount>)
    ensures counts == Tally(errors)
  {
    counts := [];
    var i := 0;
    while i < |errors|
      invariant 0 <= i <= |errors|
      invariant counts == Tally(errors[..i])
    {
      assert errors[..i + 1][..i] == errors[..i];
      counts := Bump(counts, errors[i]);
      i := i + 1;
    }
    assert errors[..i] == errors;
  }

  /** No error is counted twice, and each one's count is the number of times it occurs. */
  ghost predicate CountsOf(counts: seq<ErrorCount>, errors: seq<Option<string>>) {
    && (forall i, j :: 0 <= i < j < |counts| ==> counts[i].0 != counts[j].0)
    && (forall i :: 0 <= i < |counts| ==> counts[i].1 == multiset(errors)[counts[i].0])
    && (forall e :: e in errors <==> e in Keys(counts))
  }

  lemma BumpCounts(counts: seq<ErrorCount>, errors: seq<Option<string>>, e: Option<string>)
    requires CountsOf(counts, errors)
    ensures CountsOf(Bump(counts, e), errors + [e])
  {
    assert multiset(errors + [e]) == multiset(errors) + multiset{e};
    var r := Bump(counts, e);
    if e in Keys(counts) {
      assert Keys(r) == Keys(counts);
    } else {
      assert Keys(r) == Keys(counts) + [e];
      assert multiset(errors)[e] == 0;
    }
  }

  /** The tally counts every distinct error exactly once, with its number of occurrences. */
  lemma {:induction false} TallyCounts(errors: seq<Option<string>>)
    ensures CountsOf(Tally(errors), errors)
  {
    if errors != [] {
      var init := errors[..|errors| - 1];
      TallyCounts(init);
      assert init + [errors[|errors| - 1]] == errors;
      BumpCounts(Tally(init), init, errors[|errors| - 1]);
    }
  }

  // ---------------------------------------------------------------------------
  // The five most frequent errors.
  // ---------------------------------------------------------------------------

  predicate Descending(s: seq<ErrorCount>) {
    forall i, j :: 0 <= i < j < |s| ==> s[i].1 >= s[j].1
  }

  /** Places `x` after every entry whose count is at least its own. */
  function Insert(s: seq<ErrorCount>, x: ErrorCount): seq<ErrorCount> {
    if s == [] then [x]
    else if s[0].1 >= x.1 then [s[0]] + Insert(s[1..], x)
    else [x] + s
  }

  lemma {:induction false} InsertPermutes(s: seq<ErrorCount>, x: ErrorCount)
    ensures multiset(Insert(s, x)) == multiset(s) + multiset{x}
  {
    if s != [] && s[0].1 >= x.1 {
      InsertPermutes(s[1..], x);
      assert s == [s[0]] + s[1..];
    }
  }

  lemma {:induction false} InsertKeepsOrder(s: seq<ErrorCount>, x: ErrorCount)
    requires Descending(s)
    ensures Descending(Insert(s, x))
    ensures Insert(s, x)[0] == x || (s != [] && Insert(s, x)[0] == s[0])
  {
    if s != [] && s[0].1 >= x.1 {
      InsertKeepsOrder(s[1..], x);
      var rest := Insert(s[1..], x);
      assert rest[0] == x || rest[0] == s[1];
      forall i, j | 0 <= i < j < |[s[0]] + rest|
        ensures ([s[0]] + rest)[i].1 >= ([s[0]] + rest)[j].1
      {
        if i == 0 {
          assert ([s[0]] + rest)[j] == rest[j - 1];
          assert rest[0].1 >= rest[j - 1].1;
        }
      }
    }
  }

  /** `sorted(counts, key=count, reverse=True)`. */
  function SortDescending(s: seq<ErrorCount>): seq<ErrorCount> {
    if s == [] then [] else Insert(SortDescending(s[..|s| - 1]), s[|s| - 1])
  }

  /** The sort keeps every entry and orders them by descending count. */
  lemma {:induction false} SortDescendingSpec(s: seq<ErrorCount>)
    ensures multiset(SortDescending(s)) == multiset(s)
    ensures Descending(SortDescending(s))
  {
    if s != [] {
      var init := s[..|s| - 1];
      SortDescendingSpec(init);
      var last := s[|s| - 1];
      InsertPermutes(SortDescending(init), last);
      InsertKeepsOrder(SortDescending(init), last);
      assert s == init + [last];
      assert multiset(s) == multiset(init) + multiset{last};
      assert SortDescending(s) == Insert(SortDescending(init), last);
    }
  }

  /** The first five of the sorted tally. */
  function TopErrors(counts: seq<ErrorCount>): seq<ErrorCount> {
    var sorted := SortDescending(counts);
    if |sorted| <= 5 then sorted else sorted[..5]
  }

  /**
   * At most five entries, all from the tally, by descending count; every
   * entry left out has a count no larger than the last one listed.
   */
  lemma TopErrorsSpec(counts: seq<ErrorCount>)
    ensures var top := TopErrors(counts);
            && |top| == (if |counts| <= 5 then |counts| else 5)
            && Descending(top)
            && (forall x :: x in top ==> x in counts)
            && (forall x :: x in counts && x !in top ==> x.1 <= top[|top| - 1].1)
  {
    var sorted := SortDescending(counts);
    SortDescendingSpec(counts);
    assert |sorted| == |multiset(sorted)| == |counts|;
    forall x | x in counts
      ensures x in sorted
    {
      assert x in multiset(counts);
    }
    forall x | x in sorted
      ensures x in counts
    {
      assert x in multiset(sorted);
    }
    if |sorted| > 5 {
      forall x | x in sorted && x !in sorted[..5]
        ensures x.1 <= sorted[4].1
      {
        var k :| 0 <= k < |sorted| && sorted[k] == x;
      }
    }
  }

  // ---------------------------------------------------------------------------
  // The printed error lines, and the verdict.
  // ---------------------------------------------------------------------------

  /** `s[:100]`. */
  function Prefix100(s: string): (r: string)
    ensures |r| <= 100 && |r| <= |s| && r == s[..|r|]
    ensures |s| <= 100 ==> r == s
  {
    if |s| <= 100 then s else s[..100]
  }

  /**
   * `f"  {count}x: {error[:100]}..."` as the source has it: an error recorded
   * as `None` (a failure by status code) cannot be sliced.
   */
  function ErrorLinesAsWritten(top: seq<ErrorCount>): (r: Result<seq<string>, Exc>)
    ensures r.Err? <==> exists i :: 0 <= i < |top| && top[i].0.None?
  {
    if top == [] then Ok([])
    else if top[0].0.None? then Err(TypeError("'NoneType' object is not subscriptable"))
    else
      var rest := ErrorLinesAsWritten(top[1..]);
      assert forall i :: 1 <= i < |top| ==> top[i] == top[1..][i - 1];
      if rest.Err? then rest
      else Ok(["  " + NatToString(top[0].1) + "x: " + Prefix100(top[0].0.value) + "..."] + rest.value)
  }

  /** The text of an error as printed: its first 100 characters, `None` as "None". */
  function ErrorText(error: Option<string>): string {
    if error.Some? then Prefix100(error.value) else "None"
  }

  /** One line per listed error, in order: its count, then its text. */
  function ErrorLines(top: seq<ErrorCount>): (r: seq<string>)
    ensures |r| == |top|
    ensures forall i :: 0 <= i < |top| ==> r[i] == "  " + NatToString(top[i].1) + "x: " + ErrorText(top[i].0) + "..."
  {
    seq(|top|, i requires 0 <= i < |top| => "  " + NatToString(top[i].1) + "x: " + ErrorText(top[i].0) + "...")
  }

  /** Where no listed error is `None`, the two agree. */
  lemma {:induction false} ErrorLinesAgree(top: seq<ErrorCount>)
    requires forall i :: 0 <= i < |top| ==> top[i].0.Some?
    ensures ErrorLinesAsWritten(top) == Ok(ErrorLines(top))
  {
    if top != [] {
      var tail := top[1..];
      assert forall i :: 0 <= i < |tail| ==> tail[i] == top[i + 1];
      ErrorLinesAgree(tail);
      var first := "  " + NatToString(top[0].1) + "x: " + Prefix100(top[0].0.value) + "...";
      var lines := [first] + ErrorLines(tail);
      assert forall i :: 0 <= i < |top| ==> lines[i] == ErrorLines(top)[i];
      assert lines == ErrorLines(top);
      assert ErrorLinesAsWritten(top) == Ok(lines);
    }
  }

  /**
   * One request that failed with status 500 is enough: its `None` error is
   * the only one tallied, so it is listed, and printing the list raises.
   */
  lemma NoneErrorBreaksReport()
    ensures ErrorLinesAsWritten(TopErrors(Tally([None]))) == Err(TypeError("'NoneType' object is not subscriptable"))
    ensures ErrorLines(TopErrors(Tally([None]))) == ["  " + "1" + "x: " + "None" + "..."]
  {
    TopOfOneNone();
    var single: seq<ErrorCount> := [(None, 1)];
    assert ErrorLinesAsWritten(single) == Err(TypeError("'NoneType' object is not subscriptable"));
    assert NatToString(1) == "1";
    var lines := ErrorLines(single);
    assert lines == [lines[0]];
  }

  /** One failed request without an error text is the whole top list. */
  lemma TopOfOneNone()
    ensures TopErrors(Tally([None])) == [(None, 1)]
  {
    TallyOfOneNone();
    var single: seq<ErrorCount> := [(None, 1)];
    assert single[..0] == [];
    assert SortDescending(single) == single;
  }

  lemma TallyOfOneNone()
    ensures Tally([None]) == [(None, 1)]
  {
    var errors: seq<Option<string>> := [None];
    assert errors[..0] == [];
    var none: seq<ErrorCount> := [];
    assert Tally(errors) == Bump(none, None);
  }

  datatype Verdict = Passed | Acceptable | Warning | Failed

  const DivisionByZero := ZeroDivisionError("division by zero")

  /**
   * The verdict on the success rate `100 * successful / total`, compared by
   * cross-multiplication: at least 95 passes, 90 is acceptable, 80 a warning.
   */
  function VerdictOf(successful: nat, total: nat): (r: Result<Verdict, Exc>)
    ensures total == 0 <==> r == Err(DivisionByZero)
  {
    if total == 0 then Err(DivisionByZero)
    else if successful * 100 >= 95 * total then Ok(Passed)
    else if successful * 100 >= 90 * total then Ok(Acceptable)
    else if successful * 100 >= 80 * total then Ok(Warning)
    else Ok(Failed)
  }

  function Rank(v: Verdict): nat {
    match v
    case Failed => 0
    case Warning => 1
    case Acceptable => 2
    case Passed => 3
  }

  /** More successes out of the same total never give a worse verdict; all successes pass, none fail. */
  lemma VerdictMonotone(a: nat, b: nat, total: nat)
    requires a <= b && total > 0
    ensures Rank(VerdictOf(a, total).value) <= Rank(VerdictOf(b, total).value)
    ensures VerdictOf(total, total) == Ok(Passed)
    ensures VerdictOf(0, total) == Ok(Failed)
  {
  }

  /** What `print_results` computes besides its timings: the error lines and the verdict. */
  datatype Report = Report(errorLines: seq<string>, verdict: Verdict)

  function ReportOf(successful: nat, total: nat, errors: seq<Option<string>>): (r: Result<Report, Exc>)
    ensures total == 0 ==> r == Err(DivisionByZero)
    ensures total > 0 ==> r.Ok? && r.value.verdict == VerdictOf(successful, total).value
  {
    if total == 0 then Err(DivisionByZero)
    else Ok(Report(if errors == [] then [] else ErrorLines(TopErrors(Tally(errors))), VerdictOf(successful, total).value))
  }
}
