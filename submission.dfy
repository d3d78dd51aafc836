/**
  The submission run: after confirmation, one security token and one header
  set are prepared and one date is taken; then each group, in grouping order,
  is built, posted, and either saved to the warehouse and recorded as
  SUCCESS (status 201) or recorded as FAILED with the response text.

  The network and the warehouse are inputs and outputs here: the responses
  come in as a sequence parallel to the groups, and the run hands back the
  requests it posted and the header rows it saved, in order.
 */
module Submission {
  import opened Wrappers
  import opened Payload
  import opened Projection

  /** A group produced by the grouping on (SoldToParty, PO_Number). */
  datatype Group = Group(soldToParty: string, poNumber: string, rows: seq<Row>)

  /** A group as the grouping hands it over: non-empty, every row carrying the key. */
  ghost predicate WellFormedGroup(g: Group)
  {
    && |g.rows| > 0
    && forall i :: 0 <= i < |g.rows| ==>
         g.rows[i].soldToParty == g.soldToParty && g.rows[i].poNumber == g.poNumber
  }

  /**
    The ERP's answer to one POST: its status code, its body text, and the
    object under `d` of the body parsed as JSON (None when the body has no
    such object, so that `response.json()["d"]` raises).
   */
  datatype Response = Response(status: int, text: string, d: Option<map<string, string>>)

  const Created := 201

  /** The request headers, built once per run around the fetched token. */
  datatype Headers = Headers(contentType: string, accept: string, csrfToken: string)

  function RunHeaders(token: string): Headers
  {
    Headers("application/json", "application/json", token)
  }

  /** One POST: the shared headers and the group's document as JSON body. */
  datatype PostRequest = PostRequest(headers: Headers, body: SalesOrder)

  /** One row of the results table. */
  datatype ResultRecord = ResultRecord(
    soldToParty: string,
    salesOrderWithoutCharge: Option<string>,
    status: string,
    error: Option<string>)

  const Success := "SUCCESS"
  const Failed := "FAILED"

  /**
    What the run has done so far: the results table, the header rows loaded
    into the warehouse, the requests posted, and whether an exception
    stopped the run.
   */
  datatype RunState = RunState(
    results: seq<ResultRecord>,
    saved: seq<map<string, Option<string>>>,
    posted: seq<PostRequest>,
    crashed: bool)

  /**
    A response that raises in the success branch: a 201 whose body has no `d`
    object, or whose `d` lacks the order number.
   */
  predicate Raises(r: Response)
  {
    r.status == Created && (r.d.None? || OrderNumberKey !in r.d.value)
  }

  /** One pass of the loop body for group `g` answered by `r`. */
  function Step(s: RunState, g: Group, r: Response, headers: Headers, todayDate: string): RunState
    requires |g.rows| > 0
  {
    var s1 := s.(posted := s.posted + [PostRequest(headers, GroupPayload(g.rows, todayDate))]);
    if r.status == Created then
      match r.d
      case None => s1.(crashed := true)
      case Some(d) =>
        var s2 := s1.(saved := s1.saved + [HeaderRow(d)]);
        if OrderNumberKey in d then
          s2.(results := s2.results + [ResultRecord(g.soldToParty, Some(d[OrderNumberKey]), Success, None)])
        else
          s2.(crashed := true)
    else
      s1.(results := s1.results + [ResultRecord(g.soldToParty, None, Failed, Some(r.text))])
  }

  ghost predicate AllNonEmpty(groups: seq<Group>)
  {
    forall i :: 0 <= i < |groups| ==> |groups[i].rows| > 0
  }

  /** The state after the loop has run over `groups`, stopping at the first exception. */
  function Run(groups: seq<Group>, responses: seq<Response>, headers: Headers, todayDate: string): RunState
    requires |groups| == |responses| && AllNonEmpty(groups)
    decreases |groups|
  {
    if groups == [] then RunState([], [], [], false)
    else
      var n := |groups| - 1;
      var s := Run(groups[..n], responses[..n], headers, todayDate);
      if s.crashed then s else Step(s, groups[n], responses[n], headers, todayDate)
  }

  /** The result a group gets from a response that does not raise. */
  function ResultOf(g: Group, r: Response): ResultRecord
    requires !Raises(r)
  {
    if r.status == Created then ResultRecord(g.soldToParty, Some(r.d.value[OrderNumberKey]), Success, None)
    else ResultRecord(g.soldToParty, None, Failed, Some(r.text))
  }

  /** The header rows saved for a sequence of responses that do not raise: one per 201, in order. */
  function SavedRows(responses: seq<Response>): seq<map<string, Option<string>>>
    requires forall i :: 0 <= i < |responses| ==> !Raises(responses[i])
    decreases |responses|
  {
    if responses == [] then []
    else
      var n := |responses| - 1;
      assert !Raises(responses[n]);
      SavedRows(responses[..n]) + (if responses[n].status == Created then [HeaderRow(responses[n].d.value)] else [])
  }

  /** How many responses in a sequence are 201. */
  function CountCreated(responses: seq<Response>): nat
    decreases |responses|
  {
    if responses == [] then 0
    else
      var n := |responses| - 1;
      CountCreated(responses[..n]) + (if responses[n].status == Created then 1 else 0)
  }

  /** How many records of a results table say SUCCESS. */
  function CountSuccess(results: seq<ResultRecord>): nat
    decreases |results|
  {
    if results == [] then 0
    else
      var n := |results| - 1;
      CountSuccess(results[..n]) + (if results[n].status == Success then 1 else 0)
  }

  /** The order numbers of the SUCCESS records, in table order. */
  function SuccessOrders(results: seq<ResultRecord>): seq<Option<string>>
    decreases |results|
  {
    if results == [] then []
    else
      var n := |results| - 1;
      SuccessOrders(results[..n]) + (if results[n].status == Success then [results[n].salesOrderWithoutCharge] else [])
  }

  /** The order number column of each saved header row, in load order. */
  function SavedOrders(saved: seq<map<string, Option<string>>>): seq<Option<string>>
  {
    seq(|saved|, j requires 0 <= j < |saved| =>
      if OrderNumberKey in saved[j] then saved[j][OrderNumberKey] else None)
  }

  /**
    The loop of the run: for each group, build its document, post it with the
    shared headers, then on 201 save the header row and record SUCCESS, and on
    any other status record FAILED with the response text. An exception in the
    success branch ends the run.
   */
  method SubmitGroups(groups: seq<Group>, responses: seq<Response>, token: string, todayDate: string)
    returns (results: seq<ResultRecord>, saved: seq<map<string, Option<string>>>,
             posted: seq<PostRequest>, crashed: bool)
    requires |groups| == |responses| && AllNonEmpty(groups)
    ensures RunState(results, saved, posted, crashed) == Run(groups, responses, RunHeaders(token), todayDate)
  {
    var headers := RunHeaders(token);
    results, saved, posted, crashed := [], [], [], false;
    var i := 0;
    while i < |groups| && !crashed
      invariant 0 <= i <= |groups|
      invariant RunState(results, saved, posted, crashed) == Run(groups[..i], responses[..i], headers, todayDate)
    {
      ghost var before := RunState(results, saved, posted, crashed);
      RunOneMore(groups, responses, headers, todayDate, i);
      var g, response := groups[i], responses[i];
      var payload := BuildGroupPayload(g.rows, todayDate);
      posted := posted + [PostRequest(headers, payload)];
      if response.status == Created {
        if response.d.None? {
          crashed := true;
        } else {
          var d := response.d.value;
          saved := saved + [HeaderRow(d)];
          if OrderNumberKey in d {
            results := results + [ResultRecord(g.soldToParty, Some(d[OrderNumberKey]), Success, None)];
          } else {
            crashed := true;
          }
        }
      } else {
        results := results + [ResultRecord(g.soldToParty, None, Failed, Some(response.text))];
      }
      assert RunState(results, saved, posted, crashed) == Step(before, g, response, headers, todayDate);
      i := i + 1;
    }
    assert groups[..|groups|] == groups && responses[..|responses|] == responses;
    if i < |groups| {
      RunStopsAfterRaise(groups, responses, headers, todayDate, i);
    }
  }

  /** The run over one more group is one more step, unless the run had already stopped. */
  lemma RunOneMore(groups: seq<Group>, responses: seq<Response>, headers: Headers, todayDate: string, i: nat)
    requires |groups| == |responses| && AllNonEmpty(groups) && i < |groups|
    ensures var s := Run(groups[..i], responses[..i], headers, todayDate);
      Run(groups[..i + 1], responses[..i + 1], headers, todayDate)
        == if s.crashed then s else Step(s, groups[i], responses[i], headers, todayDate)
  {
    assert groups[..i + 1][..i] == groups[..i] && responses[..i + 1][..i] == responses[..i];
  }

  /** Once the run has stopped, later groups change nothing. */
  lemma {:induction false} RunStopsAfterRaise(groups: seq<Group>, responses: seq<Response>,
                                              headers: Headers, todayDate: string, k: nat)
    requires |groups| == |responses| && AllNonEmpty(groups) && k <= |groups|
    requires Run(groups[..k], responses[..k], headers, todayDate).crashed
    ensures Run(groups, responses, headers, todayDate) == Run(groups[..k], responses[..k], headers, todayDate)
    decreases |groups|
  {
    if k < |groups| {
      var n := |groups| - 1;
      assert groups[..n][..k] == groups[..k] && responses[..n][..k] == responses[..k];
      RunStopsAfterRaise(groups[..n], responses[..n], headers, todayDate, k);
    } else {
      assert groups[..k] == groups && responses[..k] == responses;
    }
  }

  /**
    A run that meets no raising response posts every group once, in order,
    with the same headers and the same date, and records exactly one result
    per group, in order: SUCCESS with the assigned order number on 201,
    FAILED with the response text otherwise.
   */
  lemma {:induction false} CompletedRunLinesUp(groups: seq<Group>, responses: seq<Response>,
                                               headers: Headers, todayDate: string)
    requires |groups| == |responses| && AllNonEmpty(groups)
    requires forall i :: 0 <= i < |responses| ==> !Raises(responses[i])
    ensures var s := Run(groups, responses, headers, todayDate);
      && !s.crashed
      && |s.results| == |groups| && |s.posted| == |groups|
      && forall i :: 0 <= i < |groups| ==>
           && s.results[i] == ResultOf(groups[i], responses[i])
           && s.posted[i] == PostRequest(headers, GroupPayload(groups[i].rows, todayDate))
    decreases |groups|
  {
    if groups != [] {
      var n := |groups| - 1;
      CompletedRunLinesUp(groups[..n], responses[..n], headers, todayDate);
    }
  }

  /**
    The results table after a completed run is the independent per-group
    mapping: status SUCCESS exactly for a 201, with the order number from
    `d` and no error; FAILED otherwise, with no order number and the
    response text as error; the customer is always the group's.
   */
  lemma StatusMapping(groups: seq<Group>, responses: seq<Response>, headers: Headers, todayDate: string, i: nat)
    requires |groups| == |responses| && AllNonEmpty(groups) && i < |groups|
    requires forall j :: 0 <= j < |responses| ==> !Raises(responses[j])
    ensures |Run(groups, responses, headers, todayDate).results| == |groups|
    ensures var r := Run(groups, responses, headers, todayDate).results[i];
      && r.soldToParty == groups[i].soldToParty
      && (responses[i].status == Created ==>
            && r.status == Success && r.error == None
            && responses[i].d.Some? && OrderNumberKey in responses[i].d.value
            && r.salesOrderWithoutCharge == Some(responses[i].d.value[OrderNumberKey]))
      && (responses[i].status != Created ==>
            r.status == Failed && r.salesOrderWithoutCharge == None && r.error == Some(responses[i].text))
  {
    CompletedRunLinesUp(groups, responses, headers, todayDate);
  }

  /**
    Persistence happens exactly on 201: a completed run saves one header
    row per 201 response, in order, projected from that response's `d`, and
    none for any other status.
   */
  lemma {:induction false} CompletedRunSavesEach201(groups: seq<Group>, responses: seq<Response>,
                                                    headers: Headers, todayDate: string)
    requires |groups| == |responses| && AllNonEmpty(groups)
    requires forall i :: 0 <= i < |responses| ==> !Raises(responses[i])
    ensures Run(groups, responses, headers, todayDate).saved == SavedRows(responses)
    ensures |SavedRows(responses)| == CountCreated(responses)
    decreases |groups|
  {
    if groups != [] {
      var n := |groups| - 1;
      CompletedRunSavesEach201(groups[..n], responses[..n], headers, todayDate);
      CompletedRunLinesUp(groups[..n], responses[..n], headers, todayDate);
    }
  }

  /**
    In every run, completed or stopped, each saved header row belongs to a
    SUCCESS record with the same order number, in the same order; only the
    run's last save may lack its record, when the exception that stopped the
    run came after it.
   */
  lemma {:induction false} SavesMatchSuccesses(groups: seq<Group>, responses: seq<Response>,
                                               headers: Headers, todayDate: string)
    requires |groups| == |responses| && AllNonEmpty(groups)
    ensures var s := Run(groups, responses, headers, todayDate);
      && CountSuccess(s.results) == |SuccessOrders(s.results)|
      && (if s.crashed && |s.saved| > CountSuccess(s.results)
          then SavedOrders(s.saved) == SuccessOrders(s.results) + [None]
          else SavedOrders(s.saved) == SuccessOrders(s.results))
    decreases |groups|
  {
    if groups != [] {
      var n := |groups| - 1;
      SavesMatchSuccesses(groups[..n], responses[..n], headers, todayDate);
      var s := Run(groups[..n], responses[..n], headers, todayDate);
      if !s.crashed {
        var t := Step(s, groups[n], responses[n], headers, todayDate);
        assert t.results[..|s.results|] == s.results;
        var r := responses[n];
        if r.status == Created && r.d.Some? {
          var d := r.d.value;
          assert SavedOrders(t.saved) == SavedOrders(s.saved) + [Get(d, OrderNumberKey)];
        } else {
          assert t.saved == s.saved;
        }
      }
    }
  }

  /**
    In every run, each request posted is group j's document under the one
    header set and the one date of the run, in group order, and at most one
    request goes out per group.
   */
  lemma {:induction false} PostsShareDateAndToken(groups: seq<Group>, responses: seq<Response>,
                                                  headers: Headers, todayDate: string)
    requires |groups| == |responses| && AllNonEmpty(groups)
    ensures var s := Run(groups, responses, headers, todayDate);
      && |s.posted| <= |groups|
      && (!s.crashed ==> |s.posted| == |groups|)
      && forall j :: 0 <= j < |s.posted| ==>
           && s.posted[j] == PostRequest(headers, GroupPayload(groups[j].rows, todayDate))
           && s.posted[j].headers.csrfToken == headers.csrfToken
           && s.posted[j].body.salesOrderWithoutChargeDate == todayDate
           && s.posted[j].body.requestedDeliveryDate == todayDate
    decreases |groups|
  {
    if groups != [] {
      var n := |groups| - 1;
      PostsShareDateAndToken(groups[..n], responses[..n], headers, todayDate);
      assert forall j :: 0 <= j < n ==> groups[..n][j] == groups[j];
    }
  }

  /**
    A response that raises stops the run at its group: that group's request
    has gone out, but it gets no result and no later group is posted.
   */
  lemma StopsAtFirstRaise(groups: seq<Group>, responses: seq<Response>,
                          headers: Headers, todayDate: string, k: nat)
    requires |groups| == |responses| && AllNonEmpty(groups) && k < |groups|
    requires Raises(responses[k]) && forall j :: 0 <= j < k ==> !Raises(responses[j])
    ensures var s := Run(groups, responses, headers, todayDate);
      && s.crashed && |s.posted| == k + 1 && |s.results| == k
      && (forall j :: 0 <= j < k ==> s.results[j] == ResultOf(groups[j], responses[j]))
      && s.posted[k] == PostRequest(headers, GroupPayload(groups[k].rows, todayDate))
      && (responses[k].d.Some? ==> |s.saved| > 0 && s.saved[|s.saved| - 1] == HeaderRow(responses[k].d.value))
  {
    CompletedRunLinesUp(groups[..k], responses[..k], headers, todayDate);
    RunOneMore(groups, responses, headers, todayDate, k);
    RunStopsAfterRaise(groups, responses, headers, todayDate, k + 1);
    assert forall j :: 0 <= j < k ==> groups[..k][j] == groups[j] && responses[..k][j] == responses[j];
  }

  /**
    With groups as the grouping hands them over, each document posted in a
    completed run names the group's customer and PO in its header and gives
    back exactly the group's rows.
   */
  lemma PostedDocumentsCarryGroups(groups: seq<Group>, responses: seq<Response>,
                                   headers: Headers, todayDate: string, i: nat)
    requires |groups| == |responses| && i < |groups|
    requires forall j :: 0 <= j < |groups| ==> WellFormedGroup(groups[j])
    requires forall j :: 0 <= j < |responses| ==> !Raises(responses[j])
    ensures AllNonEmpty(groups)
    ensures |Run(groups, responses, headers, todayDate).posted| == |groups|
    ensures var body := Run(groups, responses, headers, todayDate).posted[i].body;
      && body.soldToParty == groups[i].soldToParty
      && body.purchaseOrderByCustomer == groups[i].poNumber
      && RowsOf(body) == groups[i].rows
  {
    assert AllNonEmpty(groups) by {
      forall j | 0 <= j < |groups| ensures |groups[j].rows| > 0 {
        assert WellFormedGroup(groups[j]);
      }
    }
    CompletedRunLinesUp(groups, responses, headers, todayDate);
    var g := groups[i];
    assert WellFormedGroup(g);
    PayloadRoundTrip(g.rows, todayDate);
  }

  /**
    Persistence happens exactly on success: a completed run saves as many
    header rows as it records SUCCESS results, which is the number of 201
    responses.
   */
  lemma SavesEqualSuccesses(groups: seq<Group>, responses: seq<Response>, headers: Headers, todayDate: string)
    requires |groups| == |responses| && AllNonEmpty(groups)
    requires forall j :: 0 <= j < |responses| ==> !Raises(responses[j])
    ensures var s := Run(groups, responses, headers, todayDate);
      |s.saved| == CountSuccess(s.results) == CountCreated(responses)
  {
    CompletedRunLinesUp(groups, responses, headers, todayDate);
    CompletedRunSavesEach201(groups, responses, headers, todayDate);
    SavesMatchSuccesses(groups, responses, headers, todayDate);
  }
}
