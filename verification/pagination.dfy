/** The paginated fetch of `query_cmr_graph_for_collections`.

    The HTTP exchange is replaced by a finite script of replies: the n-th
    request the loop makes receives the n-th reply. The loop state is the
    tuple the source keeps in local variables: the accumulated collections,
    the last reported count, the cursor the next request carries, and the
    error count; plus the exception, if one escaped the loop body.
 */
module Pagination {
  import opened Values
  import opened Seqs
  import opened Catalog

  /** The page size the query asks for. */
  const PageSize := 100

  /** The error budget. */
  const MaxErrors := 3

  /** One reply from the GraphQL endpoint:
      - a successful page with the reported total, the page's items and the
        next cursor (JSON `null` is `None`);
      - a status of 400 or more (`not response.ok`), which only counts against the error budget;
      - a request that raises instead: an `ok` reply whose body has no
        readable `data.collections` (`data` is `null`: `TypeError`; a member
        is absent: `KeyError`), or the HTTP library raising before any reply
        (`RequestException`). Nothing catches these, so the loop ends there. */
  datatype Response =
    | Page(count: int, items: seq<Collection>, cursor: Option<string>)
    | Failed(status: int)
    | Broken(error: Error)

  /** The cursor a request carries: none at all before the first success,
      afterwards whatever the last successful reply returned. */
  datatype RequestCursor = NoCursor | Cursor(value: Option<string>)

  /** The loop variables, the cursors of the requests already made, and the
      exception that ended the loop, if any. */
  datatype Loop = Loop(collected: seq<Collection>, count: int, cursor: RequestCursor, errors: nat,
                       requests: seq<RequestCursor>, raised: Option<Error>)

  /** Before the first request: the count is 1 so that the guard admits a
      first request. */
  const Start: Loop := Loop([], 1, NoCursor, 0, [], None)

  /** The `while` guard; an exception leaves the loop as well. */
  predicate Continues(s: Loop) {
    s.raised.None? && s.errors < MaxErrors && |s.collected| < s.count
  }

  /** One loop body: a request with the current cursor, then the success
      branch (take the count, extend, move the cursor), the error branch
      (count the error, keep everything else), or an exception. */
  function Step(s: Loop, reply: Response): (r: Loop)
    ensures r.requests == s.requests + [s.cursor]
    ensures s.collected <= r.collected
    ensures |r.collected| == |s.collected| + (if reply.Page? then |reply.items| else 0)
    ensures r.errors == s.errors + (if reply.Failed? then 1 else 0)
    ensures !reply.Page? ==> r.count == s.count && r.cursor == s.cursor
    ensures reply.Broken? ==> r.raised == Some(reply.error) && !Continues(r)
    ensures !reply.Broken? ==> r.raised == s.raised
  {
    match reply
    case Page(count, items, cursor) =>
      s.(collected := s.collected + items, count := count, cursor := Cursor(cursor), requests := s.requests + [s.cursor])
    case Failed(_) =>
      s.(errors := s.errors + 1, requests := s.requests + [s.cursor])
    case Broken(e) =>
      s.(raised := Some(e), requests := s.requests + [s.cursor])
  }

  /** The loop, run until its guard fails or the script has no reply left:
      one request per reply consumed, never dropping what was collected, and
      never past the error budget. */
  function Run(s: Loop, script: seq<Response>): (r: Loop)
    ensures s.requests <= r.requests
    ensures |r.requests| <= |s.requests| + |script|
    ensures s.collected <= r.collected
    ensures !Continues(s) ==> r == s
    ensures Continues(r) ==> |r.requests| == |s.requests| + |script|
    ensures s.errors <= MaxErrors ==> r.errors <= MaxErrors
    decreases |script|
  {
    if !Continues(s) || script == [] then s else Run(Step(s, script[0]), script[1..])
  }

  // An independent description of a run, by the prefix of replies consumed.

  /** The items of the successful replies, concatenated in order. */
  function OkItems(rs: seq<Response>): seq<Collection> {
    if rs == [] then [] else OkItems(Init(rs)) + (if Last(rs).Page? then Last(rs).items else [])
  }

  /** The number of failed replies. */
  function ErrorCount(rs: seq<Response>): nat {
    if rs == [] then 0 else ErrorCount(Init(rs)) + (if Last(rs).Failed? then 1 else 0)
  }

  /** The total reported by the last successful reply; 1 before any. */
  function ReportedCount(rs: seq<Response>): int {
    if rs == [] then 1 else if Last(rs).Page? then Last(rs).count else ReportedCount(Init(rs))
  }

  /** The cursor of the last successful reply; none before any. */
  function CursorAfter(rs: seq<Response>): RequestCursor {
    if rs == [] then NoCursor else if Last(rs).Page? then Cursor(Last(rs).cursor) else CursorAfter(Init(rs))
  }

  /** The exception of the last reply that raised; none if no reply did. */
  function RaisedBy(rs: seq<Response>): Option<Error> {
    if rs == [] then None else if Last(rs).Broken? then Some(Last(rs).error) else RaisedBy(Init(rs))
  }

  /** The loop must stop once these replies have been consumed: a reply
      raised, the error budget is spent, or the accumulated list has reached
      the last reported total. */
  predicate Stops(rs: seq<Response>) {
    RaisedBy(rs).Some? || ErrorCount(rs) >= MaxErrors || |OkItems(rs)| >= ReportedCount(rs)
  }

  /** `s` is the loop state after consuming exactly the replies `h`. */
  ghost predicate Reflects(s: Loop, h: seq<Response>) {
    && s.collected == OkItems(h)
    && s.errors == ErrorCount(h)
    && s.count == ReportedCount(h)
    && s.cursor == CursorAfter(h)
    && s.raised == RaisedBy(h)
    && |s.requests| == |h|
    && forall k :: 0 <= k < |h| ==> s.requests[k] == CursorAfter(h[..k])
  }

  lemma StepReflects(s: Loop, h: seq<Response>, reply: Response)
    requires Reflects(s, h)
    ensures Reflects(Step(s, reply), h + [reply])
  {
    var h' := h + [reply];
    assert Init(h') == h && Last(h') == reply;
    forall k | 0 <= k < |h'|
      ensures Step(s, reply).requests[k] == CursorAfter(h'[..k])
    {
      if k < |h| {
        assert h'[..k] == h[..k];
      } else {
        assert h'[..k] == h;
      }
    }
  }

  /** Running the loop from the state after `script[..k]` consumes replies
      while the loop may not stop, and halts at the first prefix after which
      it must, or at the end of the script. */
  lemma {:induction false} RunFrom(script: seq<Response>, k: nat, s: Loop)
    requires k <= |script|
    requires Reflects(s, script[..k])
    requires forall j :: 0 <= j < k ==> !Stops(script[..j])
    ensures var t := Run(s, script[k..]);
            && k <= |t.requests| <= |script|
            && Reflects(t, script[..|t.requests|])
            && (forall j :: 0 <= j < |t.requests| ==> !Stops(script[..j]))
            && (Continues(t) <==> !Stops(script[..|t.requests|]))
            && (Continues(t) ==> |t.requests| == |script|)
    decreases |script| - k
  {
    if !Continues(s) || k == |script| {
      assert script[k..] == [] || !Continues(s);
    } else {
      var s' := Step(s, script[k]);
      StepReflects(s, script[..k], script[k]);
      assert script[..k] + [script[k]] == script[..k + 1];
      assert script[k..][1..] == script[k + 1..];
      RunFrom(script, k + 1, s');
    }
  }

  /** What the fetch hands back: the accumulated collections, the cursor each
      request carried, whether the loop ended by itself (`false`: the script
      ran out while the loop still wanted a reply), and the exception that
      escaped it, if any (then the collections are never returned). */
  datatype Fetch = Fetch(collections: seq<Collection>, requests: seq<RequestCursor>, complete: bool, raised: Option<Error>)

  /** `query_cmr_graph_for_collections` over a scripted catalog. With `n`
      requests made: the result is the concatenation of the successful pages
      among the first `n` replies; the first request has no cursor, and each
      later one carries the previous success's cursor, or the previous
      request's cursor otherwise; the guard held before each request, and the
      run is complete exactly when the guard fails after the `n`-th. It
      raises exactly when the `n`-th reply is one that raises. */
  function QueryCollections(script: seq<Response>): (f: Fetch)
    ensures |f.requests| <= |script|
    ensures script != [] ==> |f.requests| >= 1
    ensures f.collections == OkItems(script[..|f.requests|])
    ensures f.requests != [] ==> f.requests[0] == NoCursor
    ensures forall k :: 0 <= k < |f.requests| - 1 ==>
              f.requests[k + 1] == if script[k].Page? then Cursor(script[k].cursor) else f.requests[k]
    ensures forall k :: 0 <= k < |f.requests| ==> !Stops(script[..k])
    ensures f.complete <==> Stops(script[..|f.requests|])
    ensures !f.complete ==> |f.requests| == |script|
    ensures ErrorCount(script[..|f.requests|]) <= MaxErrors
    ensures f.raised.Some? <==> |f.requests| >= 1 && script[|f.requests| - 1].Broken?
    ensures f.raised.Some? ==> f.complete && f.raised.value == script[|f.requests| - 1].error
  {
    var t := Run(Start, script);
    RunFromStart(script);
    CursorChain(script, t);
    LastReply(script, t);
    Fetch(t.collected, t.requests, !Continues(t), t.raised)
  }

  /** `RunFrom` from the very first request. */
  lemma RunFromStart(script: seq<Response>)
    ensures var t := Run(Start, script);
            && |t.requests| <= |script|
            && Reflects(t, script[..|t.requests|])
            && (forall j :: 0 <= j < |t.requests| ==> !Stops(script[..j]))
            && (Continues(t) <==> !Stops(script[..|t.requests|]))
            && (Continues(t) ==> |t.requests| == |script|)
  {
    assert script[..0] == [];
    RunFrom(script, 0, Start);
    assert script[0..] == script;
  }

  /** Each request after the first carries the cursor left by the reply to
      the one before it. */
  lemma CursorChain(script: seq<Response>, t: Loop)
    requires |t.requests| <= |script| && Reflects(t, script[..|t.requests|])
    ensures forall k :: 0 <= k < |t.requests| - 1 ==>
              t.requests[k + 1] == if script[k].Page? then Cursor(script[k].cursor) else t.requests[k]
  {
    var n := |t.requests|;
    forall k | 0 <= k < n - 1
      ensures t.requests[k + 1] == if script[k].Page? then Cursor(script[k].cursor) else t.requests[k]
    {
      assert script[..n][..k + 1] == script[..k + 1];
      assert script[..n][..k] == script[..k];
      assert Init(script[..k + 1]) == script[..k];
      assert Last(script[..k + 1]) == script[k];
    }
  }

  /** After the loop: the error count is within the budget, and the loop
      raised exactly when the last reply it consumed raises. */
  lemma LastReply(script: seq<Response>, t: Loop)
    requires |t.requests| <= |script| && Reflects(t, script[..|t.requests|])
    requires forall j :: 0 <= j < |t.requests| ==> !Stops(script[..j])
    ensures ErrorCount(script[..|t.requests|]) <= MaxErrors
    ensures t.raised.Some? <==> |t.requests| >= 1 && script[|t.requests| - 1].Broken?
    ensures t.raised.Some? ==> |t.requests| >= 1 && t.raised.value == script[|t.requests| - 1].error
  {
    var n := |t.requests|;
    if n > 0 {
      assert !Stops(script[..n - 1]);
      assert Init(script[..n]) == script[..n - 1];
      assert Last(script[..n]) == script[n - 1];
    } else {
      assert script[..n] == [];
    }
  }

  /** If every reply is an error status, exactly three requests are made,
      all without a cursor, and the empty list is returned without raising. */
  lemma AllErrorsGiveUp(script: seq<Response>)
    requires |script| >= MaxErrors
    requires forall i :: 0 <= i < |script| ==> script[i].Failed?
    ensures QueryCollections(script) == Fetch([], [NoCursor, NoCursor, NoCursor], true, None)
  {
    var f := QueryCollections(script);
    var n := |f.requests|;
    forall k | 0 <= k <= |script|
      ensures ErrorCount(script[..k]) == k && OkItems(script[..k]) == [] && ReportedCount(script[..k]) == 1
      ensures RaisedBy(script[..k]) == None
    {
      ErrorsOnly(script[..k]);
    }
    assert Stops(script[..3]);
    assert n == 3;
    assert f.requests[1] == f.requests[0] == NoCursor;
    assert f.requests[2] == f.requests[1];
    assert f.requests == [NoCursor, NoCursor, NoCursor];
  }

  lemma {:induction false} ErrorsOnly(rs: seq<Response>)
    requires forall i :: 0 <= i < |rs| ==> rs[i].Failed?
    ensures ErrorCount(rs) == |rs| && OkItems(rs) == [] && ReportedCount(rs) == 1 && RaisedBy(rs) == None
  {
    if rs != [] {
      ErrorsOnly(Init(rs));
    }
  }

  /** Three pages of 100, 100 and 50 items under a reported total of 250:
      three requests, carrying no cursor, then the first and the second
      cursor, and 250 items; replies after the third are never consumed. */
  lemma ThreePages(a: seq<Collection>, b: seq<Collection>, c: seq<Collection>, more: seq<Response>)
    requires |a| == 100 && |b| == 100 && |c| == 50
    ensures var f := QueryCollections([Page(250, a, Some("c1")), Page(250, b, Some("c2")), Page(250, c, None)] + more);
            && f.requests == [NoCursor, Cursor(Some("c1")), Cursor(Some("c2"))]
            && f.collections == a + b + c
            && |f.collections| == 250
            && f.complete && f.raised == None
  {
    var script := [Page(250, a, Some("c1")), Page(250, b, Some("c2")), Page(250, c, None)] + more;
    var s1 := Step(Start, script[0]);
    var s2 := Step(s1, script[1]);
    var s3 := Step(s2, script[2]);
    assert script[1..][1..][1..] == more;
    assert Run(Start, script) == Run(s1, script[1..]);
    assert Run(s1, script[1..]) == Run(s2, script[1..][1..]);
    assert Run(s2, script[1..][1..]) == Run(s3, more);
    assert !Continues(s3);
    assert Run(Start, script) == s3;
  }

  /** A reply that raises ends the loop at once, whatever the error budget
      and the count say: nothing is retried and nothing is returned. */
  lemma BrokenReplyRaises(a: seq<Collection>, e: Error, more: seq<Response>)
    requires |a| < 250
    ensures var f := QueryCollections([Page(250, a, Some("c1")), Broken(e)] + more);
            && f.requests == [NoCursor, Cursor(Some("c1"))]
            && f.complete && f.raised == Some(e)
  {
    var script := [Page(250, a, Some("c1")), Broken(e)] + more;
    var s1 := Step(Start, script[0]);
    var s2 := Step(s1, script[1]);
    assert script[1..][1..] == more;
    assert Run(Start, script) == Run(s1, script[1..]);
    assert Run(s1, script[1..]) == Run(s2, more);
  }
}
