/**
 * `fetch_leads` (main.py, lines 17-35): walk the lead rows in order; for a
 * row whose job title and location match the request case-insensitively and
 * whose phone number is not in the ledger yet, send the WhatsApp message; on
 * success record the lead and add the row to the results. An empty result is
 * the HTTP error 404 "No new leads found".
 *
 * What the sender returns is not constrained here: the specification `ScanRows`
 * takes the sequence of send outcomes as a parameter, so every property below
 * holds for every behaviour of the browser.
 */
module Api {
  import opened Ledger
  import WhatsApp
  import Url

  /** The request body (`LeadRequest`, main.py, lines 9-11). */
  datatype Request = Request(jobTitle: string, location: string)

  /** The HTTP answer: `{"sent_leads": results}` or an `HTTPException`. */
  datatype Response = SentLeads(leads: seq<Row>) | HttpError(status: int, detail: string)

  const NotFound: Response := HttpError(404, "No new leads found")

  // ------------------------------------------------------------ row selection

  /** `str.lower()` on one character, for ASCII letters. */
  function LowerChar(c: char): char {
    if 'A' <= c <= 'Z' then (c as int + 32) as char else c
  }

  function Lower(s: string): (r: string)
    ensures |r| == |s|
    ensures forall i :: 0 <= i < |s| ==> r[i] == LowerChar(s[i])
  {
    if s == [] then [] else [LowerChar(s[0])] + Lower(s[1..])
  }

  /** The test at main.py, lines 23-24. */
  predicate Matches(req: Request, row: Row) {
    Lower(row.jobTitle) == Lower(req.jobTitle) && Lower(row.location) == Lower(req.location)
  }

  const Greeting := "Hi, we have an opportunity matching your profile ("

  /** The message of main.py, line 27. */
  function Message(row: Row): string {
    Greeting + row.jobTitle + " in " + row.location + ")!"
  }

  /** The message quotes the row's job title and location in their own casing. */
  lemma MessageText(row: Row)
    ensures var m := Message(row);
      && |m| == |Greeting| + |row.jobTitle| + 4 + |row.location| + 2
      && m[..|Greeting|] == Greeting
      && m[|Greeting|..|Greeting| + |row.jobTitle|] == row.jobTitle
      && m[|Greeting| + |row.jobTitle|..|Greeting| + |row.jobTitle| + 4] == " in "
      && m[|m| - 2 - |row.location|..|m| - 2] == row.location
      && m[|m| - 2..] == ")!"
  {
  }

  // ------------------------------------------------------------ specification

  /** What happened to one row: not sent to, sent to without success, or sent. */
  datatype Decision = Skipped | Failed | Sent

  datatype Scan = Scan(ledger: Table, decisions: seq<Decision>)

  /** The number of rows sent to (each uses up one send outcome). */
  function Attempts(d: seq<Decision>): nat {
    if d == [] then 0 else Attempts(d[..|d| - 1]) + (if d[|d| - 1] == Skipped then 0 else 1)
  }

  /** The rows whose decision is in `keep`, in input order. */
  function Pick(rows: seq<Row>, d: seq<Decision>, keep: set<Decision>): seq<Row>
    requires |rows| == |d|
  {
    if rows == [] then []
    else Pick(rows[..|rows| - 1], d[..|d| - 1], keep)
         + (if d[|d| - 1] in keep then [rows[|rows| - 1]] else [])
  }

  function Results(rows: seq<Row>, d: seq<Decision>): seq<Row>
    requires |rows| == |d|
  {
    Pick(rows, d, {Sent})
  }

  function Attempted(rows: seq<Row>, d: seq<Decision>): seq<Row>
    requires |rows| == |d|
  {
    Pick(rows, d, {Failed, Sent})
  }

  /** The phone numbers of the rows sent with success. */
  function SentPhones(rows: seq<Row>, d: seq<Decision>): set<string>
    requires |rows| == |d|
  {
    if rows == [] then {}
    else SentPhones(rows[..|rows| - 1], d[..|d| - 1])
         + (if d[|d| - 1] == Sent then {rows[|rows| - 1].phoneNumber} else {})
  }

  /** One iteration of the loop of main.py, lines 22-30, when the k-th send returns `outs[k]`. */
  function Step(prev: Scan, row: Row, req: Request, outs: seq<bool>): Scan {
    if !Matches(req, row) || row.phoneNumber in prev.ledger then
      Scan(prev.ledger, prev.decisions + [Skipped])
    else
      var k := Attempts(prev.decisions);
      if k < |outs| && outs[k] then
        Scan(InsertOrIgnore(prev.ledger, row), prev.decisions + [Sent])
      else
        Scan(prev.ledger, prev.decisions + [Failed])
  }

  /** The loop of main.py, lines 22-30, over `rows` from the ledger `ledger`. */
  function ScanRows(rows: seq<Row>, req: Request, ledger: Table, outs: seq<bool>): (sc: Scan)
    ensures |sc.decisions| == |rows|
    decreases |rows|
  {
    if rows == [] then Scan(ledger, [])
    else Step(ScanRows(rows[..|rows| - 1], req, ledger, outs), rows[|rows| - 1], req, outs)
  }

  /** The scan of one more row is one more step. */
  lemma ScanNext(rows: seq<Row>, req: Request, ledger: Table, outs: seq<bool>, i: nat)
    requires i < |rows|
    ensures ScanRows(rows[..i + 1], req, ledger, outs)
         == Step(ScanRows(rows[..i], req, ledger, outs), rows[i], req, outs)
  {
    assert rows[..i + 1][..i] == rows[..i];
  }

  /** The answer of main.py, lines 32-35. */
  function Respond(results: seq<Row>): (r: Response)
    ensures r.HttpError? <==> results == []
    ensures r.HttpError? ==> r == NotFound
    ensures r.SentLeads? ==> r.leads == results
  {
    if results == [] then NotFound else SentLeads(results)
  }

  // ---------------------------------------------------------- scan properties

  lemma AttemptsSnoc(d: seq<Decision>, x: Decision)
    ensures Attempts(d + [x]) == Attempts(d) + (if x == Skipped then 0 else 1)
  {
    assert (d + [x])[..|d|] == d;
  }

  lemma PickSnoc(rows: seq<Row>, d: seq<Decision>, keep: set<Decision>, row: Row, x: Decision)
    requires |rows| == |d|
    ensures Pick(rows + [row], d + [x], keep) == Pick(rows, d, keep) + (if x in keep then [row] else [])
  {
    assert (rows + [row])[..|rows|] == rows && (d + [x])[..|d|] == d;
  }

  /** Outcomes beyond those the scan uses change nothing. */
  lemma {:induction false} ScanExtend(rows: seq<Row>, req: Request, ledger: Table, outs: seq<bool>, more: seq<bool>)
    requires Attempts(ScanRows(rows, req, ledger, outs).decisions) <= |outs|
    ensures ScanRows(rows, req, ledger, outs + more) == ScanRows(rows, req, ledger, outs)
    decreases |rows|
  {
    if rows != [] {
      var init := rows[..|rows| - 1];
      var prev := ScanRows(init, req, ledger, outs);
      var sc := ScanRows(rows, req, ledger, outs);
      AttemptsSnoc(prev.decisions, sc.decisions[|rows| - 1]);
      assert sc.decisions == prev.decisions + [sc.decisions[|rows| - 1]];
      ScanExtend(init, req, ledger, outs, more);
      var k := Attempts(prev.decisions);
      if k < |outs| {
        assert (outs + more)[k] == outs[k];
      }
    }
  }

  /** The decisions on a prefix of the rows are a prefix of the decisions. */
  lemma {:induction false} ScanPrefix(rows: seq<Row>, req: Request, ledger: Table, outs: seq<bool>, j: nat)
    requires j <= |rows|
    ensures ScanRows(rows[..j], req, ledger, outs).decisions == ScanRows(rows, req, ledger, outs).decisions[..j]
    decreases |rows|
  {
    if j < |rows| {
      var init := rows[..|rows| - 1];
      ScanPrefix(init, req, ledger, outs, j);
      assert init[..j] == rows[..j];
      var d := ScanRows(rows, req, ledger, outs).decisions;
      assert d[..|rows| - 1] == ScanRows(init, req, ledger, outs).decisions;
      assert d[..|rows| - 1][..j] == d[..j];
    } else {
      assert rows[..j] == rows;
    }
  }

  /**
   * The ledger after the scan: the phone numbers sent with success are added,
   * each with the row it was sent for and `requestSent = 0`; nothing else changes.
   */
  lemma {:induction false} ScanLedger(rows: seq<Row>, req: Request, ledger: Table, outs: seq<bool>)
    ensures var sc := ScanRows(rows, req, ledger, outs);
      && sc.ledger.Keys == ledger.Keys + SentPhones(rows, sc.decisions)
      && (forall p :: p in ledger ==> sc.ledger[p] == ledger[p])
      && (forall j :: 0 <= j < |rows| && sc.decisions[j] == Sent ==>
            rows[j].phoneNumber in sc.ledger && sc.ledger[rows[j].phoneNumber] == Fresh(rows[j]))
    decreases |rows|
  {
    if rows != [] {
      var n := |rows| - 1;
      var init := rows[..n];
      var prev := ScanRows(init, req, ledger, outs);
      ScanLedger(init, req, ledger, outs);
      LedgerStep(init, prev, rows, ScanRows(rows, req, ledger, outs), req, ledger, outs);
    }
  }

  /** One step keeps the facts of `ScanLedger`. */
  lemma LedgerStep(init: seq<Row>, prev: Scan, rows: seq<Row>, sc: Scan, req: Request, ledger: Table, outs: seq<bool>)
    requires |rows| == |init| + 1 && rows[..|init|] == init
    requires sc == Step(prev, rows[|init|], req, outs)
    requires |prev.decisions| == |init|
    requires prev.ledger.Keys == ledger.Keys + SentPhones(init, prev.decisions)
    requires forall p :: p in ledger ==> prev.ledger[p] == ledger[p]
    requires forall j :: 0 <= j < |init| && prev.decisions[j] == Sent ==>
      init[j].phoneNumber in prev.ledger && prev.ledger[init[j].phoneNumber] == Fresh(init[j])
    ensures |sc.decisions| == |rows|
    ensures sc.ledger.Keys == ledger.Keys + SentPhones(rows, sc.decisions)
    ensures forall p :: p in ledger ==> sc.ledger[p] == ledger[p]
    ensures forall j :: 0 <= j < |rows| && sc.decisions[j] == Sent ==>
      rows[j].phoneNumber in sc.ledger && sc.ledger[rows[j].phoneNumber] == Fresh(rows[j])
  {
    var n, row := |init|, rows[|init|];
    assert sc.decisions[..n] == prev.decisions;
    assert sc.ledger == prev.ledger || sc.ledger == InsertOrIgnore(prev.ledger, row);
    assert forall p :: p in prev.ledger ==> p in sc.ledger && sc.ledger[p] == prev.ledger[p];
    assert SentPhones(rows, sc.decisions)
        == SentPhones(init, prev.decisions) + (if sc.decisions[n] == Sent then {row.phoneNumber} else {}) by {
      assert rows[..n] == init;
    }
    forall j | 0 <= j < |rows| && sc.decisions[j] == Sent
      ensures rows[j].phoneNumber in sc.ledger && sc.ledger[rows[j].phoneNumber] == Fresh(rows[j])
    {
      if j < n {
        assert rows[j] == init[j] && sc.decisions[j] == prev.decisions[j];
      } else {
        assert sc.ledger == InsertOrIgnore(prev.ledger, row);
      }
    }
  }

  /** A row sent with success contributes its phone number. */
  lemma {:induction false} SentPhonesHas(rows: seq<Row>, d: seq<Decision>, j: nat)
    requires |rows| == |d| && j < |rows| && d[j] == Sent
    ensures rows[j].phoneNumber in SentPhones(rows, d)
    decreases |rows|
  {
    if j < |rows| - 1 {
      SentPhonesHas(rows[..|rows| - 1], d[..|d| - 1], j);
    }
  }

  /** Every phone number in `SentPhones` comes from a row sent with success. */
  lemma {:induction false} SentPhonesFrom(rows: seq<Row>, d: seq<Decision>, p: string) returns (j: nat)
    requires |rows| == |d| && p in SentPhones(rows, d)
    ensures j < |rows| && d[j] == Sent && rows[j].phoneNumber == p
    decreases |rows|
  {
    var n := |rows| - 1;
    if d[n] == Sent && rows[n].phoneNumber == p {
      j := n;
    } else {
      j := SentPhonesFrom(rows[..n], d[..n], p);
    }
  }

  /** Decision `j` as the loop makes it, from the scan of the rows before it. */
  lemma ScanStep(rows: seq<Row>, req: Request, ledger: Table, outs: seq<bool>, j: nat)
    requires j < |rows|
    ensures var before := ScanRows(rows[..j], req, ledger, outs);
      var d := ScanRows(rows, req, ledger, outs).decisions;
      var k := Attempts(before.decisions);
      d[j] == if !Matches(req, rows[j]) || rows[j].phoneNumber in before.ledger then Skipped
              else if k < |outs| && outs[k] then Sent
              else Failed
  {
    ScanPrefix(rows, req, ledger, outs, j + 1);
    ScanNext(rows, req, ledger, outs, j);
  }

  /**
   * A row is sent to exactly when it matches the request and its phone number
   * is neither in the ledger at the start nor the phone of an earlier row sent
   * with success; it is sent with success exactly when, besides, its send
   * returns True.
   */
  lemma SentToIff(rows: seq<Row>, req: Request, ledger: Table, outs: seq<bool>, j: nat)
    requires j < |rows|
    ensures var d := ScanRows(rows, req, ledger, outs).decisions;
      && (d[j] != Skipped
          <==> Matches(req, rows[j])
               && rows[j].phoneNumber !in ledger
               && rows[j].phoneNumber !in SentPhones(rows[..j], d[..j]))
      && (d[j] == Sent
          <==> d[j] != Skipped && Attempts(d[..j]) < |outs| && outs[Attempts(d[..j])])
  {
    ScanStep(rows, req, ledger, outs, j);
    ScanPrefix(rows, req, ledger, outs, j);
    ScanLedger(rows[..j], req, ledger, outs);
  }

  /** A phone number in the ledger when the call starts is never sent to. */
  lemma KnownPhonesNotContacted(rows: seq<Row>, req: Request, ledger: Table, outs: seq<bool>, j: nat)
    requires j < |rows| && rows[j].phoneNumber in ledger
    ensures ScanRows(rows, req, ledger, outs).decisions[j] == Skipped
  {
    SentToIff(rows, req, ledger, outs, j);
  }

  /** Once a send to a phone number succeeded, no later row with that number is sent to. */
  lemma AtMostOncePerPhone(rows: seq<Row>, req: Request, ledger: Table, outs: seq<bool>, i: nat, j: nat)
    requires i < j < |rows|
    requires rows[i].phoneNumber == rows[j].phoneNumber
    requires ScanRows(rows, req, ledger, outs).decisions[i] == Sent
    ensures ScanRows(rows, req, ledger, outs).decisions[j] == Skipped
  {
    var d := ScanRows(rows, req, ledger, outs).decisions;
    SentToIff(rows, req, ledger, outs, j);
    SentPhonesHas(rows[..j], d[..j], i);
  }

  /**
   * Only a send that succeeded stops later ones: a row whose send returned
   * False leaves its phone number out of the ledger, so a later row with the
   * same number is sent to again.
   */
  lemma ResentAfterFalse(row: Row, req: Request, ledger: Table, b: bool)
    requires Matches(req, row) && row.phoneNumber !in ledger
    ensures var d := ScanRows([row, row], req, ledger, [false, b]).decisions;
      && d == [Failed, if b then Sent else Failed]
      && Attempted([row, row], d) == [row, row]
  {
    TwoDecisions(row, req, ledger, b);
    AttemptedTwice(row, if b then Sent else Failed);
  }

  /** The decisions of `ResentAfterFalse`: the first send fails, the second is tried. */
  lemma TwoDecisions(row: Row, req: Request, ledger: Table, b: bool)
    requires Matches(req, row) && row.phoneNumber !in ledger
    ensures ScanRows([row, row], req, ledger, [false, b]).decisions == [Failed, if b then Sent else Failed]
  {
    var outs := [false, b];
    var s1 := Scan(ledger, [Failed]);
    assert ScanRows([row, row], req, ledger, outs) == Step(s1, row, req, outs) by {
      FirstFails(row, req, ledger, outs);
      assert [row, row][..1] == [row];
    }
    assert Attempts(s1.decisions) == 1 by {
      assert [Failed][..0] == [];
    }
  }

  /**
   * The ledger is keyed by the `phone_number` text, but the link strips its leading `+`:
   * two rows that spell one number with and without `+` are both sent to with success,
   * and both greetings go to the same link.
   */
  lemma PlusSpellingsBothSent(t: string, l: string, u: string, p: string, req: Request)
    requires Matches(req, Row(t, l, u, p))
    ensures var rows := [Row(t, l, u, "+" + p), Row(t, l, u, p)];
      && ScanRows(rows, req, map[], [true, true]).decisions == [Sent, Sent]
      && Url.DeepLink(rows[0].phoneNumber, Message(rows[0])) == Url.DeepLink(rows[1].phoneNumber, Message(rows[1]))
  {
    var r0, r1 := Row(t, l, u, "+" + p), Row(t, l, u, p);
    var outs := [true, true];
    var s1 := Scan(InsertOrIgnore(map[], r0), [Sent]);
    assert r0.phoneNumber != r1.phoneNumber by {
      assert |r0.phoneNumber| == |r1.phoneNumber| + 1;
    }
    assert ScanRows([r0, r1], req, map[], outs) == Step(s1, r1, req, outs) by {
      FirstSent(r0, req, outs);
      assert [r0, r1][..1] == [r0];
    }
    assert Attempts(s1.decisions) == 1 by {
      assert [Sent][..0] == [];
    }
    assert ("+" + p)[1..] == p;
  }

  /** A matching row sent to with success from an empty ledger. */
  lemma FirstSent(row: Row, req: Request, outs: seq<bool>)
    requires Matches(req, row)
    requires |outs| > 0 && outs[0]
    ensures ScanRows([row], req, map[], outs) == Scan(InsertOrIgnore(map[], row), [Sent])
  {
    assert [row][..0] == [];
    assert Attempts([]) == 0;
  }

  /** A fresh matching row whose send returns False is the one failed decision. */
  lemma FirstFails(row: Row, req: Request, ledger: Table, outs: seq<bool>)
    requires Matches(req, row) && row.phoneNumber !in ledger
    requires |outs| > 0 && !outs[0]
    ensures ScanRows([row], req, ledger, outs) == Scan(ledger, [Failed])
  {
    assert [row][..0] == [];
    assert Attempts([]) == 0;
  }

  /** Two attempted rows are both attempted, in order. */
  lemma AttemptedTwice(row: Row, x: Decision)
    requires x != Skipped
    ensures Attempted([row, row], [Failed, x]) == [row, row]
  {
    PickSnoc([row], [Failed], {Failed, Sent}, row, x);
    PickSnoc([], [], {Failed, Sent}, row, Failed);
    assert [row] + [row] == [row, row] && [Failed] + [x] == [Failed, x];
  }

  /** Whether `a` is `b` with some elements left out, order kept. */
  predicate IsSubseq(a: seq<Row>, b: seq<Row>)
    decreases |b|
  {
    if a == [] then true
    else if b == [] then false
    else if a[|a| - 1] == b[|b| - 1] then IsSubseq(a[..|a| - 1], b[..|b| - 1])
    else IsSubseq(a, b[..|b| - 1])
  }

  /** Picking rows keeps their order: the rows kept by a narrower choice are a subsequence of those kept by a wider one. */
  lemma {:induction false} PickIsSubseq(rows: seq<Row>, d: seq<Decision>, keep: set<Decision>, wider: set<Decision>)
    requires |rows| == |d| && keep <= wider
    ensures IsSubseq(Pick(rows, d, keep), Pick(rows, d, wider))
    decreases |rows|
  {
    if rows != [] {
      var n := |rows| - 1;
      PickIsSubseq(rows[..n], d[..n], keep, wider);
      var a, b := Pick(rows[..n], d[..n], keep), Pick(rows[..n], d[..n], wider);
      assert rows[..n] + [rows[n]] == rows && d[..n] + [d[n]] == d;
      PickSnoc(rows[..n], d[..n], keep, rows[n], d[n]);
      PickSnoc(rows[..n], d[..n], wider, rows[n], d[n]);
      if d[n] in keep {
        SubseqBoth(a, b, rows[n]);
      } else {
        assert a + [] == a;
        SubseqSnoc(a, b, if d[n] in wider then [rows[n]] else []);
      }
    }
  }

  /** Picking rows keeps their order: the rows kept are a subsequence of all rows. */
  lemma {:induction false} PickInRows(rows: seq<Row>, d: seq<Decision>, keep: set<Decision>)
    requires |rows| == |d|
    ensures IsSubseq(Pick(rows, d, keep), rows)
    decreases |rows|
  {
    if rows != [] {
      var n := |rows| - 1;
      PickInRows(rows[..n], d[..n], keep);
      var a := Pick(rows[..n], d[..n], keep);
      assert rows[..n] + [rows[n]] == rows && d[..n] + [d[n]] == d;
      PickSnoc(rows[..n], d[..n], keep, rows[n], d[n]);
      if d[n] in keep {
        SubseqBoth(a, rows[..n], rows[n]);
      } else {
        assert a + [] == a;
        SubseqSnoc(a, rows[..n], [rows[n]]);
      }
    }
  }

  /** Appending the same row to both sides keeps a subsequence. */
  lemma SubseqBoth(a: seq<Row>, b: seq<Row>, x: Row)
    requires IsSubseq(a, b)
    ensures IsSubseq(a + [x], b + [x])
  {
    assert (a + [x])[..|a|] == a && (b + [x])[..|b|] == b;
  }

  /** A subsequence stays one when the longer sequence grows. */
  lemma {:induction false} SubseqSnoc(a: seq<Row>, b: seq<Row>, c: seq<Row>)
    requires IsSubseq(a, b) && |c| <= 1
    ensures IsSubseq(a, b + c)
    decreases |b|, 1
  {
    if c != [] && a != [] {
      assert (b + c)[..|b|] == b;
      if a[|a| - 1] == c[0] {
        SubseqDrop(a, b);
      }
    } else if c == [] {
      assert b + c == b;
    }
  }

  /** Dropping the last element of a subsequence keeps it one. */
  lemma {:induction false} SubseqDrop(a: seq<Row>, b: seq<Row>)
    requires a != [] && IsSubseq(a, b)
    ensures IsSubseq(a[..|a| - 1], b)
    decreases |b|, 0
  {
    var n := |b| - 1;
    assert b[..n] + [b[n]] == b;
    if a[|a| - 1] == b[n] {
      SubseqSnoc(a[..|a| - 1], b[..n], [b[n]]);
    } else {
      SubseqDrop(a, b[..n]);
      SubseqSnoc(a[..|a| - 1], b[..n], [b[n]]);
    }
  }

  /**
   * The results are the rows sent with success, a subsequence of the rows sent
   * to, which are a subsequence of the input, all in input order.
   */
  lemma ResultsInOrder(rows: seq<Row>, req: Request, ledger: Table, outs: seq<bool>)
    ensures var d := ScanRows(rows, req, ledger, outs).decisions;
      && IsSubseq(Results(rows, d), Attempted(rows, d))
      && IsSubseq(Attempted(rows, d), rows)
  {
    var d := ScanRows(rows, req, ledger, outs).decisions;
    PickIsSubseq(rows, d, {Sent}, {Failed, Sent});
    PickInRows(rows, d, {Failed, Sent});
  }

  // ----------------------------------------------------------------- the loop

  /** The outcomes of a sequence of sends. */
  function Outcomes(calls: seq<WhatsApp.Call>): seq<bool> {
    if calls == [] then [] else Outcomes(calls[..|calls| - 1]) + [calls[|calls| - 1].sent]
  }

  /** The phone numbers and messages of a sequence of sends. */
  function Requests(calls: seq<WhatsApp.Call>): seq<(string, string)> {
    if calls == [] then [] else Requests(calls[..|calls| - 1]) + [(calls[|calls| - 1].phone, calls[|calls| - 1].message)]
  }

  /** What `fetch_leads` sends for the rows it sends to. */
  function Outbound(rows: seq<Row>): seq<(string, string)> {
    if rows == [] then [] else Outbound(rows[..|rows| - 1]) + [(rows[|rows| - 1].phoneNumber, Message(rows[|rows| - 1]))]
  }

  lemma OutcomesSnoc(calls: seq<WhatsApp.Call>, c: WhatsApp.Call)
    ensures Outcomes(calls + [c]) == Outcomes(calls) + [c.sent]
    ensures Requests(calls + [c]) == Requests(calls) + [(c.phone, c.message)]
    ensures |Outcomes(calls)| == |calls|
  {
    assert (calls + [c])[..|calls|] == calls;
    OutcomesLength(calls);
  }

  lemma {:induction false} OutcomesLength(calls: seq<WhatsApp.Call>)
    ensures |Outcomes(calls)| == |calls|
    decreases |calls|
  {
    if calls != [] {
      OutcomesLength(calls[..|calls| - 1]);
    }
  }

  lemma OutboundSnoc(rows: seq<Row>, row: Row)
    ensures Outbound(rows + [row]) == Outbound(rows) + [(row.phoneNumber, Message(row))]
  {
    assert (rows + [row])[..|rows|] == rows;
  }

  /** One more row sent to, whose send returned `b`. */
  lemma ScanSentStep(rows: seq<Row>, req: Request, ledger: Table, outs: seq<bool>, i: nat, b: bool)
    requires i < |rows|
    requires var prev := ScanRows(rows[..i], req, ledger, outs);
      && Attempts(prev.decisions) == |outs|
      && Matches(req, rows[i]) && rows[i].phoneNumber !in prev.ledger
    ensures var prev := ScanRows(rows[..i], req, ledger, outs);
      ScanRows(rows[..i + 1], req, ledger, outs + [b])
      == Scan(if b then InsertOrIgnore(prev.ledger, rows[i]) else prev.ledger,
              prev.decisions + [if b then Sent else Failed])
  {
    ScanExtend(rows[..i], req, ledger, outs, [b]);
    ScanNext(rows, req, ledger, outs + [b], i);
    assert (outs + [b])[|outs|] == b;
  }

  /** The rows picked after one more decision. */
  lemma DecideNext(rows: seq<Row>, d: seq<Decision>, i: nat, x: Decision)
    requires i < |rows| && |d| == i
    ensures Attempts(d + [x]) == Attempts(d) + (if x == Skipped then 0 else 1)
    ensures Results(rows[..i + 1], d + [x]) == Results(rows[..i], d) + (if x == Sent then [rows[i]] else [])
    ensures Attempted(rows[..i + 1], d + [x])
         == Attempted(rows[..i], d) + (if x == Skipped then [] else [rows[i]])
  {
    assert rows[..i + 1] == rows[..i] + [rows[i]];
    AttemptsSnoc(d, x);
    PickSnoc(rows[..i], d, {Sent}, rows[i], x);
    PickSnoc(rows[..i], d, {Failed, Sent}, rows[i], x);
  }

  /** One more row not sent to. */
  lemma ScanSkippedStep(rows: seq<Row>, req: Request, ledger: Table, outs: seq<bool>, i: nat)
    requires i < |rows|
    requires var prev := ScanRows(rows[..i], req, ledger, outs);
      !Matches(req, rows[i]) || rows[i].phoneNumber in prev.ledger
    ensures var prev := ScanRows(rows[..i], req, ledger, outs);
      ScanRows(rows[..i + 1], req, ledger, outs) == Scan(prev.ledger, prev.decisions + [Skipped])
  {
    ScanNext(rows, req, ledger, outs, i);
  }

  /**
   * What the loop of `fetch_leads` has done after `i` rows: the ledger, the
   * matched rows and the sends are those of the scan of `rows[..i]` over the
   * outcomes of `calls`, and every outcome has been used.
   */
  ghost predicate Progress(rows: seq<Row>, req: Request, ledger: Table, i: nat,
                           calls: seq<WhatsApp.Call>, leads: Table, results: seq<Row>)
    requires i <= |rows|
  {
    var sc := ScanRows(rows[..i], req, ledger, Outcomes(calls));
    && leads == sc.ledger
    && Attempts(sc.decisions) == |calls|
    && results == Results(rows[..i], sc.decisions)
    && Requests(calls) == Outbound(Attempted(rows[..i], sc.decisions))
  }

  /** Sending to row `i` and recording it when the send succeeded keeps `Progress`. */
  lemma ProgressSent(rows: seq<Row>, req: Request, ledger: Table, i: nat,
                     calls: seq<WhatsApp.Call>, leads: Table, results: seq<Row>, call: WhatsApp.Call,
                     calls': seq<WhatsApp.Call>, leads': Table, results': seq<Row>)
    requires i < |rows| && Progress(rows, req, ledger, i, calls, leads, results)
    requires Matches(req, rows[i]) && rows[i].phoneNumber !in leads
    requires call.phone == rows[i].phoneNumber && call.message == Message(rows[i])
    requires calls' == calls + [call]
    requires leads' == if call.sent then InsertOrIgnore(leads, rows[i]) else leads
    requires results' == if call.sent then results + [rows[i]] else results
    ensures Progress(rows, req, ledger, i + 1, calls', leads', results')
  {
    var sc := ScanRows(rows[..i], req, ledger, Outcomes(calls));
    OutcomesSnoc(calls, call);
    ScanSentStep(rows, req, ledger, Outcomes(calls), i, call.sent);
    DecideNext(rows, sc.decisions, i, if call.sent then Sent else Failed);
    OutboundSnoc(Attempted(rows[..i], sc.decisions), rows[i]);
    var x := if call.sent then Sent else Failed;
    assert ScanRows(rows[..i + 1], req, ledger, Outcomes(calls + [call])).decisions == sc.decisions + [x];
    assert Attempts(sc.decisions + [x]) == |calls + [call]|;
  }

  /** Passing over row `i` keeps `Progress`. */
  lemma ProgressSkipped(rows: seq<Row>, req: Request, ledger: Table, i: nat,
                        calls: seq<WhatsApp.Call>, leads: Table, results: seq<Row>,
                        calls': seq<WhatsApp.Call>, leads': Table, results': seq<Row>)
    requires i < |rows| && Progress(rows, req, ledger, i, calls, leads, results)
    requires !Matches(req, rows[i]) || rows[i].phoneNumber in leads
    requires calls' == calls && leads' == leads && results' == results
    ensures Progress(rows, req, ledger, i + 1, calls', leads', results')
  {
    var sc := ScanRows(rows[..i], req, ledger, Outcomes(calls));
    var outs := Outcomes(calls);
    ScanSkippedStep(rows, req, ledger, outs, i);
    DecideNext(rows, sc.decisions, i, Skipped);
    var next := ScanRows(rows[..i + 1], req, ledger, outs);
    assert next.ledger == leads;
    assert next.decisions == sc.decisions + [Skipped];
    assert Attempts(next.decisions) == |calls|;
    assert Results(rows[..i + 1], next.decisions) == results;
    assert Attempted(rows[..i + 1], next.decisions) == Attempted(rows[..i], sc.decisions);
  }

  /**
   * One step of the loop: the ledger, the sends and the matched rows after
   * `rows[i]` are those of the scan one row further.
   */
  lemma ProgressStep(rows: seq<Row>, req: Request, ledger: Table, i: nat,
                     calls: seq<WhatsApp.Call>, leads: Table, results: seq<Row>,
                     calls': seq<WhatsApp.Call>, leads': Table, results': seq<Row>)
    requires i < |rows| && Progress(rows, req, ledger, i, calls, leads, results)
    requires if Matches(req, rows[i]) && rows[i].phoneNumber !in leads then
        && |calls'| == |calls| + 1 && calls'[..|calls|] == calls
        && calls'[|calls|].phone == rows[i].phoneNumber && calls'[|calls|].message == Message(rows[i])
        && leads' == (if calls'[|calls|].sent then InsertOrIgnore(leads, rows[i]) else leads)
        && results' == (if calls'[|calls|].sent then results + [rows[i]] else results)
      else calls' == calls && leads' == leads && results' == results
    ensures Progress(rows, req, ledger, i + 1, calls', leads', results')
  {
    if Matches(req, rows[i]) && rows[i].phoneNumber !in leads {
      var call := calls'[|calls|];
      assert calls' == calls + [call];
      ProgressSent(rows, req, ledger, i, calls, leads, results, call, calls', leads', results');
    } else {
      ProgressSkipped(rows, req, ledger, i, calls, leads, results, calls', leads', results');
    }
  }

  /**
   * The body of the loop of `fetch_leads` for one row: a row that matches the
   * request and whose phone number is not in the ledger is sent its greeting,
   * and recorded in the ledger when the send returned True; any other row
   * changes nothing. Returns what the send returned.
   */
  method Visit(req: Request, row: Row, db: LeadStore, sender: WhatsApp.Messenger) returns (sent: bool)
    requires db.Valid() && db.hasTable
    modifies db, sender
    ensures db.Valid() && db.hasTable
    ensures if Matches(req, row) && row.phoneNumber !in old(db.leads) then
        && |sender.calls| == |old(sender.calls)| + 1
        && sender.calls[..|old(sender.calls)|] == old(sender.calls)
        && sender.calls[|old(sender.calls)|].phone == row.phoneNumber
        && sender.calls[|old(sender.calls)|].message == Message(row)
        && sender.calls[|old(sender.calls)|].sent == sent
        && db.leads == (if sent then InsertOrIgnore(old(db.leads), row) else old(db.leads))
        && sender.sessionStored
           == WhatsApp.StoredAfter(old(sender.sessionStored), sender.calls[|old(sender.calls)|].trace, old(sender.Plan()))
      else
        && sender.calls == old(sender.calls) && sender.sessionStored == old(sender.sessionStored)
        && db.leads == old(db.leads) && !sent
    ensures old(sender.sessionStored) ==> sender.sessionStored
    ensures sent ==> sender.sessionStored
  {
    sent := false;
    if Lower(row.jobTitle) == Lower(req.jobTitle) && Lower(row.location) == Lower(req.location) {
      var known := db.IsMessageSent(row.phoneNumber);
      if !known {
        var message := Message(row);
        ghost var plan, stored := sender.Plan(), sender.sessionStored;
        sent := sender.SendWhatsAppMessage(row.phoneNumber, message);
        WhatsApp.SendRunIsReference(plan, stored, row.phoneNumber, message);
        WhatsApp.SentMeansDelivered(plan, stored, row.phoneNumber, message);
        if sent {
          db.SaveLead(row);
        }
      }
    }
  }

  /**
   * `fetch_leads(data)` with the lead file's rows `rows`, the ledger `db` and
   * the sender `sender`: it sends what `ScanRows` says for the outcomes the
   * sends actually had, leaves the ledger as `ScanRows` says and answers with
   * its results.
   */
  method FetchLeads(req: Request, rows: seq<Row>, db: LeadStore, sender: WhatsApp.Messenger)
    returns (response: Response)
    requires db.Valid() && db.hasTable
    modifies db, sender
    ensures |sender.calls| >= |old(sender.calls)|
    ensures sender.calls[..|old(sender.calls)|] == old(sender.calls)
    ensures var sc := ScanRows(rows, req, old(db.leads), Outcomes(sender.calls[|old(sender.calls)|..]));
      && db.Valid() && db.hasTable
      && db.leads == sc.ledger
      && Requests(sender.calls[|old(sender.calls)|..]) == Outbound(Attempted(rows, sc.decisions))
      && response == Respond(Results(rows, sc.decisions))
    ensures old(sender.sessionStored) ==> sender.sessionStored
    ensures response.SentLeads? ==> sender.sessionStored
  {
    ghost var base := |sender.calls|;
    ghost var ledger := db.leads;
    var results: seq<Row> := [];
    var i := 0;
    while i < |rows|
      invariant 0 <= i <= |rows|
      invariant db.Valid() && db.hasTable
      invariant |sender.calls| >= base && sender.calls[..base] == old(sender.calls)
      invariant Progress(rows, req, ledger, i, sender.calls[base..], db.leads, results)
      invariant old(sender.sessionStored) ==> sender.sessionStored
      invariant results != [] ==> sender.sessionStored
    {
      ghost var calls, leads, sentTo := sender.calls[base..], db.leads, results;
      var row := rows[i];
      var sent := Visit(req, row, db, sender);
      if sent {
        results := results + [row];
      }
      assert sender.calls[base..][..|calls|] == calls;
      ProgressStep(rows, req, ledger, i, calls, leads, sentTo, sender.calls[base..], db.leads, results);
      i := i + 1;
    }
    assert rows[..i] == rows;
    if results == [] {
      response := NotFound;
    } else {
      response := SentLeads(results);
    }
  }
}
