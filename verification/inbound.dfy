/**
Provider webhooks (inbound.py): every event is recorded once, so redelivery changes
nothing; delivery reports move a sent message forward only; an inbound message is stored
once. `Process` is what a list of events does to the tables, `WebhookProcessor` the code.
*/
module Inbound {
  import opened Wrappers

  datatype Provider = Twilio | AgentMail

  /** A delivery report, or an inbound message with its body also stripped and lower-cased in `word`. */
  datatype Event =
    | Report(event: string, message: string, status: string)
    | Message(event: string, to: string, from: string, subject: string, body: string, word: string, message: string,
      thread: string, parent: string)

  /** An outbound row: the id its provider gave it, and its status. */
  datatype SentRow = SentRow(id: string, status: string)

  datatype ReceivedRow = ReceivedRow(from: string, subject: string, body: string, thread: string, parent: string,
    id: string)

  /** `endpoints` holds the active addresses; a received row belongs to an endpoint and a dedupe key. */
  datatype Tables = Tables(
    receipts: set<(Provider, string)>, endpoints: map<(Provider, string), nat>, sent: seq<SentRow>,
    received: map<(nat, string), ReceivedRow>, optOuts: set<string>)

  const STOP_WORDS := {"stop", "stopall", "unsubscribe", "cancel", "end", "quit"}
  const START_WORDS := {"start", "unstop", "yes"}
  const LIMIT := 256

  /** STATUS_ORDER, with 0 for a status it does not list. */
  function Rank(status: string): nat {
    if status == "sent" then 1
    else if status == "delivered" then 2
    else if status == "bounced" || status == "failed" then 3
    else 0
  }

  function Cut(s: string): (r: string)
    ensures r <= s && |r| <= 256 && (|s| <= 256 ==> r == s) && (|s| > 256 ==> |r| == 256)
  {
    if |s| <= LIMIT then s else s[..LIMIT]
  }

  function Lower(s: string): (r: string)
    ensures |r| == |s| && forall i :: 0 <= i < |s| ==>
      r[i] == if 'A' <= s[i] <= 'Z' then "abcdefghijklmnopqrstuvwxyz"[s[i] as int - 'A' as int] else s[i]
  {
    seq(|s|, i requires 0 <= i < |s| => if 'A' <= s[i] <= 'Z' then (s[i] as int + 32) as char else s[i])
  }

  /** The first outbound row with a provider id. */
  function FindSent(sent: seq<SentRow>, id: string): (found: Option<nat>)
    ensures found.Some? ==> found.value < |sent| && sent[found.value].id == id
    ensures found.Some? ==> forall i :: 0 <= i < found.value ==> sent[i].id != id
    ensures found.None? ==> forall i :: 0 <= i < |sent| ==> sent[i].id != id
  {
    if sent == [] then None
    else if sent[0].id == id then Some(0)
    else match FindSent(sent[1..], id) case None => None case Some(i) => Some(i + 1)
  }

  /** The receipt of an event; an event without id has none. */
  function ReceiptOf(p: Provider, e: Event): Option<(Provider, string)> {
    if e.event == "" then None else Some((p, Cut(e.event)))
  }

  predicate Seen(t: Tables, p: Provider, e: Event) {
    ReceiptOf(p, e).Some? && ReceiptOf(p, e).value in t.receipts
  }

  // ------------------------------------------------------------------ what one event does

  /** _status */
  function Reported(t: Tables, e: Event): (Tables, nat)
    requires e.Report?
  {
    match FindSent(t.sent, e.message)
    case None => (t, 0)
    case Some(m) =>
      if e.message == "" || Rank(e.status) < Rank(t.sent[m].status) then (t, 0)
      else (t.(sent := t.sent[m := t.sent[m].(status := e.status)]), 1)
  }

  function DedupeKey(e: Event): string
    requires e.Message?
  {
    Cut(if e.message != "" then e.message else e.event)
  }

  /** _inbound */
  function Arrived(t: Tables, p: Provider, e: Event): (Tables, nat)
    requires e.Message?
  {
    var address := if p == AgentMail then Lower(e.to) else e.to;
    if (p, address) !in t.endpoints then (t, 0)
    else if p == Twilio && e.word in STOP_WORDS then (t.(optOuts := t.optOuts + {e.from}), 1)
    else if p == Twilio && e.word in START_WORDS then (t.(optOuts := t.optOuts - {e.from}), 1)
    else
      var k := (t.endpoints[(p, address)], DedupeKey(e));
      if k in t.received then (t, 0)
      else (t.(received := t.received[k := ReceivedRow(e.from, e.subject, e.body, e.thread, e.parent, e.message)]), 1)
  }

  function Handled(t: Tables, p: Provider, e: Event): (Tables, nat) {
    if Seen(t, p, e) then (t, 0)
    else
      var u := if ReceiptOf(p, e).Some? then t.(receipts := t.receipts + {ReceiptOf(p, e).value}) else t;
      if e.Report? then Reported(u, e) else Arrived(u, p, e)
  }

  /** A list of events in order, with the sum of their counts. */
  function Fold(f: (Tables, Event) -> (Tables, nat), t: Tables, events: seq<Event>): (Tables, nat) {
    if events == [] then (t, 0)
    else
      var before := Fold(f, t, events[..|events| - 1]);
      var one := f(before.0, events[|events| - 1]);
      (one.0, before.1 + one.1)
  }

  function Handler(p: Provider): (Tables, Event) -> (Tables, nat) {
    (t, e) => Handled(t, p, e)
  }

  /** process: the tables after a list of events, and how many of them were new. */
  function Process(t: Tables, p: Provider, events: seq<Event>): (Tables, nat) {
    Fold(Handler(p), t, events)
  }

  lemma {:induction false} ProcessNext(t: Tables, p: Provider, events: seq<Event>, k: nat)
    requires k < |events|
    ensures var before := Process(t, p, events[..k]);
      var one := Handled(before.0, p, events[k]);
      Process(t, p, events[..k + 1]) == (one.0, before.1 + one.1)
  {
    assert events[..k + 1][..k] == events[..k];
  }

  // ------------------------------------------------------------------ delivery reports

  function Max(a: nat, b: nat): nat {
    if a <= b then b else a
  }

  /** The highest rank reported for one message. */
  function Highest(events: seq<Event>, id: string): nat {
    if events == [] then 0
    else
      var last := events[|events| - 1];
      Max(Highest(events[..|events| - 1], id), if last.Report? && last.message == id then Rank(last.status) else 0)
  }

  /** Message m is the only outbound row with the nonblank id. */
  predicate Knows(t: Tables, m: nat, id: string) {
    id != "" && m < |t.sent| && t.sent[m].id == id && forall i :: 0 <= i < |t.sent| && i != m ==> t.sent[i].id != id
  }

  /** Events with the same id are the same event. */
  predicate Consistent(events: seq<Event>) {
    forall i, j :: 0 <= i < |events| && 0 <= j < |events| && events[i].event != ""
      && Cut(events[i].event) == Cut(events[j].event)
      ==> events[i] == events[j]
  }

  lemma {:induction false} HandledKeeps(t: Tables, p: Provider, e: Event, m: nat, id: string)
    requires Knows(t, m, id)
    ensures var u := Handled(t, p, e).0;
      && Knows(u, m, id) && Rank(t.sent[m].status) <= Rank(u.sent[m].status)
      && (Rank(u.sent[m].status) == if !Seen(t, p, e) && e.Report?
        && e.message == id then Max(Rank(t.sent[m].status), Rank(e.status)) else Rank(t.sent[m].status))
  {
    if e.Report? {
      assert FindSent(t.sent, id) == Some(m);
    }
  }

  /** No sequence of reports, in any order and with any redelivery, moves a message back. */
  lemma {:induction false} RankNeverFalls(t: Tables, p: Provider, events: seq<Event>, m: nat, id: string)
    requires Knows(t, m, id)
    ensures var u := Process(t, p, events).0; Knows(u, m, id) && Rank(t.sent[m].status) <= Rank(u.sent[m].status)
  {
    if events != [] {
      RankNeverFalls(t, p, events[..|events| - 1], m, id);
      HandledKeeps(Process(t, p, events[..|events| - 1]).0, p, events[|events| - 1], m, id);
    }
  }

  /**
  The same by the statuses' names: what has bounced or failed stays so, what was delivered is
  not merely sent again, and what was sent does not return to a status before that.
  */
  lemma {:induction false} FinalStatusStays(t: Tables, p: Provider, events: seq<Event>, m: nat, id: string)
    requires Knows(t, m, id)
    ensures var before, u := t.sent[m].status, Process(t, p, events).0;
      && m < |u.sent|
      && (before in {"bounced", "failed"} ==> u.sent[m].status in {"bounced", "failed"})
      && (before == "delivered" ==> u.sent[m].status in {"delivered", "bounced", "failed"})
      && (before == "sent" ==> u.sent[m].status in {"sent", "delivered", "bounced", "failed"})
  {
    RankNeverFalls(t, p, events, m, id);
  }

  /** A first report of something later is taken: sent before delivered before bounced or failed. */
  lemma {:induction false} LaterStatusIsTaken(t: Tables, p: Provider, e: Event, m: nat)
    requires e.Report? && Knows(t, m, e.message) && !Seen(t, p, e)
    requires || (t.sent[m].status == "queued" && e.status in {"sent", "delivered", "bounced", "failed"})
             || (t.sent[m].status == "sent" && e.status in {"delivered", "bounced", "failed"})
             || (t.sent[m].status == "delivered" && e.status in {"bounced", "failed"})
    ensures var (u, n) := Handled(t, p, e); n == 1 && u.sent == t.sent[m := t.sent[m].(status := e.status)]
  {
    assert FindSent(t.sent, e.message) == Some(m);
  }

  /** A report of something earlier, of an unknown message, or seen before changes no message and is not counted. */
  lemma {:induction false} EarlierStatusIsIgnored(t: Tables, p: Provider, e: Event)
    requires e.Report?
    requires || Seen(t, p, e) || e.message == "" || (forall i :: 0 <= i < |t.sent| ==> t.sent[i].id != e.message)
             || (exists m :: 0 <= m < |t.sent| && Knows(t, m, e.message) && Behind(e.status, t.sent[m].status))
    ensures var (u, n) := Handled(t, p, e); n == 0 && u.sent == t.sent
  {
    if m :| 0 <= m < |t.sent| && Knows(t, m, e.message) && Behind(e.status, t.sent[m].status) {
      assert FindSent(t.sent, e.message) == Some(m);
    }
  }

  predicate Behind(reported: string, status: string) {
    || (status == "sent" && reported == "queued")
    || (status == "delivered" && reported in {"queued", "sent"})
    || (status in {"bounced", "failed"} && reported in {"queued", "sent", "delivered"})
  }

  /** The event ids of a list, as receipts. */
  function ReceiptsOf(p: Provider, events: seq<Event>): set<(Provider, string)> {
    set i | 0 <= i < |events| && events[i].event != "" :: (p, Cut(events[i].event))
  }

  /** Exactly the events with an id have receipts afterwards. */
  lemma {:induction false} ReceiptsAdded(t: Tables, p: Provider, events: seq<Event>)
    ensures Process(t, p, events).0.receipts == t.receipts + ReceiptsOf(p, events)
  {
    if events != [] {
      var fewer, last := events[..|events| - 1], events[|events| - 1];
      ReceiptsAdded(t, p, fewer);
      HandledReceipts(Process(t, p, fewer).0, p, last);
      var one := if ReceiptOf(p, last).Some? then {ReceiptOf(p, last).value} else {};
      forall k | k in ReceiptsOf(p, events) ensures k in ReceiptsOf(p, fewer) + one {
        var i :| 0 <= i < |events| && events[i].event != "" && k == (p, Cut(events[i].event));
        if i < |fewer| { assert fewer[i] == events[i]; }
      }
      forall k | k in ReceiptsOf(p, fewer) + one ensures k in ReceiptsOf(p, events) {
        if k in ReceiptsOf(p, fewer) {
          var i :| 0 <= i < |fewer| && fewer[i].event != "" && k == (p, Cut(fewer[i].event));
          assert events[i].event != "" && k == (p, Cut(events[i].event));
        } else {
          assert events[|events| - 1].event != "" && k == (p, Cut(events[|events| - 1].event));
        }
      }
    }
  }

  lemma {:induction false} HandledReceipts(t: Tables, p: Provider, e: Event)
    ensures Handled(t, p, e).0.receipts == t.receipts + (if ReceiptOf(p, e).Some? then {ReceiptOf(p, e).value} else {})
  {
  }

  /** An event is seen exactly when it has an id, and one before it had the same first 256 characters. */
  lemma {:induction false} SeenIff(t: Tables, p: Provider, events: seq<Event>, e: Event)
    requires t.receipts == {}
    ensures Seen(Process(t, p, events).0, p, e) <==>
      e.event != "" && exists i :: 0 <= i < |events| && events[i].event != "" && SameStart(events[i].event, e.event)
  {
    ReceiptsAdded(t, p, events);
    forall i | 0 <= i < |events| ensures Cut(events[i].event) == Cut(e.event) <==> SameStart(events[i].event, e.event) {
      CutsAgree(events[i].event, e.event);
    }
  }

  /** Equal, or equal in their first 256 characters. */
  predicate SameStart(a: string, b: string) {
    a == b || (|a| >= 256 && |b| >= 256 && a[..256] == b[..256])
  }

  lemma {:induction false} CutsAgree(a: string, b: string)
    ensures Cut(a) == Cut(b) <==> SameStart(a, b)
  {
  }

  /** Redelivering whole webhooks whose events carry ids changes nothing and counts nothing. */
  lemma {:induction false} RedeliveryIsNoOp(t: Tables, p: Provider, events: seq<Event>, again: seq<Event>)
    requires forall i :: 0 <= i < |again| ==> again[i] in events && again[i].event != ""
    ensures var u := Process(t, p, events).0; Process(u, p, again) == (u, 0)
  {
    if again != [] {
      RedeliveryIsNoOp(t, p, events, again[..|again| - 1]);
      ReceiptsAdded(t, p, events);
      var i :| 0 <= i < |events| && events[i] == again[|again| - 1];
      assert (p, Cut(events[i].event)) in ReceiptsOf(p, events);
    }
  }

  /** A report that was seen before it is processed again adds nothing to the highest rank. */
  lemma {:induction false} RepeatsAddNothing(t: Tables, p: Provider, events: seq<Event>, id: string)
    requires |events| > 0 && Consistent(events) && forall i :: 0 <= i < |events| ==> !Seen(t, p, events[i])
    requires Seen(Process(t, p, events[..|events| - 1]).0, p, events[|events| - 1])
    ensures Highest(events, id) == Highest(events[..|events| - 1], id)
  {
    var fewer, last := events[..|events| - 1], events[|events| - 1];
    ReceiptsAdded(t, p, fewer);
    assert !Seen(t, p, events[|events| - 1]);
    assert (p, Cut(last.event)) in ReceiptsOf(p, fewer);
    var i :| 0 <= i < |fewer| && fewer[i].event != "" && (p, Cut(last.event)) == (p, Cut(fewer[i].event));
    assert events[i] == fewer[i] == events[|events| - 1];
    if last.Report? && last.message == id { HighestCovers(fewer, id, i); }
  }

  /**
  For a message whose provider id is saved, reports end at the highest rank, in any order and with any redelivery.
  */
  lemma {:induction false} ReportsEndAtHighest(t: Tables, p: Provider, events: seq<Event>, m: nat, id: string)
    requires Knows(t, m, id) && Consistent(events) && forall i :: 0 <= i < |events| ==> !Seen(t, p, events[i])
    ensures var u := Process(t, p, events).0;
      Knows(u, m, id) && Rank(u.sent[m].status) == Max(Rank(t.sent[m].status), Highest(events, id))
  {
    if events != [] {
      var fewer, last := events[..|events| - 1], events[|events| - 1];
      forall i | 0 <= i < |fewer| ensures !Seen(t, p, fewer[i]) { assert !Seen(t, p, events[i]); }
      ReportsEndAtHighest(t, p, fewer, m, id);
      var before := Process(t, p, fewer).0;
      HandledKeeps(before, p, last, m, id);
      if Seen(before, p, last) { RepeatsAddNothing(t, p, events, id); }
    }
  }

  lemma {:induction false} HighestCovers(events: seq<Event>, id: string, i: nat)
    requires i < |events| && events[i].Report? && events[i].message == id
    ensures Rank(events[i].status) <= Highest(events, id)
  {
    if i < |events| - 1 { HighestCovers(events[..|events| - 1], id, i); }
  }

  /** Two lists of the same reports, reordered and repeated at will, leave a message at the same rank. */
  lemma {:induction false} OrderDoesNotMatter(t: Tables, p: Provider, events: seq<Event>, others: seq<Event>, m: nat,
      id: string)
    requires Knows(t, m, id) && Consistent(events) && Consistent(others)
    requires forall i :: 0 <= i < |events| ==> !Seen(t, p, events[i]) && events[i] in others
    requires forall i :: 0 <= i < |others| ==> !Seen(t, p, others[i]) && others[i] in events
    ensures var u, v := Process(t, p, events).0, Process(t, p, others).0;
      m < |u.sent| && m < |v.sent| && Rank(u.sent[m].status) == Rank(v.sent[m].status)
  {
    ReportsEndAtHighest(t, p, events, m, id);
    ReportsEndAtHighest(t, p, others, m, id);
    HighestOfSubset(events, others, id);
    HighestOfSubset(others, events, id);
  }

  lemma {:induction false} HighestOfSubset(events: seq<Event>, others: seq<Event>, id: string)
    requires forall i :: 0 <= i < |events| ==> events[i] in others
    ensures Highest(events, id) <= Highest(others, id)
  {
    if events != [] {
      HighestOfSubset(events[..|events| - 1], others, id);
      var last := events[|events| - 1];
      var j :| 0 <= j < |others| && others[j] == last;
      if last.Report? && last.message == id { HighestCovers(others, id, j); }
    }
  }

  /** At the top rank the order does matter for the status itself: the last of bounced and failed stays. */
  lemma {:induction false} LastOfEqualRankStays(t: Tables, p: Provider, m: nat, id: string)
    requires Knows(t, m, id) && (p, "1") !in t.receipts && (p, "2") !in t.receipts
    ensures var bounced, failed := Report("1", id, "bounced"), Report("2", id, "failed");
      var u, v := Process(t, p, [bounced, failed]).0, Process(t, p, [failed, bounced]).0;
      m < |u.sent| && m < |v.sent| && u.sent[m].status == "failed" && v.sent[m].status == "bounced"
  {
    var bounced, failed := Report("1", id, "bounced"), Report("2", id, "failed");
    TopRankOverwrites(t, p, bounced, failed, m, id);
    TopRankOverwrites(t, p, failed, bounced, m, id);
  }

  lemma {:induction false} TopRankOverwrites(t: Tables, p: Provider, a: Event, b: Event, m: nat, id: string)
    requires Knows(t, m, id) && a.Report? && b.Report? && a.message == b.message == id
      && Rank(a.status) == Rank(b.status) == 3
    requires |a.event| == |b.event| == 1 && a.event != b.event && !Seen(t, p, a) && !Seen(t, p, b)
    ensures var u := Process(t, p, [a, b]).0; Knows(u, m, id) && u.sent[m].status == b.status
  {
    assert [a, b][..0] == [] && [a, b][..2] == [a, b];
    ProcessNext(t, p, [a, b], 0);
    ProcessNext(t, p, [a, b], 1);
    TopReport(t, p, a, m);
    var u := Handled(t, p, a).0;
    assert !Seen(u, p, b);
    TopReport(u, p, b, m);
  }

  lemma {:induction false} TopReport(t: Tables, p: Provider, e: Event, m: nat)
    requires e.Report? && Knows(t, m, e.message) && Rank(e.status) == 3 && !Seen(t, p, e)
    ensures var u := Handled(t, p, e).0;
      && Knows(u, m, e.message) && u.sent[m].status == e.status
      && u.receipts == t.receipts + (if ReceiptOf(p, e).Some? then {ReceiptOf(p, e).value} else {})
  {
    assert FindSent(t.sent, e.message) == Some(m);
  }

  /** Several webhook calls are one call with all their events. */
  lemma {:induction false} CallsCompose(t: Tables, p: Provider, first: seq<Event>, second: seq<Event>)
    ensures var (u, n) := Process(t, p, first);
      var (v, k) := Process(u, p, second);
      Process(t, p, first + second) == (v, n + k)
  {
    hide Handler, Handled, Fold;
    FoldAppend(Handler(p), t, first, second);
  }

  lemma {:induction false} FoldAppend(f: (Tables, Event) -> (Tables, nat), t: Tables,
      first: seq<Event>, second: seq<Event>)
    ensures var (u, n) := Fold(f, t, first);
      var (v, k) := Fold(f, u, second);
      Fold(f, t, first + second) == (v, n + k)
  {
    if second == [] { assert first + second == first; }
    else {
      assert (first + second)[..|first + second| - 1] == first + second[..|second| - 1];
      FoldAppend(f, t, first, second[..|second| - 1]);
    }
  }

  /**
  A report that arrives before the provider id of its message is saved is lost: it changes no
  message, and after the id is saved, and whatever else was processed, it still changes nothing.
  */
  lemma {:induction false} EarlyReportIsLost(t: Tables, p: Provider, e: Event, late: Tables, events: seq<Event>)
    requires e.Report? && e.event != "" && FindSent(t.sent, e.message).None?
    requires Handled(t, p, e).0.receipts <= late.receipts
    ensures Handled(t, p, e).0.sent == t.sent
    ensures var u := Process(late, p, events).0; Handled(u, p, e) == (u, 0)
  {
    ReceiptsAdded(late, p, events);
  }

  /** A report with an id raises its message to its rank unless it was seen before, or the message is not known. */
  lemma {:induction false} ReportTakesEffectIff(t: Tables, p: Provider, e: Event, m: nat)
    requires e.Report? && Knows(t, m, e.message) && Rank(t.sent[m].status) < Rank(e.status)
    ensures var u := Handled(t, p, e).0; m < |u.sent| && (u.sent[m].status == e.status <==> !Seen(t, p, e))
  {
    assert FindSent(t.sent, e.message) == Some(m);
  }

  // ------------------------------------------------------------------ inbound messages

  /** A stored message never changes, and a message whose dedupe key is stored is not stored again. */
  lemma {:induction false} ReceivedOnce(t: Tables, p: Provider, events: seq<Event>, k: (nat, string))
    requires k in t.received
    ensures var u := Process(t, p, events).0; k in u.received && u.received[k] == t.received[k]
  {
    if events != [] {
      ReceivedOnce(t, p, events[..|events| - 1], k);
    }
  }

  /** How many events stored something: nothing is counted that left no trace, and no new row goes uncounted. */
  lemma {:induction false} CountCoversNewRows(t: Tables, p: Provider, events: seq<Event>)
    ensures var (u, applied) := Process(t, p, events);
      |u.received| <= |t.received| + applied && applied <= |events|
  {
    if events != [] { CountCoversNewRows(t, p, events[..|events| - 1]); }
  }

  // ------------------------------------------------------------------ keywords

  /** The message reaches an active phone number. */
  predicate Routed(t: Tables, e: Event) {
    e.Message? && (Twilio, e.to) in t.endpoints
  }

  /** Whether a phone number is opted out after a list of messages, by the last keyword it sent. */
  function OptedOut(t: Tables, events: seq<Event>, from: string): bool {
    if events == [] then from in t.optOuts
    else
      var last := events[|events| - 1];
      var mine := Routed(t, last) && last.from == from;
      if mine && last.word in {"stop", "stopall", "unsubscribe", "cancel", "end", "quit"} then true
      else if mine && last.word in {"start", "unstop", "yes"} then false
      else OptedOut(t, events[..|events| - 1], from)
  }

  /** Every event of the list is new: none was seen before, and no two share an id. */
  predicate AllNew(t: Tables, p: Provider, events: seq<Event>) {
    && (forall i :: 0 <= i < |events| ==> !Seen(t, p, events[i]))
    && (forall i, j :: 0 <= i < j < |events| && events[i].event != "" && events[j].event != "" ==>
      !SameStart(events[i].event, events[j].event))
  }

  lemma {:induction false} NewAgain(t: Tables, p: Provider, events: seq<Event>)
    requires events != [] && AllNew(t, p, events)
    ensures var fewer, last := events[..|events| - 1], events[|events| - 1];
      AllNew(t, p, fewer) && !Seen(Process(t, p, fewer).0, p, last)
  {
    var fewer, last := events[..|events| - 1], events[|events| - 1];
    ReceiptsAdded(t, p, fewer);
    assert !Seen(t, p, events[|events| - 1]);
    forall i | 0 <= i < |fewer| ensures !Seen(t, p, fewer[i]) { assert !Seen(t, p, events[i]); }
    forall i | 0 <= i < |fewer| && fewer[i].event != "" && last.event != ""
      ensures Cut(fewer[i].event) != Cut(last.event)
    {
      CutsAgree(events[i].event, last.event);
    }
  }

  /** A number is opted out exactly by the last keyword it sent, STOP or START; email changes no opt-out. */
  lemma {:induction false} LastKeywordCounts(t: Tables, p: Provider, events: seq<Event>, from: string)
    requires AllNew(t, p, events)
    ensures var u := Process(t, p, events).0;
      && u.endpoints == t.endpoints
      && (from in u.optOuts <==> if p == Twilio then OptedOut(t, events, from) else from in t.optOuts)
  {
    if events != [] {
      var fewer, last := events[..|events| - 1], events[|events| - 1];
      NewAgain(t, p, events);
      LastKeywordCounts(t, p, fewer, from);
      KeywordStep(Process(t, p, fewer).0, p, last, from);
      assert Process(t, p, events).0 == Handled(Process(t, p, fewer).0, p, last).0;
      hide Handled, AllNew, Seen;
    }
  }

  lemma {:induction false} KeywordStep(t: Tables, p: Provider, e: Event, from: string)
    requires !Seen(t, p, e)
    ensures var u := Handled(t, p, e).0;
      && u.endpoints == t.endpoints
      && (from in u.optOuts <==>
        if p == Twilio && Routed(t, e) && e.from == from && e.word in STOP_WORDS then true
        else if p == Twilio && Routed(t, e) && e.from == from && e.word in START_WORDS then false
        else from in t.optOuts)
  {
  }

  /** Neither STOP nor START, or not a text message. */
  predicate NoKeyword(p: Provider, e: Event) {
    e.Message? && (p == AgentMail || e.word !in {"stop", "stopall", "unsubscribe", "cancel", "end", "quit", "start",
                                                  "unstop", "yes"})
  }

  /** The key of a message: its provider's id, or else the id of its event, up to 256 characters. */
  predicate KeyOf(k: string, e: Event) {
    e.Message? && var id := if e.message == "" then e.event else e.message;
      k <= id && |k| == if |id| <= 256 then |id| else 256
  }

  /** The row holds this message. */
  predicate Holds(row: ReceivedRow, e: Event) {
    && e.Message? && row.from == e.from && row.subject == e.subject && row.body == e.body
    && row.thread == e.thread && row.parent == e.parent && row.id == e.message
  }

  /** The place of a message: the endpoint of its address, in lower case for email, and its key. */
  predicate BelongsAt(t: Tables, p: Provider, e: Event, k: (nat, string)) {
    && e.Message? && KeyOf(k.1, e)
    && var to := if p == AgentMail then Lower(e.to) else e.to;
       (p, to) in t.endpoints && t.endpoints[(p, to)] == k.0
  }

  /** A new message to an active address, which is no keyword, is stored in its place unless that is taken. */
  lemma {:induction false} MessageIsStored(t: Tables, p: Provider, e: Event, k: (nat, string))
    requires NoKeyword(p, e) && !Seen(t, p, e) && BelongsAt(t, p, e, k)
    ensures var (u, n) := Handled(t, p, e);
      if k in t.received then u.received == t.received && n == 0
      else n == 1 && u.received.Keys == t.received.Keys + {k} && Holds(u.received[k], e)
  {
    assert k.1 == DedupeKey(e);
  }

  /** And nothing else is stored: every new row holds a message of the list, in its place. */
  lemma {:induction false} OnlyMessagesAreStored(t: Tables, p: Provider, events: seq<Event>, k: (nat, string))
    requires k in Process(t, p, events).0.received && k !in t.received
    ensures var row := Process(t, p, events).0.received[k];
      exists i :: 0 <= i < |events| && NoKeyword(p, events[i]) && BelongsAt(t, p, events[i], k) && Holds(row, events[i])
  {
    if events != [] {
      var fewer := events[..|events| - 1];
      EndpointsStay(t, p, fewer);
      if k in Process(t, p, fewer).0.received {
        ReceivedStays(Process(t, p, fewer).0, p, events[|events| - 1], k);
        OnlyMessagesAreStored(t, p, fewer, k);
        var i :| 0 <= i < |fewer| && NoKeyword(p, fewer[i]) && BelongsAt(t, p, fewer[i], k)
          && Holds(Process(t, p, fewer).0.received[k], fewer[i]);
        assert events[i] == fewer[i];
      } else {
        assert BelongsAt(t, p, events[|events| - 1], k);
      }
    }
  }

  lemma {:induction false} ReceivedStays(t: Tables, p: Provider, e: Event, k: (nat, string))
    requires k in t.received
    ensures var u := Handled(t, p, e).0; k in u.received && u.received[k] == t.received[k]
  {
  }

  lemma {:induction false} EndpointsStay(t: Tables, p: Provider, events: seq<Event>)
    ensures Process(t, p, events).0.endpoints == t.endpoints
  {
    if events != [] { EndpointsStay(t, p, events[..|events| - 1]); }
  }

  // ------------------------------------------------------------------ the code

  class WebhookProcessor {
    var receipts: set<(Provider, string)>
    const endpoints: map<(Provider, string), nat>
    var sent: seq<SentRow>
    var received: map<(nat, string), ReceivedRow>
    var optOuts: set<string>

    constructor (t: Tables)
      ensures Now() == t
    {
      receipts, endpoints, sent, received, optOuts := t.receipts, t.endpoints, t.sent, t.received, t.optOuts;
    }

    function Now(): Tables
      reads this
    {
      Tables(receipts, endpoints, sent, received, optOuts)
    }

    /** _first_time: the unique constraint tells a second delivery. */
    method FirstTime(p: Provider, e: Event) returns (first: bool)
      modifies this`receipts
      ensures first <==> !Seen(old(Now()), p, e)
      ensures var used := if ReceiptOf(p, e).Some? then {ReceiptOf(p, e).value} else {};
        Now() == old(Now()).(receipts := old(receipts) + used)
    {
      if e.event == "" { return true; }
      var k := (p, Cut(e.event));
      if k in receipts { return false; }
      receipts := receipts + {k};
      first := true;
    }

    method Status(e: Event) returns (applied: nat)
      requires e.Report?
      modifies this`sent
      ensures (Now(), applied) == Reported(old(Now()), e)
    {
      if e.message == "" { return 0; }
      var found := FindSent(sent, e.message);
      if found.None? { return 0; }
      var m := found.value;
      if Rank(e.status) < Rank(sent[m].status) { return 0; }
      sent := sent[m := sent[m].(status := e.status)];
      applied := 1;
    }

    method Inbound(p: Provider, e: Event) returns (applied: nat)
      requires e.Message?
      modifies this`received, this`optOuts
      ensures (Now(), applied) == Arrived(old(Now()), p, e)
    {
      var address := e.to;
      if p == AgentMail { address := Lower(e.to); }
      if (p, address) !in endpoints { return 0; }
      if p == Twilio {
        if e.word in STOP_WORDS {
          optOuts := optOuts + {e.from};
          return 1;
        }
        if e.word in START_WORDS {
          optOuts := optOuts - {e.from};
          return 1;
        }
      }
      var k := (endpoints[(p, address)], DedupeKey(e));
      if k in received { return 0; }
      received := received[k := ReceivedRow(e.from, e.subject, e.body, e.thread, e.parent, e.message)];
      applied := 1;
    }

    /** The transaction around one event. */
    method HandleOne(p: Provider, e: Event) returns (applied: nat)
      modifies this
      ensures (Now(), applied) == Handled(old(Now()), p, e)
    {
      var first := FirstTime(p, e);
      if !first {
        assert receipts == old(receipts);
        return 0;
      }
      assert ReceiptOf(p, e).None? ==> receipts == old(receipts);
      if e.Message? { applied := Inbound(p, e); }
      else { applied := Status(e); }
    }

    /** process */
    method ProcessAll(p: Provider, events: seq<Event>) returns (applied: nat)
      modifies this
      ensures (Now(), applied) == Process(old(Now()), p, events)
    {
      applied := 0;
      ghost var start := Now();
      for k := 0 to |events|
        invariant (Now(), applied) == Process(start, p, events[..k])
      {
        ProcessNext(start, p, events, k);
        var more := HandleOne(p, events[k]);
        applied := applied + more;
      }
      assert events[..|events|] == events;
    }
  }
}
