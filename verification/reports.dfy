/**
Overlapping webhook requests (inbound.py). Each event is handled in a transaction of its
own, which takes the receipt of the event, reads the row, compares the statuses, and
later saves. Nothing locks the row in between; only events with the same id wait for
each other. `Inbound` is what this comes to when requests do not overlap.
*/
module Reports {
  import opened Wrappers
  import Runs
  import opened Inbound

  /**
  An open transaction of `_status`: the row it will save, if it found one not yet further on, and the status it read.
  */
  datatype Tx = Tx(provider: Provider, report: Event, target: Option<nat>, read: string)

  /** The tables, the open transactions, and as history the reports committed so far. */
  datatype Desk = Desk(tables: Tables, open: map<nat, Tx>, saved: seq<Event>)

  /**
  `Queue` adds an outbound row, `Deliver` is the save of a delivery: status and provider id. `Arrive` is an inbound
  message.
  */
  datatype Action =
    | Open(call: nat, provider: Provider, report: Event)
    | Save(call: nat)
    | Abort(call: nat)
    | Arrive(provider: Provider, event: Event)
    | Queue
    | Deliver(row: nat, id: string)

  /** Another transaction holds the receipt of this event: its insert waits. */
  predicate Waits(s: Desk, p: Provider, e: Event) {
    && ReceiptOf(p, e).Some?
    && exists b :: b in s.open && ReceiptOf(s.open[b].provider, s.open[b].report) == ReceiptOf(p, e)
  }

  predicate Enabled(s: Desk, a: Action) {
    match a
    case Open(c, p, e) => c !in s.open && e.Report? && !Seen(s.tables, p, e) && !Waits(s, p, e)
    case Save(c) => c in s.open
    case Abort(c) => c in s.open
    case Arrive(p, e) => e.Message? && !Waits(s, p, e)
    case Queue => true
    case Deliver(m, _) => m < |s.tables.sent|
  }

  /** The read half of `_status`. */
  function Opened(t: Tables, p: Provider, e: Event): Tx
    requires e.Report?
  {
    match FindSent(t.sent, e.message)
    case None => Tx(p, e, None, "")
    case Some(m) =>
      Tx(p, e, if e.message == "" || Rank(e.status) < Rank(t.sent[m].status) then None else Some(m), t.sent[m].status)
  }

  /** The save half: the receipt and the status become visible together. */
  function Committed(t: Tables, x: Tx): Tables {
    var sent := if x.report.Report? && x.target.Some? && x.target.value < |t.sent|
                then t.sent[x.target.value := t.sent[x.target.value].(status := x.report.status)]
                else t.sent;
    var receipt := ReceiptOf(x.provider, x.report);
    t.(receipts := if receipt.Some? then t.receipts + {receipt.value} else t.receipts, sent := sent)
  }

  function Apply(s: Desk, a: Action): Desk
    requires Enabled(s, a)
  {
    match a
    case Open(c, p, e) => s.(open := s.open[c := Opened(s.tables, p, e)])
    case Save(c) => Desk(Committed(s.tables, s.open[c]), s.open - {c}, s.saved + [s.open[c].report])
    case Abort(c) => s.(open := s.open - {c})
    case Arrive(p, e) => s.(tables := Handled(s.tables, p, e).0)
    case Queue => s.(tables := s.tables.(sent := s.tables.sent + [SentRow("", "queued")]))
    case Deliver(m, id) => s.(tables := s.tables.(sent := s.tables.sent[m := SentRow(id, "sent")]))
  }

  function Next(s: Desk, a: Action): Option<Desk> {
    if Enabled(s, a) then Some(Apply(s, a)) else None
  }

  function Exec(s: Desk, actions: seq<Action>): Option<Desk> {
    Runs.Exec(Next, s, actions)
  }

  /** Open and save with nothing in between is the serial handling of the event. */
  lemma {:induction false} AloneIsHandled(s: Desk, c: nat, p: Provider, e: Event)
    requires Enabled(s, Open(c, p, e))
    ensures Enabled(Apply(s, Open(c, p, e)), Save(c))
    ensures Apply(Apply(s, Open(c, p, e)), Save(c)) == Desk(Handled(s.tables, p, e).0, s.open, s.saved + [e])
  {
    var u := Apply(Apply(s, Open(c, p, e)), Save(c));
    assert s.open[c := Opened(s.tables, p, e)] - {c} == s.open;
    assert u.tables == Handled(s.tables, p, e).0;
  }

  // ------------------------------------------------------------------ each event once

  /** Open transactions hold receipts of their own, which nobody has committed yet. */
  ghost predicate OpenApart(s: Desk) {
    && (forall c :: c in s.open ==> !Seen(s.tables, s.open[c].provider, s.open[c].report))
    && (forall b, c :: b in s.open && c in s.open && b != c && ReceiptAt(s, b).Some? ==>
      ReceiptAt(s, b) != ReceiptAt(s, c))
  }

  /** The receipt that a transaction holds: none for an event without id. */
  function ReceiptAt(s: Desk, c: nat): Option<(Provider, string)>
    requires c in s.open
  {
    ReceiptOf(s.open[c].provider, s.open[c].report)
  }

  lemma {:induction false} StepKeepsApart(s: Desk, a: Action)
    requires OpenApart(s) && Enabled(s, a)
    ensures OpenApart(Apply(s, a)) && s.tables.receipts <= Apply(s, a).tables.receipts
  {
    hide Reported, Arrived, Opened, Committed;
    if a.Open? { OpenedFor(s.tables, a.provider, a.report); }
    if a.Save? { CommittedReceipts(s.tables, s.open[a.call]); }
    if a.Arrive? { HandledReceipts(s.tables, a.provider, a.event); }
  }

  lemma {:induction false} OpenedFor(t: Tables, p: Provider, e: Event)
    requires e.Report?
    ensures Opened(t, p, e).provider == p && Opened(t, p, e).report == e
  {
  }

  lemma {:induction false} CommittedReceipts(t: Tables, x: Tx)
    ensures var receipt := ReceiptOf(x.provider, x.report);
      Committed(t, x).receipts == if receipt.Some? then t.receipts + {receipt.value} else t.receipts
  {
  }

  /** Along a run receipts stay, so what one transaction has saved no later one saves again. */
  lemma {:induction false} EventIsSavedOnce(s: Desk, actions: seq<Action>, i: nat, j: nat)
    requires OpenApart(s) && Exec(s, actions).Some? && i < j < |actions| && actions[i].Save? && actions[j].Save?
    ensures Exec(s, actions[..i]).Some? && Exec(s, actions[..j]).Some?
    ensures var t, u := Exec(s, actions[..i]).value, Exec(s, actions[..j]).value;
      && actions[i].call in t.open && actions[j].call in u.open
      && (ReceiptAt(t, actions[i].call).Some? ==> ReceiptAt(t, actions[i].call) != ReceiptAt(u, actions[j].call))
  {
    PrefixRuns(s, actions, j + 1);
    PrefixRuns(s, actions[..j + 1], j);
    assert actions[..j + 1][..j] == actions[..j];
    SavedStays(s, actions[..j], i);
    assert actions[..j][..i] == actions[..i];
  }

  lemma {:induction false} PrefixRuns(s: Desk, actions: seq<Action>, k: nat)
    requires Exec(s, actions).Some? && k <= |actions|
    ensures Exec(s, actions[..k]).Some?
  {
    if k == |actions| { assert actions[..k] == actions; }
    else {
      assert actions[..|actions| - 1][..k] == actions[..k];
      PrefixRuns(s, actions[..|actions| - 1], k);
    }
  }

  lemma {:induction false} RunKeepsApart(s: Desk, actions: seq<Action>)
    requires OpenApart(s) && Exec(s, actions).Some?
    ensures OpenApart(Exec(s, actions).value)
  {
    if actions != [] {
      RunKeepsApart(s, actions[..|actions| - 1]);
      StepKeepsApart(Exec(s, actions[..|actions| - 1]).value, actions[|actions| - 1]);
    }
  }

  lemma {:induction false} SavedStays(s: Desk, actions: seq<Action>, i: nat)
    requires OpenApart(s) && Exec(s, actions).Some? && i < |actions| && actions[i].Save?
    ensures Exec(s, actions[..i]).Some? && actions[i].call in Exec(s, actions[..i]).value.open
    ensures OpenApart(Exec(s, actions).value)
    ensures var receipt := ReceiptAt(Exec(s, actions[..i]).value, actions[i].call);
      receipt.Some? ==> receipt.value in Exec(s, actions).value.tables.receipts
  {
    var last := |actions| - 1;
    RunKeepsApart(s, actions);
    RunKeepsApart(s, actions[..last]);
    var before := Exec(s, actions[..last]).value;
    if i < last {
      SavedStays(s, actions[..last], i);
      assert actions[..last][..i] == actions[..i];
      StepKeepsApart(before, actions[last]);
    } else {
      CommittedReceipts(before.tables, before.open[actions[last].call]);
    }
  }


  /** The transaction compared its report with a lower rank than the row has by now. */
  predicate StaleSave(s: Desk, a: Action, m: nat)
    requires m < |s.tables.sent|
  {
    && a.Save? && a.call in s.open && s.open[a.call].report.Report? && s.open[a.call].target == Some(m)
    && Rank(s.open[a.call].read) <= Rank(s.open[a.call].report.status) < Rank(s.tables.sent[m].status)
  }

  /** A delivery saves "sent" over a report. */
  predicate LateDelivery(s: Desk, a: Action, m: nat)
    requires m < |s.tables.sent|
  {
    a.Deliver? && a.row == m && Rank(s.tables.sent[m].status) > 1
  }

  /** What every open transaction once saw. */
  ghost predicate Compared(s: Desk) {
    forall c :: c in s.open ==>
      var x := s.open[c];
      x.report.Report? && (x.target.Some? ==> x.target.value < |s.tables.sent| && Rank(x.read) <= Rank(x.report.status))
  }

  lemma {:induction false} RunKeepsCompared(s: Desk, actions: seq<Action>)
    requires Compared(s) && Exec(s, actions).Some?
    ensures Compared(Exec(s, actions).value)
  {
    if actions != [] {
      RunKeepsCompared(s, actions[..|actions| - 1]);
    }
  }

  /** However requests overlap, the rank of a message falls exactly at a stale save or a late delivery. */
  lemma {:induction false} RankFallsIff(s: Desk, a: Action, m: nat)
    requires Compared(s) && Enabled(s, a) && m < |s.tables.sent|
    ensures m < |Apply(s, a).tables.sent|
    ensures Rank(Apply(s, a).tables.sent[m].status) < Rank(s.tables.sent[m].status) <==>
      StaleSave(s, a, m) || LateDelivery(s, a, m)
  {
  }

  /**
  Two reports about one known message, neither behind its status, handled at once: the earlier one is saved over the
  later.
  */
  lemma {:induction false} OverlapLowersRank(s: Desk, p: Provider, m: nat, c: nat, d: nat, e: Event, f: Event)
    returns (acts: seq<Action>, mid: Desk, t: Desk)
    requires c != d && Enabled(s, Open(c, p, e)) && Enabled(s, Open(d, p, f)) && ReceiptOf(p, e) != ReceiptOf(p, f)
    requires Knows(s.tables, m, e.message) && f.message == e.message
    requires Rank(s.tables.sent[m].status) <= Rank(e.status) < Rank(f.status)
    ensures |acts| == 4 && Exec(s, acts[..3]) == Some(mid) && Exec(s, acts) == Some(t)
    ensures m < |mid.tables.sent| && mid.tables.sent[m].status == f.status && m < |t.tables.sent|
      && t.tables.sent[m].status == e.status
  {
    assert FindSent(s.tables.sent, e.message) == Some(m);
    acts, t := [], s;
    assert Exec(s, acts) == Some(t);
    hide Runs.Exec;
    acts, t := Runs.Then(Next, s, acts, Open(c, p, e), t);
    assert Enabled(t, Open(d, p, f));
    acts, t := Runs.Then(Next, s, acts, Open(d, p, f), t);
    acts, t := Runs.Then(Next, s, acts, Save(d), t);
    mid := t;
    var three := acts;
    acts, t := Runs.Then(Next, s, acts, Save(c), t);
    assert acts[..3] == three;
  }

  // ------------------------------------------------------------------ reports of one message one at a time

  /** At most one open transaction is going to save row m. */
  ghost predicate OneSaver(s: Desk, m: nat) {
    forall a, b :: a in s.open && b in s.open && a != b && s.open[a].target == Some(m) ==> s.open[b].target != Some(m)
  }

  ghost predicate OneSaverThroughout(s: Desk, actions: seq<Action>, m: nat) {
    forall k :: 0 <= k < |actions| ==> Exec(s, actions[..k]).Some? ==> OneSaver(Exec(s, actions[..k]).value, m)
  }

  /** Message m is delivered already, and no other message gets its provider id. */
  predicate NoDelivery(actions: seq<Action>, m: nat, id: string) {
    forall a :: a in actions && a.Deliver? ==> a.row != m && a.id != id
  }

  /** Who will save row m read what it holds now; whoever will not, is behind it. */
  ghost predicate Fresh(s: Desk, m: nat, id: string) {
    && Knows(s.tables, m, id)
    && forall c :: c in s.open ==>
      var x := s.open[c];
      && x.report.Report?
      && (x.target.Some? ==> x.target.value < |s.tables.sent|)
      && (x.target == Some(m) ==>
        x.report.message == id && x.read == s.tables.sent[m].status && Rank(x.read) <= Rank(x.report.status))
      && (x.report.message == id && x.target != Some(m) ==> Rank(x.report.status) < Rank(s.tables.sent[m].status))
  }

  lemma {:induction false} OpenKeepsFresh(s: Desk, a: Action, m: nat, id: string)
    requires Fresh(s, m, id) && Enabled(s, a) && a.Open?
    ensures Fresh(Apply(s, a), m, id) && Apply(s, a).tables == s.tables && Apply(s, a).saved == s.saved
  {
    if a.report.message == id { assert FindSent(s.tables.sent, id) == Some(m); }
  }

  lemma {:induction false} SaveKeepsFresh(s: Desk, a: Action, m: nat, id: string)
    requires Fresh(s, m, id) && OneSaver(s, m) && Enabled(s, a) && a.Save?
    ensures Fresh(Apply(s, a), m, id)
    ensures var e := s.open[a.call].report;
      && Apply(s, a).saved == s.saved + [e]
      && Rank(Apply(s, a).tables.sent[m].status)
         == Max(Rank(s.tables.sent[m].status), if e.Report? && e.message == id then Rank(e.status) else 0)
  {
  }

  lemma {:induction false} OthersKeepFresh(s: Desk, a: Action, m: nat, id: string)
    requires Fresh(s, m, id) && Enabled(s, a) && !a.Open? && !a.Save? && (a.Deliver? ==> a.row != m && a.id != id)
    ensures Fresh(Apply(s, a), m, id) && Apply(s, a).saved == s.saved && Apply(s, a).tables.sent[m] == s.tables.sent[m]
  {
  }

  /**
  Whatever else is handled at once, as long as no two transactions are about to save one
  message, its rank ends at the highest of its first rank and the reports committed for it.
  */
  lemma {:induction false} SerialReportsEndAtHighest(s: Desk, actions: seq<Action>, m: nat, id: string)
    requires Fresh(s, m, id) && s.saved == [] && Exec(s, actions).Some? && OneSaverThroughout(s, actions, m)
      && NoDelivery(actions, m, id)
    ensures var t := Exec(s, actions).value;
      Fresh(t, m, id) && Rank(t.tables.sent[m].status) == Max(Rank(s.tables.sent[m].status), Highest(t.saved, id))
  {
    if actions != [] {
      var k := |actions| - 1;
      assert forall j :: 0 <= j < k ==> actions[..k][..j] == actions[..j];
      SerialReportsEndAtHighest(s, actions[..k], m, id);
      var t := Exec(s, actions[..k]).value;
      assert OneSaver(t, m) && actions[k] in actions;
      hide OneSaverThroughout, Fresh, Enabled, OneSaver, Rank;
      if actions[k].Open? { OpenKeepsFresh(t, actions[k], m, id); }
      else if actions[k].Save? {
        SaveKeepsFresh(t, actions[k], m, id);
        HighestNext(t.saved, t.open[actions[k].call].report, id);
      }
      else { OthersKeepFresh(t, actions[k], m, id); }
    }
  }

  /** So at no point of such a run is the rank above the one at its end. */
  lemma {:induction false} SerialRankNeverFalls(s: Desk, actions: seq<Action>, j: nat, m: nat, id: string)
    requires j <= |actions| && Fresh(s, m, id) && s.saved == []
    requires Exec(s, actions[..j]).Some? && Exec(s, actions).Some? && OneSaverThroughout(s, actions, m)
      && NoDelivery(actions, m, id)
    ensures var mid, t := Exec(s, actions[..j]).value, Exec(s, actions).value;
      m < |mid.tables.sent| && m < |t.tables.sent| && Rank(mid.tables.sent[m].status) <= Rank(t.tables.sent[m].status)
  {
    SerialReportsEndAtHighest(s, actions, m, id);
    if j == |actions| {
      assert actions[..j] == actions;
    } else {
      var k := |actions| - 1;
      assert actions[..k][..j] == actions[..j];
      assert forall i :: 0 <= i < k ==> actions[..k][..i] == actions[..i];
      SerialRankNeverFalls(s, actions[..k], j, m, id);
      SerialReportsEndAtHighest(s, actions[..k], m, id);
      var t := Exec(s, actions[..k]).value;
      assert OneSaver(t, m) && actions[k] in actions;
      hide OneSaverThroughout, Fresh, Enabled, OneSaver, Rank;
      if actions[k].Open? { OpenKeepsFresh(t, actions[k], m, id); }
      else if actions[k].Save? { SaveKeepsFresh(t, actions[k], m, id); }
      else { OthersKeepFresh(t, actions[k], m, id); }
    }
  }

  lemma {:induction false} HighestNext(events: seq<Event>, e: Event, id: string)
    ensures Highest(events + [e], id) == Max(Highest(events, id), if e.Report? && e.message == id then Rank(e.status)
      else 0)
  {
    assert (events + [e])[..|events|] == events;
  }
}
