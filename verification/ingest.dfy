/**
Engagement event ingest (engagement/services.py): a batch is one transaction, each insert
has a savepoint, and other requests may insert the same event ids between the check and
the insert. `IngestAlone` is a batch nobody disturbs; `EngagementStore` is the code.
*/
module Ingest {
  import opened Wrappers

  /** The normalised client payload of an event; `rest` stands for the fields that are only stored. */
  datatype Payload = Payload(id: nat, charity: nat, website: nat, visitor: nat, rest: string)

  /** The fingerprint of a payload and its consent; digests are taken to be injective. */
  datatype Fingerprint = Fingerprint(payload: Payload, consent: Option<bool>)

  /** An event from a client: `wellFormed` is the answer of the field checks. */
  datatype Event = Event(id: nat, visitor: nat, rest: string, consent: Option<bool>, version: int, wellFormed: bool)

  datatype Website = Website(id: nat, charity: nat, consentRequired: bool)

  datatype Row = Row(payload: Payload, fingerprint: Fingerprint, contact: Option<nat>, user: nat)

  type Table = map<nat, Row>

  /** The verified identities of a batch and the contacts that still exist. */
  datatype People = People(identities: map<nat, nat>, contacts: set<nat>)

  datatype Counts = Counts(accepted: nat, duplicates: nat)

  const MAX_BATCH := 100

  function PayloadOf(w: Website, e: Event): Payload {
    Payload(e.id, w.charity, w.id, e.visitor, e.rest)
  }

  predicate Acceptable(w: Website, e: Event) {
    e.wellFormed && e.version == 1 && (w.consentRequired ==> e.consent == Some(true))
  }

  function ContactOf(p: People, visitor: nat): Option<nat> {
    if visitor in p.identities && p.identities[visitor] in p.contacts then Some(p.identities[visitor]) else None
  }

  function RowOf(w: Website, e: Event, p: People, user: nat): Row {
    Row(PayloadOf(w, e), Fingerprint(PayloadOf(w, e), e.consent), ContactOf(p, e.visitor), user)
  }

  datatype Check = Fresh | Duplicate | Clash

  /** _duplicate */
  function CheckOf(t: Table, w: Website, e: Event): Check {
    if e.id !in t then Fresh
    else if t[e.id].payload.charity == w.charity
      && t[e.id].fingerprint == Fingerprint(PayloadOf(w, e), e.consent) then Duplicate
    else Clash
  }

  // ------------------------------------------------------------------ what the rows say

  /** What a client must send: well formed, version 1, and with consent where the website requires it. */
  ghost predicate Lawful(w: Website, events: seq<Event>) {
    && |events| <= 100
    && (forall i :: 0 <= i < |events| ==> events[i].wellFormed && events[i].version == 1)
    && (w.consentRequired ==> forall i :: 0 <= i < |events| ==> events[i].consent == Some(true))
  }

  /** The row holds this event of this website, field by field, sent with the same consent. */
  predicate SameEvent(row: Row, w: Website, e: Event) {
    var stored := row.fingerprint.payload;
    && row.payload.charity == w.charity && row.fingerprint.consent == e.consent
    && stored.id == e.id && stored.charity == w.charity && stored.website == w.id
    && stored.visitor == e.visitor && stored.rest == e.rest
  }

  /** The row is what this event puts in: it names the visitor's contact if that is verified and still there. */
  predicate NewRow(row: Row, w: Website, e: Event, p: People, user: nat) {
    && SameEvent(row, w, e) && row.payload == row.fingerprint.payload && row.user == user
    && match row.contact
       case Some(c) => e.visitor in p.identities && p.identities[e.visitor] == c && c in p.contacts
       case None => e.visitor in p.identities ==> p.identities[e.visitor] !in p.contacts
  }

  lemma {:induction false} CheckIsSameEvent(t: Table, w: Website, e: Event)
    ensures CheckOf(t, w, e) == Fresh <==> e.id !in t
    ensures CheckOf(t, w, e) == Duplicate <==> e.id in t && SameEvent(t[e.id], w, e)
  {
    if e.id in t && SameEvent(t[e.id], w, e) { assert t[e.id].fingerprint.payload == PayloadOf(w, e); }
  }

  lemma {:induction false} RowIsNew(w: Website, e: Event, p: People, user: nat)
    ensures NewRow(RowOf(w, e, p, user), w, e, p, user)
  {
  }

  // ------------------------------------------------------------------ a batch on its own

  datatype Outcome = Outcome(table: Table, counts: Counts)

  /** The loop over the events: None if one of them clashes. */
  function Added(t: Table, w: Website, events: seq<Event>, p: People, user: nat): Option<Outcome> {
    if events == [] then Some(Outcome(t, Counts(0, 0)))
    else
      var last := events[|events| - 1];
      match Added(t, w, events[..|events| - 1], p, user)
      case None => None
      case Some(o) =>
        match CheckOf(o.table, w, last)
        case Fresh =>
          Some(Outcome(o.table[last.id := RowOf(w, last, p, user)], Counts(o.counts.accepted + 1, o.counts.duplicates)))
        case Duplicate => Some(Outcome(o.table, Counts(o.counts.accepted, o.counts.duplicates + 1)))
        case Clash => None
  }

  /** An event can go with a table: its id is free, or holds the same event. */
  predicate Fits(t: Table, w: Website, e: Event) {
    e.id in t ==> SameEvent(t[e.id], w, e)
  }

  /** Two events of one batch can go together. */
  predicate Agree(a: Event, b: Event) {
    a.id == b.id ==> a.visitor == b.visitor && a.rest == b.rest && a.consent == b.consent
  }

  /** Every row of u that is not in t is the row of an event of the batch. */
  ghost predicate FromBatch(t: Table, u: Table, w: Website, events: seq<Event>, p: People, user: nat) {
    forall id :: id in u && id !in t ==>
      exists i :: 0 <= i < |events| && events[i].id == id && NewRow(u[id], w, events[i], p, user)
  }

  ghost predicate Extends(u: Table, t: Table) {
    forall id :: id in t ==> id in u && u[id] == t[id]
  }

  ghost predicate AllStored(t: Table, w: Website, events: seq<Event>) {
    forall i :: 0 <= i < |events| ==> events[i].id in t && SameEvent(t[events[i].id], w, events[i])
  }

  lemma {:induction false} AddedHolds(t: Table, w: Website, events: seq<Event>, p: People, user: nat)
    requires Added(t, w, events, p, user).Some?
    ensures var o := Added(t, w, events, p, user).value;
      && o.counts.accepted + o.counts.duplicates == |events| && |o.table| == |t| + o.counts.accepted
      && Extends(o.table, t) && AllStored(o.table, w, events) && FromBatch(t, o.table, w, events, p, user)
  {
    if events != [] {
      var fewer := events[..|events| - 1];
      AddedHolds(t, w, fewer, p, user);
      var before := Added(t, w, fewer, p, user).value;
      var o := Added(t, w, events, p, user).value;
      var last := events[|events| - 1];
      CheckIsSameEvent(before.table, w, last);
      CheckIsSameEvent(o.table, w, last);
      RowIsNew(w, last, p, user);
      hide CheckOf, SameEvent, NewRow;
      OneMoreStored(before.table, o.table, w, events);
      OneMoreFrom(t, before.table, o.table, w, events, p, user);
    }
  }

  lemma {:induction false} OneMoreStored(before: Table, after: Table, w: Website, events: seq<Event>)
    requires events != [] && AllStored(before, w, events[..|events| - 1]) && Extends(after, before)
    requires CheckOf(after, w, events[|events| - 1]) == Duplicate
    ensures AllStored(after, w, events)
  {
    var fewer := events[..|events| - 1];
    forall i | 0 <= i < |events| ensures CheckOf(after, w, events[i]) == Duplicate {
      if i < |fewer| { assert CheckOf(before, w, fewer[i]) == Duplicate; }
    }
  }

  lemma {:induction false} OneMoreFrom(t: Table, before: Table, after: Table, w: Website, events: seq<Event>,
      p: People, user: nat)
    requires events != [] && FromBatch(t, before, w, events[..|events| - 1], p, user)
    requires var last := events[|events| - 1]; after == before || after == before[last.id := RowOf(w, last, p, user)]
    ensures FromBatch(t, after, w, events, p, user)
  {
    var fewer, last := events[..|events| - 1], events[|events| - 1];
    forall id | id in after && id !in t
      ensures exists i :: 0 <= i < |events| && events[i].id == id && after[id] == RowOf(w, events[i], p, user)
    {
      if id in before && after[id] == before[id] {
        var i :| 0 <= i < |fewer| && fewer[i].id == id && before[id] == RowOf(w, fewer[i], p, user);
        assert events[i].id == id;
      } else {
        assert events[|events| - 1].id == id;
      }
    }
  }

  ghost predicate AllFit(t: Table, w: Website, events: seq<Event>) {
    forall i :: 0 <= i < |events| ==> Fits(t, w, events[i])
  }

  ghost predicate AllAgree(events: seq<Event>) {
    forall i, j :: 0 <= i < |events| && 0 <= j < |events| ==> Agree(events[i], events[j])
  }

  /** A batch goes in exactly when every event fits the table and no two of them disagree about an id. */
  lemma {:induction false} AddedIff(t: Table, w: Website, events: seq<Event>, p: People, user: nat)
    ensures Added(t, w, events, p, user).Some? <==> AllFit(t, w, events) && AllAgree(events)
  {
    if Added(t, w, events, p, user).Some? {
      AddedHolds(t, w, events, p, user);
      StoredFit(t, Added(t, w, events, p, user).value.table, w, events);
    } else {
      FailureHasReason(t, w, events, p, user);
    }
  }

  lemma {:induction false} StoredFit(t: Table, u: Table, w: Website, events: seq<Event>)
    requires Extends(u, t) && AllStored(u, w, events)
    ensures AllFit(t, w, events) && AllAgree(events)
  {
    forall i | 0 <= i < |events| ensures Fits(t, w, events[i]) { assert CheckOf(u, w, events[i]) == Duplicate; }
    forall i, j | 0 <= i < |events| && 0 <= j < |events| ensures Agree(events[i], events[j]) {
      assert CheckOf(u, w, events[i]) == Duplicate && CheckOf(u, w, events[j]) == Duplicate;
    }
  }

  lemma {:induction false} FailureHasReason(t: Table, w: Website, events: seq<Event>, p: People, user: nat)
    requires Added(t, w, events, p, user).None?
    ensures !(AllFit(t, w, events) && AllAgree(events))
  {
    var fewer, last := events[..|events| - 1], events[|events| - 1];
    if Added(t, w, fewer, p, user).None? {
      FailureHasReason(t, w, fewer, p, user);
      FewerFail(t, w, events);
    } else {
      AddedHolds(t, w, fewer, p, user);
      var o := Added(t, w, fewer, p, user).value;
      CheckIsSameEvent(o.table, w, last);
      hide Added, CheckOf;
      if last.id in t {
        assert !Fits(t, w, events[|events| - 1]);
      } else {
        var i :| 0 <= i < |fewer| && fewer[i].id == last.id && NewRow(o.table[last.id], w, fewer[i], p, user);
        assert !Agree(events[i], events[|events| - 1]);
      }
    }
  }

  lemma {:induction false} FewerFail(t: Table, w: Website, events: seq<Event>)
    requires events != [] && !(AllFit(t, w, events[..|events| - 1]) && AllAgree(events[..|events| - 1]))
    ensures !(AllFit(t, w, events) && AllAgree(events))
  {
    var fewer := events[..|events| - 1];
    if !AllFit(t, w, fewer) {
      var i :| 0 <= i < |fewer| && !Fits(t, w, fewer[i]);
      assert !Fits(t, w, events[i]);
    } else {
      var i, j :| 0 <= i < |fewer| && 0 <= j < |fewer| && !Agree(fewer[i], fewer[j]);
      assert !Agree(events[i], events[j]);
    }
  }

  predicate AllAcceptable(w: Website, events: seq<Event>) {
    forall i :: 0 <= i < |events| ==> Acceptable(w, events[i])
  }

  /** ingest_events without interference: all of the batch, or nothing of it. */
  function IngestAlone(t: Table, w: Website, events: seq<Event>, p: People, user: nat): (Table, Option<Counts>) {
    if |events| > MAX_BATCH || !AllAcceptable(w, events) then (t, None)
    else match Added(t, w, events, p, user) case None => (t, None) case Some(o) => (o.table, Some(o.counts))
  }

  lemma {:induction false} LawfulIff(w: Website, events: seq<Event>)
    ensures Lawful(w, events) <==> |events| <= MAX_BATCH && AllAcceptable(w, events)
  {
    if |events| <= MAX_BATCH && AllAcceptable(w, events) {
      assert forall i :: 0 <= i < |events| ==> Acceptable(w, events[i]);
    }
  }

  /**
  An undisturbed batch is taken exactly when it has at most 100 events, each of them well formed, of version 1 and
  with the consent that the website requires, and each fits the stored rows and the other events.
  */
  lemma {:induction false} TakenIff(t: Table, w: Website, events: seq<Event>, p: People, user: nat)
    ensures IngestAlone(t, w, events, p, user).1.Some? <==>
      Lawful(w, events) && AllFit(t, w, events) && AllAgree(events)
  {
    LawfulIff(w, events);
    AddedIff(t, w, events, p, user);
  }

  /** One call of ingest_events. */
  datatype Batch = Batch(website: Website, events: seq<Event>, people: People, user: nat)

  function AllBatches(t: Table, batches: seq<Batch>): Table {
    if batches == [] then t
    else
      var b := batches[|batches| - 1];
      IngestAlone(AllBatches(t, batches[..|batches| - 1]), b.website, b.events, b.people, b.user).0
  }

  /** Every row of the website was sent with consent. */
  ghost predicate Consented(t: Table, website: nat) {
    forall id :: id in t && t[id].fingerprint.payload.website == website ==> t[id].fingerprint.consent == Some(true)
  }

  /** While a website requires consent, no sequence of batches, its own or those of others, stores an event without. */
  lemma {:induction false} ConsentIsKept(t: Table, batches: seq<Batch>, website: nat)
    requires Consented(t, website)
    requires forall k :: 0 <= k < |batches| && batches[k].website.id == website ==> batches[k].website.consentRequired
    ensures Consented(AllBatches(t, batches), website) && Extends(AllBatches(t, batches), t)
  {
    if batches != [] {
      var fewer, b := batches[..|batches| - 1], batches[|batches| - 1];
      ConsentIsKept(t, fewer, website);
      BatchKeepsConsent(AllBatches(t, fewer), b, website);
    }
  }

  lemma {:induction false} BatchKeepsConsent(t: Table, b: Batch, website: nat)
    requires Consented(t, website) && (b.website.id == website ==> b.website.consentRequired)
    ensures var u := IngestAlone(t, b.website, b.events, b.people, b.user).0; Consented(u, website) && Extends(u, t)
  {
    var u := IngestAlone(t, b.website, b.events, b.people, b.user).0;
    BatchAddsExactlyAccepted(t, b.website, b.events, b.people, b.user);
    TakenIff(t, b.website, b.events, b.people, b.user);
    forall id | id in u && u[id].fingerprint.payload.website == website
      ensures u[id].fingerprint.consent == Some(true)
    {
      if id !in t {
        var i :| 0 <= i < |b.events| && b.events[i].id == id
          && NewRow(u[id], b.website, b.events[i], b.people, b.user);
      }
    }
  }

  /**
  Once all events of a batch are stored, by one batch or by several, alone or among others,
  submitting it again at any later time adds nothing and reports all of it as duplicates.
  */
  lemma {:induction false} ResubmitIsDuplicate(t: Table, later: Table, w: Website, events: seq<Event>, p: People,
      user: nat)
    requires Lawful(w, events) && AllStored(t, w, events) && Extends(later, t)
    ensures IngestAlone(later, w, events, p, user) == (later, Some(Counts(0, |events|)))
  {
    LawfulIff(w, events);
    forall i | 0 <= i < |events| ensures CheckOf(later, w, events[i]) == Duplicate {
      assert CheckOf(t, w, events[i]) == Duplicate;
    }
    AllDuplicates(later, w, events, p, user);
  }

  lemma {:induction false} AllDuplicates(t: Table, w: Website, events: seq<Event>, p: People, user: nat)
    requires forall i :: 0 <= i < |events| ==> CheckOf(t, w, events[i]) == Duplicate
    ensures Added(t, w, events, p, user) == Some(Outcome(t, Counts(0, |events|)))
  {
    if events != [] {
      var fewer := events[..|events| - 1];
      forall i | 0 <= i < |fewer|
        ensures CheckOf(t, w, fewer[i]) == Duplicate
      {
        assert CheckOf(t, w, events[i]) == Duplicate;
      }
      AllDuplicates(t, w, fewer, p, user);
      assert CheckOf(t, w, events[|events| - 1]) == Duplicate;
    }
  }

  lemma {:induction false} AddedAppend(t: Table, w: Website, a: seq<Event>, b: seq<Event>, p: People, user: nat)
    ensures var first := Added(t, w, a, p, user);
      Added(t, w, a + b, p, user) ==
        if first.None? then None
        else match Added(first.value.table, w, b, p, user)
             case None => None
             case Some(o) =>
               Some(Outcome(o.table, Counts(first.value.counts.accepted + o.counts.accepted,
                 first.value.counts.duplicates + o.counts.duplicates)))
  {
    if b == [] { assert a + b == a; }
    else {
      assert (a + b)[..|a + b| - 1] == a + b[..|b| - 1];
      AddedAppend(t, w, a, b[..|b| - 1], p, user);
    }
  }

  /**
  A batch a + b goes in exactly when a goes in and then b does; the table is then the same and
  the counts add up. If it does not go in, not even a's part of it is kept.
  */
  lemma {:induction false} BatchIsSumOfParts(t: Table, w: Website, a: seq<Event>, b: seq<Event>, p: People, user: nat)
    requires |a + b| <= MAX_BATCH
    ensures var (u, first) := IngestAlone(t, w, a, p, user);
      var (v, second) := IngestAlone(u, w, b, p, user);
      var (x, whole) := IngestAlone(t, w, a + b, p, user);
      && (whole.Some? <==> first.Some? && second.Some?)
      && (whole.Some? ==>
        && x == v
        && whole.value.accepted == first.value.accepted + second.value.accepted
        && whole.value.duplicates == first.value.duplicates + second.value.duplicates)
      && (whole.None? ==> x == t)
  {
    AddedAppend(t, w, a, b, p, user);
    forall i | 0 <= i < |a + b| ensures (a + b)[i] == if i < |a| then a[i] else b[i - |a|] { }
    if !AllAcceptable(w, a) {
      var i :| 0 <= i < |a| && !Acceptable(w, a[i]);
      assert !Acceptable(w, (a + b)[i]);
    } else if !AllAcceptable(w, b) {
      var i :| 0 <= i < |b| && !Acceptable(w, b[i]);
      assert !Acceptable(w, (a + b)[|a| + i]);
    } else {
      forall i | 0 <= i < |a + b| ensures Acceptable(w, (a + b)[i]) { }
    }
  }

  /** What one batch did: every event is stored, and exactly the accepted ones are new. */
  lemma {:induction false} BatchAddsExactlyAccepted(t: Table, w: Website, events: seq<Event>, p: People, user: nat)
    ensures var (u, r) := IngestAlone(t, w, events, p, user);
      && (r.None? ==> u == t)
      && (r.Some? ==>
            && r.value.accepted + r.value.duplicates == |events| && |u| == |t| + r.value.accepted
            && Extends(u, t) && AllStored(u, w, events) && FromBatch(t, u, w, events, p, user))
  {
    if Added(t, w, events, p, user).Some? { AddedHolds(t, w, events, p, user); }
  }

  // ------------------------------------------------------------------ a batch among others

  /**
  What others try to commit: entry 2k just before the check of event k, entry 2k + 1 between its check and its insert.
  */
  type Arrivals = seq<Table>

  function Arriving(arrivals: Arrivals, n: nat): Table {
    if n < |arrivals| then arrivals[n] else map[]
  }

  predicate Arrived(arrivals: Arrivals, id: nat, row: Row) {
    exists n :: 0 <= n < |arrivals| && id in arrivals[n] && arrivals[n][id] == row
  }

  /** The rows with these ids were committed by others. */
  ghost predicate FromArrivals(t: Table, others: set<nat>, arrivals: Arrivals) {
    forall id :: id in others ==> id in t && Arrived(arrivals, id, t[id])
  }

  ghost predicate Among(t: Table, ids: set<nat>, early: Table, late: Table) {
    forall id :: id in ids ==> id in t && ((id in early && t[id] == early[id]) || (id in late && t[id] == late[id]))
  }

  /** The rows with these ids are those of events of the batch. */
  ghost predicate FromEvents(t: Table, mine: set<nat>, w: Website, events: seq<Event>, p: People, user: nat) {
    forall id :: id in mine ==>
      id in t && exists i :: 0 <= i < |events| && events[i].id == id && NewRow(t[id], w, events[i], p, user)
  }

  /** The table t0 gained rows of this transaction and rows of others, under different new ids, and nothing else. */
  ghost predicate Gained(t0: Table, t: Table, mine: set<nat>, others: set<nat>) {
    Extends(t, t0) && t.Keys == t0.Keys + mine + others && mine !! others && mine !! t0.Keys && others !! t0.Keys
  }

  /** The events so far are stored, the accepted ones by this transaction. */
  ghost predicate Done(t: Table, mine: set<nat>, w: Website, events: seq<Event>, p: People, user: nat, counts: Counts) {
    && counts.accepted + counts.duplicates == |events| && |mine| == counts.accepted
    && AllStored(t, w, events) && FromEvents(t, mine, w, events, p, user)
  }

  /** What one event did to the table. */
  ghost predicate OneDone(t: Table, u: Table, others: set<nat>, w: Website, e: Event, p: People, user: nat, r: Check) {
    && Extends(u, t) && others !! t.Keys
    && u.Keys == t.Keys + others + (if r.Fresh? then {e.id} else {})
    && (r.Fresh? ==> e.id !in t.Keys + others && u[e.id] == RowOf(w, e, p, user))
    && (r.Clash? || CheckOf(u, w, e) == Duplicate)
  }

  lemma {:induction false} DoneStep(t: Table, u: Table, mine: set<nat>, others: set<nat>, w: Website,
      events: seq<Event>, k: nat, p: People, user: nat, counts: Counts, r: Check)
    requires k < |events| && Done(t, mine, w, events[..k], p, user, counts) && mine <= t.Keys
    requires OneDone(t, u, others, w, events[k], p, user, r) && !r.Clash?
    ensures Done(u, if r.Fresh? then mine + {events[k].id} else mine, w, events[..k + 1], p, user, Counted(counts, r))
  {
    hide FromEvents, AllStored, CheckOf, RowOf;
    assert events[..k + 1][..k] == events[..k];
    OneMoreStored(t, u, w, events[..k + 1]);
    EventsStep(t, u, mine, others, w, events, k, p, user, r);
  }

  lemma {:induction false} EventsStep(t: Table, u: Table, mine: set<nat>, others: set<nat>, w: Website,
      events: seq<Event>, k: nat, p: People, user: nat, r: Check)
    requires k < |events| && FromEvents(t, mine, w, events[..k], p, user)
    requires OneDone(t, u, others, w, events[k], p, user, r) && !r.Clash?
    ensures FromEvents(u, if r.Fresh? then mine + {events[k].id} else mine, w, events[..k + 1], p, user)
  {
    var more := events[..k + 1];
    var after := if r.Fresh? then mine + {events[k].id} else mine;
    forall id | id in after
      ensures id in u && exists i :: 0 <= i < |more| && more[i].id == id && u[id] == RowOf(w, more[i], p, user)
    {
      if id in mine {
        var i :| 0 <= i < k && events[..k][i].id == id && t[id] == RowOf(w, events[..k][i], p, user);
        assert more[i].id == id;
      } else {
        assert more[k].id == id;
      }
    }
  }

  lemma {:induction false} GainedStep(t0: Table, t: Table, u: Table, mine: set<nat>, others: set<nat>, more: set<nat>,
      w: Website, e: Event, p: People, user: nat, r: Check)
    requires Gained(t0, t, mine, others) && OneDone(t, u, more, w, e, p, user, r)
    ensures Gained(t0, u, if r.Fresh? then mine + {e.id} else mine, others + more)
  {
  }

  /** Rolling back takes exactly the own rows away. */
  lemma {:induction false} RolledBack(t0: Table, t: Table, mine: set<nat>, others: set<nat>, arrivals: Arrivals)
    requires Gained(t0, t, mine, others) && FromArrivals(t, others, arrivals)
    ensures Gained(t0, t - mine, {}, others) && FromArrivals(t - mine, others, arrivals)
    ensures others == {} ==> t - mine == t0
  {
  }

  lemma {:induction false} ArrivalsStep(t: Table, u: Table, others: set<nat>, more: set<nat>, arrivals: Arrivals,
      k: nat)
    requires FromArrivals(t, others, arrivals) && Extends(u, t)
    requires Among(u, more, Arriving(arrivals, 2 * k), Arriving(arrivals, 2 * k + 1))
    ensures FromArrivals(u, others + more, arrivals)
  {
    forall id | id in more ensures id in u && Arrived(arrivals, id, u[id]) {
      assert id in Arriving(arrivals, 2 * k) || id in Arriving(arrivals, 2 * k + 1);
    }
  }

  function Counted(counts: Counts, r: Check): Counts {
    if r.Fresh? then Counts(counts.accepted + 1, counts.duplicates) else Counts(counts.accepted, counts.duplicates + 1)
  }

  predicate Alone(t0: Table, t: Table, w: Website, events: seq<Event>, p: People, user: nat, counts: Counts) {
    Added(t0, w, events, p, user) == Some(Outcome(t, counts))
  }

  /** Without arrivals the loop computes Added, and its first clash ends the batch. */
  lemma {:induction false} QuietStep(t0: Table, t: Table, u: Table, w: Website, events: seq<Event>, k: nat, p: People,
      user: nat, counts: Counts, r: Check)
    requires k < |events| && Alone(t0, t, w, events[..k], p, user, counts)
    requires r == CheckOf(t, w, events[k]) && u == if r.Fresh? then t[events[k].id := RowOf(w, events[k], p, user)]
      else t
    ensures if r.Clash? then Added(t0, w, events, p, user).None?
      else Alone(t0, u, w, events[..k + 1], p, user, Counted(counts, r))
  {
    assert events[..k + 1][..k] == events[..k];
    assert events == events[..k + 1] + events[k + 1..];
    AddedAppend(t0, w, events[..k + 1], events[k + 1..], p, user);
  }

  /** What the loop keeps. */
  ghost predicate Looped(t0: Table, t: Table, mine: set<nat>, others: set<nat>, w: Website, events: seq<Event>,
      p: People, user: nat, counts: Counts, arrivals: Arrivals) {
    && Gained(t0, t, mine, others) && FromArrivals(t, others, arrivals)
    && Done(t, mine, w, events, p, user, counts)
    && (arrivals == [] ==> others == {} && Alone(t0, t, w, events, p, user, counts))
  }

  lemma {:induction false} LoopStart(t: Table, w: Website, p: People, user: nat, arrivals: Arrivals)
    ensures Looped(t, t, {}, {}, w, [], p, user, Counts(0, 0), arrivals)
  {
  }

  lemma {:induction false} LoopStep(t0: Table, t: Table, u: Table, mine: set<nat>, others: set<nat>, more: set<nat>,
      w: Website, events: seq<Event>, k: nat,
                                    p: People, user: nat, counts: Counts, r: Check, arrivals: Arrivals)
    requires k < |events| && Looped(t0, t, mine, others, w, events[..k], p, user, counts, arrivals)
    requires OneDone(t, u, more, w, events[k], p, user, r)
      && Among(u, more, Arriving(arrivals, 2 * k), Arriving(arrivals, 2 * k + 1))
    requires arrivals == [] ==>
      more == {} && r == CheckOf(t, w, events[k])
        && u == if r.Fresh? then t[events[k].id := RowOf(w, events[k], p, user)] else t
    ensures var after := if r.Fresh? then mine + {events[k].id} else mine;
      if r.Clash? then
        Gained(t0, u, mine, others + more) && FromArrivals(u, others + more, arrivals)
        && (arrivals == [] ==> others + more == {} && Added(t0, w, events, p, user).None?)
      else Looped(t0, u, after, others + more, w, events[..k + 1], p, user, Counted(counts, r), arrivals)
  {
    ArrivalsStep(t, u, others, more, arrivals, k);
    GainedStep(t0, t, u, mine, others, more, w, events[k], p, user, r);
    if arrivals == [] { QuietStep(t0, t, u, w, events, k, p, user, counts, r); }
    if !r.Clash? { DoneStep(t, u, mine, more, w, events, k, p, user, counts, r); }
  }

  // ------------------------------------------------------------------ the code

  datatype Identity = Identity(contact: nat, user: nat)

  type Key = (nat, nat, nat)

  class EngagementStore {
    var table: Table
    var bindings: map<Key, Identity>

    constructor ()
      ensures table == map[] && bindings == map[]
    {
      table, bindings := map[], map[];
    }

    /**
    Other requests commit rows; the unique index keeps them off the ids in use, those of this transaction included.
    */
    method Arrive(rows: Table) returns (ghost others: set<nat>)
      modifies this`table
      ensures Extends(table, old(table)) && table.Keys == old(table).Keys + others && others !! old(table).Keys
      ensures forall id :: id in others ==> id in rows && table[id] == rows[id]
      ensures rows == map[] ==> others == {} && table == old(table)
    {
      others := rows.Keys - table.Keys;
      table := table + (rows - table.Keys);
    }

    /**
    One event: the check, the insert under its savepoint, and after a failed insert the check
    again. Fresh means that the row was inserted.
    */
    method InsertOne(w: Website, e: Event, p: People, user: nat, early: Table, late: Table)
      returns (r: Check, ghost others: set<nat>)
      modifies this`table
      ensures OneDone(old(table), table, others, w, e, p, user, r)
      ensures Among(table, others, early, late)
      ensures early == late == map[] ==>
        && others == {} && r == CheckOf(old(table), w, e)
        && table == if r.Fresh? then old(table)[e.id := RowOf(w, e, p, user)] else old(table)
    {
      others := Arrive(early);
      r := CheckOf(table, w, e);
      if !r.Fresh? { return; }
      ghost var more := Arrive(late);
      others := others + more;
      if e.id in table {
        r := CheckOf(table, w, e);
      } else {
        table := table[e.id := RowOf(w, e, p, user)];
      }
    }

    /** The loop of ingest_events: `mine` are the ids it inserted. None is the exception that will roll them back. */
    method InsertAll(w: Website, events: seq<Event>, p: People, user: nat, arrivals: Arrivals)
      returns (counts: Option<Counts>, mine: set<nat>, ghost others: set<nat>)
      modifies this`table
      ensures Gained(old(table), table, mine, others) && FromArrivals(table, others, arrivals)
      ensures counts.Some? ==> Looped(old(table), table, mine, others, w, events, p, user, counts.value, arrivals)
      ensures counts.None? && arrivals == [] ==> others == {} && Added(old(table), w, events, p, user).None?
    {
      hide Gained, FromArrivals, Done, Alone, OneDone, Among, Added, CheckOf, AllStored;
      var accepted, duplicates := 0, 0;
      mine, others := {}, {};
      LoopStart(table, w, p, user, arrivals);
      assert events[..0] == [];
      for k := 0 to |events|
        invariant Looped(old(table), table, mine, others, w, events[..k], p, user, Counts(accepted, duplicates),
          arrivals)
      {
        ghost var before := table;
        var r;
        ghost var more;
        r, more := InsertOne(w, events[k], p, user, Arriving(arrivals, 2 * k), Arriving(arrivals, 2 * k + 1));
        LoopStep(old(table), before, table, mine, others, more, w, events, k, p, user, Counts(accepted, duplicates), r,
          arrivals);
        others := others + more;
        if r.Clash? { return None, mine, others; }
        ghost var counted := Counted(Counts(accepted, duplicates), r);
        if r.Fresh? {
          mine := mine + {events[k].id};
          accepted := accepted + 1;
        } else {
          duplicates := duplicates + 1;
        }
        assert Counts(accepted, duplicates) == counted;
      }
      assert events[..|events|] == events;
      counts := Some(Counts(accepted, duplicates));
    }

    /**
    ingest_events. Whatever others commit meanwhile: either none of its rows stay, or every event
    of the batch is stored, `accepted` of them by new rows of its own. Undisturbed it is IngestAlone.
    */
    method IngestEvents(w: Website, events: seq<Event>, p: People, user: nat, arrivals: Arrivals)
      returns (r: Option<Counts>, ghost mine: set<nat>, ghost others: set<nat>)
      modifies this`table
      ensures Gained(old(table), table, mine, others) && FromArrivals(table, others, arrivals)
      ensures r.None? ==> mine == {}
      ensures r.Some? ==> Lawful(w, events) && Done(table, mine, w, events, p, user, r.value)
      ensures w.consentRequired ==> forall id :: id in mine ==> table[id].fingerprint.consent == Some(true)
      ensures arrivals == [] ==>
        (r.Some? <==> Lawful(w, events) && AllFit(old(table), w, events) && AllAgree(events))
      ensures arrivals == [] ==> others == {} && (table, r) == IngestAlone(old(table), w, events, p, user)
    {
      mine, others := {}, {};
      LawfulIff(w, events);
      TakenIff(table, w, events, p, user);
      if |events| > MAX_BATCH { return None, mine, others; }
      if !AllAcceptable(w, events) { return None, mine, others; }
      var counts, inserted;
      counts, inserted, others := InsertAll(w, events, p, user, arrivals);
      if counts.None? {
        RolledBack(old(table), table, inserted, others, arrivals);
        table := table - inserted;
        return None, {}, others;
      }
      r, mine := counts, inserted;
    }

    /**
    bind_visitor: the first binding of a visitor stays, and a different contact is refused.
    `arrives` is what another request may bind between the check and the insert.
    */
    method BindVisitor(key: Key, contact: nat, user: nat, arrives: Option<Identity>) returns (r: Option<Identity>)
      modifies this`bindings
      ensures key in bindings && bindings == old(bindings)[key := bindings[key]]
      ensures bindings[key] == if key in old(bindings) then old(bindings)[key] else if arrives.Some? then arrives.value
        else Identity(contact, user)
      ensures r == if bindings[key].contact == contact then Some(bindings[key]) else None
    {
      var found: Option<Identity> := if key in bindings then Some(bindings[key]) else None;
      if found.None? {
        if arrives.Some? { bindings := bindings[key := arrives.value]; }
        if key in bindings {
          found := Some(bindings[key]);
        } else {
          bindings := bindings[key := Identity(contact, user)];
          found := Some(Identity(contact, user));
        }
      }
      r := if found.value.contact == contact then found else None;
    }
  }
}
