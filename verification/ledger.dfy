/**
The spend ledger (policy.py): money is reserved before a paid provider call and
settled, charged or released, once the outcome is known. `Bank` is the ledger as
concurrent calls see it: a new reservation is checked, stamped and committed in
separate steps, under the agent's policy row lock, while other calls settle
entries and the clock moves. `SpendLedger` is the code of one call.
*/
module Ledger {
  import opened Wrappers
  import Runs

  // ------------------------------------------------------------------ time

  /** A UTC date and time; `micro` is the offset within the day. */
  datatype Instant = Instant(year: int, month: int, day: int, micro: int)

  type Moment = i: Instant | 1 <= i.month <= 12 && 1 <= i.day <= 31 && 0 <= i.micro
    witness Instant(1970, 1, 1, 0)

  predicate AtMost(a: Instant, b: Instant) {
    || a.year < b.year
    || (a.year == b.year && (|| a.month < b.month
                             || (a.month == b.month && (a.day < b.day || (a.day == b.day && a.micro <= b.micro)))))
  }

  /** Moments are in one line. */
  lemma {:induction false} AtMostIsOrder(a: Moment, b: Moment, c: Moment)
    ensures AtMost(a, b) || AtMost(b, a)
    ensures AtMost(a, b) && AtMost(b, a) <==> a == b
    ensures AtMost(a, b) && AtMost(b, c) ==> AtMost(a, c)
  {
  }

  function MonthStart(now: Moment): (start: Moment)
    ensures AtMost(start, now)
  {
    Instant(now.year, now.month, 1, 0)
  }

  // ------------------------------------------------------------------ entries

  datatype EntryState = Reserved | Charged | Released

  datatype Kind = DomainRegister | SmsNumber | SmsMessage

  /** The dedupe strings "domain:<key>", "number:<key>" and "sms:<message id>". */
  datatype Dedupe = DomainKey(key: string) | NumberKey(key: string) | SmsKey(message: nat)

  /** One ledger row. Its primary key is its index: rows are never deleted. */
  datatype Entry = Entry(agent: string, kind: Kind, amount: nat, dedupe: Dedupe, state: EntryState, createdAt: Moment)

  type Entries = seq<Entry>

  predicate Counts(e: Entry, agent: string, since: Moment) {
    e.agent == agent && AtMost(since, e.createdAt) && e.state != Released
  }

  /** spent_this_month: reserved and charged cents of one agent since a moment. */
  function Spent(entries: Entries, agent: string, since: Moment): nat {
    if entries == [] then 0 else
      var last := entries[|entries| - 1];
      Spent(entries[..|entries| - 1], agent, since) + if Counts(last, agent, since) then last.amount else 0
  }

  /** The row of one (agent, dedupe key), if there is one. */
  function Find(entries: Entries, agent: string, dedupe: Dedupe): (found: Option<nat>)
    ensures found.Some? ==>
      found.value < |entries| && entries[found.value].agent == agent && entries[found.value].dedupe == dedupe
    ensures found.None? ==>
      forall i :: 0 <= i < |entries| ==> !(entries[i].agent == agent && entries[i].dedupe == dedupe)
  {
    if entries == [] then None else
      var last := |entries| - 1;
      var earlier := Find(entries[..last], agent, dedupe);
      if earlier.Some? then earlier
      else if entries[last].agent == agent && entries[last].dedupe == dedupe then Some(last) else None
  }

  /** settle: only a reservation moves, and only once. */
  function Settled(entries: Entries, id: nat, charged: bool): (after: Entries)
    requires id < |entries|
    ensures |after| == |entries|
    ensures entries[id].state != Reserved ==> after == entries
  {
    if entries[id].state == Reserved
    then entries[id := entries[id].(state := if charged then Charged else Released)]
    else entries
  }

  lemma {:induction false} FindAppended(entries: Entries, e: Entry)
    requires Find(entries, e.agent, e.dedupe).None?
    ensures Find(entries + [e], e.agent, e.dedupe) == Some(|entries|)
  {
    assert (entries + [e])[..|entries|] == entries;
  }

  /** Settling an entry does not change what is found. */
  lemma {:induction false} FindIgnoresState(entries: Entries, other: Entries, agent: string, dedupe: Dedupe)
    requires |entries| == |other|
    requires forall i :: 0 <= i < |entries| ==>
      entries[i].agent == other[i].agent && entries[i].dedupe == other[i].dedupe
    ensures Find(entries, agent, dedupe) == Find(other, agent, dedupe)
  {
    if entries != [] { FindIgnoresState(entries[..|entries| - 1], other[..|other| - 1], agent, dedupe); }
  }

  /** Entries are never removed, and settled ones stay as they are. */
  ghost predicate Kept(before: Entries, after: Entries) {
    |before| <= |after| && forall i :: 0 <= i < |before| && before[i].state != Reserved ==> after[i] == before[i]
  }

  /** The unique constraint on (agent, dedupe key). */
  ghost predicate UniqueKeys(entries: Entries) {
    forall i, j :: 0 <= i < j < |entries| ==>
      !(entries[i].agent == entries[j].agent && entries[i].dedupe == entries[j].dedupe)
  }

  /** What one purchase protocol may do to the shared ledger: add rows of its kind, and settle them. */
  ghost predicate OnlyKind(before: Entries, after: Entries, kind: Kind) {
    && |before| <= |after|
    && (forall i :: 0 <= i < |before| ==> after[i] == before[i].(state := after[i].state))
    && (forall i :: 0 <= i < |before| && (before[i].kind != kind || before[i].state != Reserved) ==>
      after[i] == before[i])
    && (forall i :: |before| <= i < |after| ==> after[i].kind == kind && Typed(after[i]))
  }

  /** The prefix of a dedupe key says what kind of purchase it is for. */
  predicate Typed(e: Entry) {
    match e.kind
    case DomainRegister => e.dedupe.DomainKey?
    case SmsNumber => e.dedupe.NumberKey?
    case SmsMessage => e.dedupe.SmsKey?
  }

  /** The shared ledger next to the rows, calls and provider of one protocol. */
  datatype World<L> = World(entries: Entries, local: L)

  // ------------------------------------------------------------------ sums

  lemma {:induction false} SpentAppend(entries: Entries, e: Entry, agent: string, since: Moment)
    ensures Spent(entries + [e], agent, since)
      == Spent(entries, agent, since) + if Counts(e, agent, since) then e.amount else 0
  {
    assert (entries + [e])[..|entries|] == entries;
  }

  /** Settling or a later start of month can only lower the sum. */
  lemma {:induction false} SpentShrinks(before: Entries, after: Entries, agent: string, since: Moment, later: Moment)
    requires |before| == |after| && AtMost(since, later)
    requires forall i :: 0 <= i < |before| ==>
      after[i] == before[i].(state := after[i].state) && (before[i].state == Released ==> after[i].state == Released)
    ensures Spent(after, agent, later) <= Spent(before, agent, since)
  {
    if before != [] {
      SpentShrinks(before[..|before| - 1], after[..|after| - 1], agent, since, later);
    }
  }

  lemma {:induction false} SpentNothing(entries: Entries, agent: string, since: Moment)
    requires forall i :: 0 <= i < |entries| ==> !Counts(entries[i], agent, since)
    ensures Spent(entries, agent, since) == 0
  {
    if entries != [] { SpentNothing(entries[..|entries| - 1], agent, since); }
  }

  // ------------------------------------------------------------------ the calendar month

  /** The cents reserved or charged by an agent in one calendar month (UTC), or later. */
  function MonthSum(entries: Entries, agent: string, year: int, month: int): nat {
    if entries == [] then 0 else
      var e := entries[|entries| - 1];
      var counts := e.agent == agent && (e.state == Reserved || e.state == Charged)
        && (e.createdAt.year > year || (e.createdAt.year == year && e.createdAt.month >= month));
      MonthSum(entries[..|entries| - 1], agent, year, month) + if counts then e.amount else 0
  }

  /** An entry is at or after the start of the month exactly when its month is that one, or a later one. */
  lemma {:induction false} SinceMonthStart(now: Moment, e: Moment)
    ensures AtMost(MonthStart(now), e) <==> e.year > now.year || (e.year == now.year && e.month >= now.month)
  {
  }

  /** What spent_this_month adds up is the calendar month. */
  lemma {:induction false} SpentIsMonthSum(entries: Entries, agent: string, now: Moment)
    ensures Spent(entries, agent, MonthStart(now)) == MonthSum(entries, agent, now.year, now.month)
  {
    if entries != [] {
      SpentIsMonthSum(entries[..|entries| - 1], agent, now);
      SinceMonthStart(now, entries[|entries| - 1].createdAt);
    }
  }

  // ------------------------------------------------------------------ the concurrent ledger

  /** A reservation in progress: it holds the agent's policy row lock. */
  datatype Pending = Pending(kind: Kind, amount: nat, dedupe: Dedupe, limit: nat, checkedAt: Moment,
    stamp: Option<Moment>)

  /** `checked` remembers the limit the latest committed reservation of an agent was checked against. */
  datatype Bank = Bank(entries: Entries, limits: map<string, nat>, pending: map<string, Pending>,
    checked: map<string, nat>, now: Moment)

  datatype BankAction =
    | Tick(to: Moment)
    | SetLimit(agent: string, cents: nat)
    | Check(agent: string, kind: Kind, amount: nat, dedupe: Dedupe)
    | Stamp(agent: string)
    | Commit(agent: string)
    | Rollback(agent: string)
    | Settle(id: nat, charged: bool)

  predicate Enabled(b: Bank, a: BankAction) {
    match a
    case Tick(to) => AtMost(b.now, to)
    case SetLimit(agent, _) => agent !in b.pending
    case Check(agent, kind, amount, dedupe) =>
      && agent in b.limits && agent !in b.pending
      && Find(b.entries, agent, dedupe).None?
      && Spent(b.entries, agent, MonthStart(b.now)) + amount <= b.limits[agent]
    case Stamp(agent) => agent in b.pending && b.pending[agent].stamp.None?
    case Commit(agent) => agent in b.pending && b.pending[agent].stamp.Some?
    case Rollback(agent) => agent in b.pending
    case Settle(id, _) => id < |b.entries|
  }

  function Apply(b: Bank, a: BankAction): Bank
    requires Enabled(b, a)
  {
    match a
    case Tick(to) => b.(now := to)
    case SetLimit(agent, cents) => b.(limits := b.limits[agent := cents])
    case Check(agent, kind, amount, dedupe) =>
      b.(pending := b.pending[agent := Pending(kind, amount, dedupe, b.limits[agent], b.now, None)])
    case Stamp(agent) => b.(pending := b.pending[agent := b.pending[agent].(stamp := Some(b.now))])
    case Commit(agent) =>
      var p := b.pending[agent];
      b.(entries := b.entries + [Entry(agent, p.kind, p.amount, p.dedupe, Reserved, p.stamp.value)],
         pending := b.pending - {agent}, checked := b.checked[agent := p.limit])
    case Rollback(agent) => b.(pending := b.pending - {agent})
    case Settle(id, charged) => b.(entries := Settled(b.entries, id, charged))
  }

  function Next(b: Bank, a: BankAction): Option<Bank> {
    if Enabled(b, a) then Some(Apply(b, a)) else None
  }

  function Exec(b: Bank, actions: seq<BankAction>): Option<Bank> {
    Runs.Exec(Next, b, actions)
  }

  function Opened(limits: map<string, nat>, now: Moment): Bank {
    Bank([], limits, map[], map[], now)
  }

  function CheckedLimit(b: Bank, agent: string): nat {
    if agent in b.checked then b.checked[agent] else 0
  }

  ghost predicate PendingOk(b: Bank, agent: string, p: Pending) {
    && AtMost(p.checkedAt, b.now)
    && (p.stamp.Some? ==> AtMost(p.checkedAt, p.stamp.value) && AtMost(p.stamp.value, b.now))
    && (forall i :: 0 <= i < |b.entries| && b.entries[i].agent == agent ==> AtMost(b.entries[i].createdAt, p.checkedAt))
    && (forall i :: 0 <= i < |b.entries| && b.entries[i].agent == agent ==> b.entries[i].dedupe != p.dedupe)
    && Spent(b.entries, agent, MonthStart(p.checkedAt)) + p.amount <= p.limit
  }

  ghost predicate BankInv(b: Bank) {
    && UniqueKeys(b.entries)
    && (forall i :: 0 <= i < |b.entries| ==> AtMost(b.entries[i].createdAt, b.now))
    && (forall agent :: agent in b.pending ==> PendingOk(b, agent, b.pending[agent]))
    && (forall agent :: Spent(b.entries, agent, MonthStart(b.now)) <= CheckedLimit(b, agent))
  }

  lemma {:induction false} CommitKeepsCap(b: Bank, agent: string, e: Entry, other: string)
    requires BankInv(b) && agent in b.pending && b.pending[agent].stamp.Some?
    requires e == Entry(agent, b.pending[agent].kind, b.pending[agent].amount, b.pending[agent].dedupe, Reserved,
      b.pending[agent].stamp.value)
    ensures MonthSum(b.entries + [e], other, b.now.year, b.now.month)
      <= if other == agent then b.pending[agent].limit else CheckedLimit(b, other)
  {
    var p, start := b.pending[agent], MonthStart(b.now);
    SpentIsMonthSum(b.entries + [e], other, b.now);
    assert PendingOk(b, agent, p);
    SpentAppend(b.entries, e, other, start);
    if other == agent {
      if AtMost(start, p.checkedAt) {
        SpentShrinks(b.entries, b.entries, agent, MonthStart(p.checkedAt), start);
      } else {
        // the month rolled over after the check: only the new entry is in it
        SpentNothing(b.entries, agent, start);
      }
    }
  }

  lemma {:induction false} CommitKeepsInv(b: Bank, agent: string)
    requires BankInv(b) && Enabled(b, Commit(agent))
    ensures BankInv(Apply(b, Commit(agent)))
  {
    var p, after := b.pending[agent], Apply(b, Commit(agent));
    var e := after.entries[|b.entries|];
    assert PendingOk(b, agent, p);
    forall other ensures Spent(after.entries, other, MonthStart(after.now)) <= CheckedLimit(after, other) {
      CommitKeepsCap(b, agent, e, other);
      SpentIsMonthSum(after.entries, other, b.now);
    }
    forall other | other in after.pending
      ensures PendingOk(after, other, after.pending[other])
    {
      CommitKeepsOthers(b, agent, other);
    }
    assert UniqueKeys(after.entries);
    hide PendingOk, CheckedLimit, Spent;
  }

  lemma {:induction false} CommitKeepsOthers(b: Bank, agent: string, other: string)
    requires BankInv(b) && Enabled(b, Commit(agent)) && other in b.pending && other != agent
    ensures PendingOk(Apply(b, Commit(agent)), other, b.pending[other])
  {
    var e := Apply(b, Commit(agent)).entries[|b.entries|];
    SpentAppend(b.entries, e, other, MonthStart(b.pending[other].checkedAt));
    assert PendingOk(b, other, b.pending[other]);
  }

  lemma {:induction false} SettleKeepsInv(b: Bank, id: nat, charged: bool)
    requires BankInv(b) && id < |b.entries|
    ensures BankInv(Apply(b, Settle(id, charged)))
  {
    var after := Apply(b, Settle(id, charged));
    forall agent ensures Spent(after.entries, agent, MonthStart(b.now)) <= CheckedLimit(after, agent) {
      SpentShrinks(b.entries, after.entries, agent, MonthStart(b.now), MonthStart(b.now));
    }
    forall agent | agent in after.pending ensures PendingOk(after, agent, after.pending[agent]) {
      var start := MonthStart(b.pending[agent].checkedAt);
      assert PendingOk(b, agent, b.pending[agent]);
      SpentShrinks(b.entries, after.entries, agent, start, start);
    }
  }

  lemma {:induction false} StepKeepsInv(b: Bank, a: BankAction)
    requires BankInv(b) && Enabled(b, a)
    ensures BankInv(Apply(b, a))
  {
    match a
    case Commit(agent) => CommitKeepsInv(b, agent);
    case Settle(id, charged) => SettleKeepsInv(b, id, charged);
    case Tick(to) =>
      var after := Apply(b, a);
      forall agent ensures Spent(after.entries, agent, MonthStart(after.now)) <= CheckedLimit(after, agent) {
        SpentShrinks(b.entries, b.entries, agent, MonthStart(b.now), MonthStart(to));
      }
      forall agent | agent in after.pending ensures PendingOk(after, agent, after.pending[agent]) {
        assert PendingOk(b, agent, b.pending[agent]);
      }
    case Check(agent, _, _, _) => PendingKeepsInv(b, Apply(b, a), agent);
    case Stamp(agent) =>
      assert PendingOk(b, agent, b.pending[agent]);
      PendingKeepsInv(b, Apply(b, a), agent);
    case Rollback(agent) => PendingKeepsInv(b, Apply(b, a), agent);
    case SetLimit(agent, _) => PendingKeepsInv(b, Apply(b, a), agent);
  }

  /** The two states differ at most in the limits, and in what one agent has pending. */
  ghost predicate OnlyPending(b: Bank, after: Bank, agent: string) {
    && after.entries == b.entries && after.now == b.now && after.checked == b.checked
    && (forall other :: other in after.pending && other != agent ==>
      other in b.pending && after.pending[other] == b.pending[other])
  }

  /** A step that touches one agent's pending reservation and no committed row. */
  lemma {:induction false} PendingKeepsInv(b: Bank, after: Bank, agent: string)
    requires BankInv(b) && OnlyPending(b, after, agent)
      && (agent in after.pending ==> PendingOk(after, agent, after.pending[agent]))
    ensures BankInv(after)
  {
    forall other | other in after.pending ensures PendingOk(after, other, after.pending[other]) {
      if other != agent { assert PendingOk(b, other, b.pending[other]); }
    }
  }

  lemma {:induction false} ExecKeepsInv(b: Bank, actions: seq<BankAction>)
    requires BankInv(b) && Exec(b, actions).Some?
    ensures BankInv(Exec(b, actions).value)
  {
    if actions != [] {
      var last := |actions| - 1;
      ExecKeepsInv(b, actions[..last]);
      StepKeepsInv(Exec(b, actions[..last]).value, actions[last]);
    }
  }

  /**
  The monthly cap. However reservations, settlements, limit changes, rollbacks and
  clock steps interleave, what an agent has committed in the calendar month never exceeds
  the limit its latest reservation was checked against, even when that reservation was
  summed in one month and stamped in the next; and a dedupe key has one row.
  */
  lemma {:induction false} CapNeverExceeded(limits: map<string, nat>, start: Moment, actions: seq<BankAction>,
      agent: string)
    requires Exec(Opened(limits, start), actions).Some?
    ensures var b := Exec(Opened(limits, start), actions).value;
      && MonthSum(b.entries, agent, b.now.year, b.now.month) <= CheckedLimit(b, agent) && UniqueKeys(b.entries)
      && forall i :: 0 <= i < |b.entries| ==> AtMost(b.entries[i].createdAt, b.now)
  {
    forall a ensures Spent([], a, MonthStart(start)) == 0 {}
    ExecKeepsInv(Opened(limits, start), actions);
    var b := Exec(Opened(limits, start), actions).value;
    SpentIsMonthSum(b.entries, agent, b.now);
  }

  /** No limit that an agent has, is being checked against, or was last checked against is above the bound. */
  ghost predicate LimitsAtMost(b: Bank, agent: string, bound: nat) {
    && (agent in b.limits ==> b.limits[agent] <= bound)
    && (agent in b.pending ==> b.pending[agent].limit <= bound)
    && CheckedLimit(b, agent) <= bound
  }

  lemma {:induction false} LimitsStayAtMost(b: Bank, actions: seq<BankAction>, agent: string, bound: nat)
    requires LimitsAtMost(b, agent, bound) && Exec(b, actions).Some?
    requires forall cents: nat :: SetLimit(agent, cents) in actions ==> cents <= bound
    ensures LimitsAtMost(Exec(b, actions).value, agent, bound)
  {
    if actions != [] {
      var last := |actions| - 1;
      forall cents: nat | SetLimit(agent, cents) in actions[..last] ensures cents <= bound {
        assert SetLimit(agent, cents) in actions;
      }
      LimitsStayAtMost(b, actions[..last], agent, bound);
      assert actions[last] in actions;
    }
  }

  /** So in no month an agent spends more than the highest limit it was ever given; without one, nothing. */
  lemma {:induction false} NoLimitIsExceeded(limits: map<string, nat>, start: Moment, actions: seq<BankAction>,
      agent: string, bound: nat)
    requires Exec(Opened(limits, start), actions).Some?
    requires agent in limits ==> limits[agent] <= bound
    requires forall cents: nat :: SetLimit(agent, cents) in actions ==> cents <= bound
    ensures var b := Exec(Opened(limits, start), actions).value;
      MonthSum(b.entries, agent, b.now.year, b.now.month) <= bound
  {
    CapNeverExceeded(limits, start, actions, agent);
    LimitsStayAtMost(Opened(limits, start), actions, agent, bound);
  }

  // ------------------------------------------------------------------ the code of one call

  datatype ReserveError = InvalidAmount | NoPolicy | KeyOfOtherAction | LimitReached | HostRefused

  datatype Reservation = Reservation(id: nat, replayed: bool)

  datatype Event =
    | SpendRefused(agent: string)
    | SpendReserved(agent: string, id: nat)
    | SpendSettled(agent: string, id: nat)

  class SpendLedger {
    var entries: Entries
    var limits: map<string, nat>
    var events: seq<Event>
    var now: Moment
    ghost var checked: map<string, nat>

    constructor (limits: map<string, nat>, now: Moment)
      ensures View() == Opened(limits, now) && events == []
    {
      this.limits, this.now := limits, now;
      entries, events, checked := [], [], map[];
    }

    /** The ledger between calls: no reservation is in progress. */
    ghost function View(): Bank
      reads this
    {
      Bank(entries, limits, map[], checked, now)
    }

    method AdvanceClock(to: Moment)
      requires AtMost(now, to)
      modifies this`now
      ensures View() == Apply(old(View()), Tick(to))
    {
      now := to;
    }

    /**
    reserve. The limit is checked at `sumAt` and the row stamped at `stampAt`. A
    refusal raises, so the transaction rolls its audit row back with it.
    */
    method Reserve(agent: string, kind: Kind, amount: int, dedupe: Dedupe, sumAt: Moment, stampAt: Moment,
        hostAllows: bool)
      returns (r: Result<Reservation, ReserveError>)
      requires AtMost(now, sumAt) && AtMost(sumAt, stampAt)
      modifies this
      ensures limits == old(limits)
      ensures r.Ok? && !r.value.replayed ==>
        && amount >= 0 && hostAllows && r.value.id == |old(entries)|
        && agent in limits && MonthSum(old(entries), agent, sumAt.year, sumAt.month) + amount <= limits[agent]
        && (forall i :: 0 <= i < |old(entries)| ==> old(entries)[i].agent != agent || old(entries)[i].dedupe != dedupe)
        && entries == old(entries) + [Entry(agent, kind, amount, dedupe, Reserved, stampAt)]
        && Exec(old(View()), [Tick(sumAt), Check(agent, kind, amount, dedupe), Tick(stampAt), Stamp(agent),
          Commit(agent)]) == Some(View())
        && events == old(events) + [SpendReserved(agent, r.value.id)]
      ensures r.Ok? && r.value.replayed ==>
        && entries == old(entries) && events == old(events)
        && r.value.id < |entries| && entries[r.value.id].agent == agent
        && entries[r.value.id].dedupe == dedupe && entries[r.value.id].kind == kind
      ensures r.Err? ==> entries == old(entries) && events == old(events) && checked == old(checked)
      ensures r == Err(LimitReached) ==>
        agent in limits && MonthSum(entries, agent, sumAt.year, sumAt.month) + amount > limits[agent]
      ensures (&& amount >= 0 && agent in limits && Find(old(entries), agent, dedupe).None? && hostAllows
               && MonthSum(old(entries), agent, sumAt.year, sumAt.month) + amount <= limits[agent])
        ==> r.Ok? && !r.value.replayed
      ensures r == Err(HostRefused) ==> !hostAllows
      ensures amount < 0 <==> r == Err(InvalidAmount)
      ensures r == Err(NoPolicy) ==> agent !in limits
      ensures r == Err(KeyOfOtherAction) ==>
        exists i :: 0 <= i < |entries| && entries[i].agent == agent && entries[i].dedupe == dedupe
          && entries[i].kind != kind
      ensures amount >= 0 && agent in limits && Find(old(entries), agent, dedupe).Some? ==>
        (r.Ok? && r.value.replayed) || r == Err(KeyOfOtherAction)
    {
      if amount < 0 { return Err(InvalidAmount); }
      if agent !in limits { return Err(NoPolicy); }
      ghost var before := View();
      var savepoint := events;
      now := sumAt;
      var existing := Find(entries, agent, dedupe);
      if existing.Some? {
        if entries[existing.value].kind != kind { return Err(KeyOfOtherAction); }
        return Ok(Reservation(existing.value, true));
      }
      SpentIsMonthSum(entries, agent, now);
      var spent := Spent(entries, agent, MonthStart(now));
      if spent + amount > limits[agent] {
        events := events + [SpendRefused(agent)];
        events := savepoint;
        return Err(LimitReached);
      }
      if !hostAllows { return Err(HostRefused); }
      ghost var atCheck := View();
      now := stampAt;
      entries := entries + [Entry(agent, kind, amount, dedupe, Reserved, now)];
      checked := checked[agent := limits[agent]];
      events := events + [SpendReserved(agent, |entries| - 1)];
      r := Ok(Reservation(|entries| - 1, false));
      ReserveIsARun(before, agent, kind, amount, dedupe, sumAt, stampAt);
    }

    /** settle, charged or released. Settling twice, or settling a settled entry, changes nothing. */
    method Settle(id: nat, charged: bool)
      requires id < |entries|
      modifies this`entries, this`events
      ensures View() == Apply(old(View()), BankAction.Settle(id, charged))
      ensures |entries| == |old(entries)| && forall i :: 0 <= i < |entries| && i != id ==> entries[i] == old(entries)[i]
      ensures old(entries)[id].state == Reserved ==>
        entries[id] == old(entries)[id].(state := if charged then Charged else Released)
      ensures old(entries)[id].state != Reserved ==> entries[id] == old(entries)[id]
      ensures events == old(events) + if old(entries[id].state) == Reserved then [SpendSettled(entries[id].agent, id)]
        else []
    {
      if entries[id].state == Reserved {
        entries := entries[id := entries[id].(state := if charged then Charged else Released)];
        events := events + [SpendSettled(entries[id].agent, id)];
      }
    }
  }

  /** A whole uninterrupted reserve is one run of the concurrent ledger. */
  lemma {:induction false} ReserveIsARun(b: Bank, agent: string, kind: Kind, amount: nat, dedupe: Dedupe,
      sumAt: Moment, stampAt: Moment)
    requires b.pending == map[] && AtMost(b.now, sumAt) && AtMost(sumAt, stampAt)
    requires agent in b.limits && Find(b.entries, agent, dedupe).None?
    requires Spent(b.entries, agent, MonthStart(sumAt)) + amount <= b.limits[agent]
    ensures Exec(b, [Tick(sumAt), Check(agent, kind, amount, dedupe), Tick(stampAt), Stamp(agent), Commit(agent)])
      == Some(Bank(b.entries + [Entry(agent, kind, amount, dedupe, Reserved, stampAt)], b.limits, map[],
                   b.checked[agent := b.limits[agent]], stampAt))
  {
    var check := Check(agent, kind, amount, dedupe);
    var b3 := Bank(b.entries, b.limits, map[agent := Pending(kind, amount, dedupe, b.limits[agent], sumAt, None)],
      b.checked, stampAt);
    ReserveChecks(b, agent, kind, amount, dedupe, sumAt, stampAt);
    var to3 := [Tick(sumAt), check, Tick(stampAt)];
    Runs.Extend(Next, b, to3, Stamp(agent));
    var b4 := Apply(b3, Stamp(agent));
    var to4 := to3 + [Stamp(agent)];
    Runs.Extend(Next, b, to4, Commit(agent));
    assert to4 + [Commit(agent)] == [Tick(sumAt), check, Tick(stampAt), Stamp(agent), Commit(agent)];
    assert b4.pending - {agent} == map[];
  }

  lemma {:induction false} ReserveChecks(b: Bank, agent: string, kind: Kind, amount: nat, dedupe: Dedupe,
      sumAt: Moment, stampAt: Moment)
    requires b.pending == map[] && AtMost(b.now, sumAt) && AtMost(sumAt, stampAt)
    requires agent in b.limits && Find(b.entries, agent, dedupe).None?
    requires Spent(b.entries, agent, MonthStart(sumAt)) + amount <= b.limits[agent]
    ensures Exec(b, [Tick(sumAt), Check(agent, kind, amount, dedupe), Tick(stampAt)])
      == Some(Bank(b.entries, b.limits, map[agent := Pending(kind, amount, dedupe, b.limits[agent], sumAt, None)],
        b.checked, stampAt))
  {
    var check := Check(agent, kind, amount, dedupe);
    var b1 := Apply(b, Tick(sumAt));
    Runs.Extend(Next, b, [], Tick(sumAt));
    assert [] + [Tick(sumAt)] == [Tick(sumAt)];
    Runs.Extend(Next, b, [Tick(sumAt)], check);
    assert [Tick(sumAt)] + [check] == [Tick(sumAt), check];
    Runs.Extend(Next, b, [Tick(sumAt), check], Tick(stampAt));
    assert [Tick(sumAt), check] + [Tick(stampAt)] == [Tick(sumAt), check, Tick(stampAt)];
  }
}
