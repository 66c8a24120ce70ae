/**
All paid channels on one ledger: domain purchases, texts and phone numbers of any
number of agents, interleaved step by step, with crashes and lost replies anywhere. As
long as no two calls are about to approve one text, and no call buys a number on an entry
while another shops on it, what the providers really charged is covered by the ledger.
*/
module Channels {
  import opened Wrappers
  import Runs
  import opened Ledger
  import D = Domains
  import S = Sms
  import N = Numbers

  datatype Global = Global(entries: Entries, domains: D.Desk, texts: S.Desk, numbers: N.Desk)

  datatype Action = DomainStep(d: D.Action) | TextStep(t: S.Action) | NumberStep(n: N.Action)

  predicate Enabled(g: Global, a: Action) {
    match a
    case DomainStep(d) => D.Enabled(World(g.entries, g.domains), d)
    case TextStep(t) => S.Enabled(World(g.entries, g.texts), t)
    case NumberStep(n) => N.Enabled(World(g.entries, g.numbers), n)
  }

  function Apply(g: Global, a: Action): Global
    requires Enabled(g, a)
  {
    match a
    case DomainStep(d) => var w := D.Apply(World(g.entries, g.domains), d); g.(entries := w.entries, domains := w.local)
    case TextStep(t) => var w := S.Apply(World(g.entries, g.texts), t); g.(entries := w.entries, texts := w.local)
    case NumberStep(n) => var w := N.Apply(World(g.entries, g.numbers), n); g.(entries := w.entries, numbers := w.local)
  }

  function Next(g: Global, a: Action): Option<Global> {
    if Enabled(g, a) then Some(Apply(g, a)) else None
  }

  function Run(actions: seq<Action>): Option<Global> {
    Runs.Exec(Next, Global([], D.Empty(), S.Empty(), N.Empty()), actions)
  }

  /** No two calls are about to approve one text, and none buys a number on an entry while another shops on it. */
  ghost predicate Disciplined(g: Global) {
    S.OneApproval(World(g.entries, g.texts)) && N.OneShopper(World(g.entries, g.numbers))
  }

  ghost predicate DisciplinedThroughout(actions: seq<Action>) {
    forall k :: 0 <= k < |actions| ==> Run(actions[..k]).Some? ==> Disciplined(Run(actions[..k]).value)
  }

  /** What holds however calls overlap. */
  ghost predicate Sound(g: Global) {
    D.Inv(World(g.entries, g.domains)) && S.Base(World(g.entries, g.texts)) && N.Base(World(g.entries, g.numbers))
  }

  ghost predicate Inv(g: Global) {
    Sound(g) && S.Inv(World(g.entries, g.texts)) && N.Inv(World(g.entries, g.numbers))
  }

  lemma {:induction false} StepIsSound(g: Global, a: Action)
    requires Sound(g) && Enabled(g, a)
    ensures Sound(Apply(g, a))
    ensures OnlyKind(g.entries, Apply(g, a).entries, KindOfStep(a))
  {
    hide D.Inv, D.Apply, S.Base, S.Apply, N.Base, N.Apply, OnlyKind;
    var h := Apply(g, a);
    match a
    case DomainStep(d) =>
      D.StepKeepsInv(World(g.entries, g.domains), d);
      D.StepTouchesOwnKind(World(g.entries, g.domains), d);
      S.OtherKindsKeepBase(World(g.entries, g.texts), h.entries, DomainRegister);
      N.OtherKindsKeepBase(World(g.entries, g.numbers), h.entries, DomainRegister);
    case TextStep(t) =>
      S.BaseStep(World(g.entries, g.texts), t);
      S.StepTouchesOwnKind(World(g.entries, g.texts), t);
      D.OtherKindsKeepInv(World(g.entries, g.domains), h.entries, SmsMessage);
      N.OtherKindsKeepBase(World(g.entries, g.numbers), h.entries, SmsMessage);
    case NumberStep(n) =>
      N.BaseStep(World(g.entries, g.numbers), n);
      N.StepTouchesOwnKind(World(g.entries, g.numbers), n);
      D.OtherKindsKeepInv(World(g.entries, g.domains), h.entries, SmsNumber);
      S.OtherKindsKeepBase(World(g.entries, g.texts), h.entries, SmsNumber);
  }

  function KindOfStep(a: Action): Kind {
    match a
    case DomainStep(_) => DomainRegister
    case TextStep(_) => SmsMessage
    case NumberStep(_) => SmsNumber
  }

  lemma {:induction false} StepKeepsInv(g: Global, a: Action)
    requires Inv(g) && Disciplined(g) && Enabled(g, a)
    ensures Inv(Apply(g, a))
  {
    hide Sound, D.Apply, S.Inv, S.Apply, N.Inv, N.Apply, OnlyKind;
    var h := Apply(g, a);
    StepIsSound(g, a);
    match a
    case DomainStep(_) =>
      S.OtherKindsKeepInv(World(g.entries, g.texts), h.entries, DomainRegister);
      N.OtherKindsKeepInv(World(g.entries, g.numbers), h.entries, DomainRegister);
    case TextStep(t) =>
      S.StepKeepsInv(World(g.entries, g.texts), t);
      N.OtherKindsKeepInv(World(g.entries, g.numbers), h.entries, SmsMessage);
    case NumberStep(n) =>
      N.StepKeepsInv(World(g.entries, g.numbers), n);
      S.OtherKindsKeepInv(World(g.entries, g.texts), h.entries, SmsNumber);
  }

  lemma {:induction false} RunIsSound(actions: seq<Action>)
    requires Run(actions).Some?
    ensures Sound(Run(actions).value)
  {
    if actions == [] {
      D.RunKeepsInv([]);
      S.BaseRun([]);
      N.BaseRun([]);
    } else {
      var last := |actions| - 1;
      RunIsSound(actions[..last]);
      StepIsSound(Run(actions[..last]).value, actions[last]);
    }
  }

  lemma {:induction false} RunKeepsInv(actions: seq<Action>)
    requires Run(actions).Some? && DisciplinedThroughout(actions)
    ensures Inv(Run(actions).value)
  {
    if actions == [] {
      RunIsSound([]);
      S.RunKeepsInv([]);
      N.RunKeepsInv([]);
    } else {
      var last := |actions| - 1;
      assert forall k :: 0 <= k < last ==> actions[..last][..k] == actions[..k];
      RunKeepsInv(actions[..last]);
      StepKeepsInv(Run(actions[..last]).value, actions[last]);
    }
  }

  // ------------------------------------------------------------------ charges

  /** Something a provider may bill: a registration not finally failed, an accepted text, a bought number. */
  datatype Charge = DomainCharge(name: string) | TextCharge(message: nat) | NumberCharge(purchase: nat)

  /** Numbers bought on a released entry are the known gap (`Numbers.CoveredIffReservedAtBuy`). */
  predicate Made(g: Global, c: Charge) {
    match c
    case DomainCharge(name) => name in g.domains.orders && g.domains.orders[name] != D.Rejected
    case TextCharge(m) => m in g.texts.accepted
    case NumberCharge(p) => p < |g.numbers.purchases| && g.numbers.purchases[p].stateAtBuy == Reserved
  }

  /** The ledger entry that stands for a charge. */
  function EntryOf(g: Global, c: Charge): (id: nat) {
    match c
    case DomainCharge(name) =>
      if name in g.domains.rows && g.domains.rows[name].spend.Some? then g.domains.rows[name].spend.value else 0
    case TextCharge(m) => if m in g.texts.paid then g.texts.paid[m] else 0
    case NumberCharge(p) => if p < |g.numbers.purchases| then g.numbers.purchases[p].entry else 0
  }

  predicate KindOf(c: Charge, kind: Kind) {
    match c
    case DomainCharge(_) => kind == DomainRegister
    case TextCharge(_) => kind == SmsMessage
    case NumberCharge(_) => kind == SmsNumber
  }

  lemma {:induction false} ChargeIsCovered(g: Global, c: Charge)
    requires Inv(g) && Made(g, c)
    ensures EntryOf(g, c) < |g.entries| && g.entries[EntryOf(g, c)].state != Released
      && KindOf(c, g.entries[EntryOf(g, c)].kind)
  {
    match c
    case DomainCharge(name) =>
      assert D.NameOk(World(g.entries, g.domains), name);
    case TextCharge(m) =>
      S.AcceptedIsCovered(World(g.entries, g.texts), m);
    case NumberCharge(p) =>
      assert N.PurchaseOk(g.entries, g.numbers.purchases[p]);
  }

  lemma {:induction false} ChargesHaveOwnEntries(g: Global, c: Charge, e: Charge)
    requires Inv(g) && Made(g, c) && Made(g, e) && c != e
    ensures EntryOf(g, c) != EntryOf(g, e)
  {
    ChargeIsCovered(g, c);
    ChargeIsCovered(g, e);
    if c.DomainCharge? && e.DomainCharge? {
      D.OrdersAreCovered(World(g.entries, g.domains), c.name);
      D.OrdersAreCovered(World(g.entries, g.domains), e.name);
    } else if c.TextCharge? && e.TextCharge? {
      S.AcceptedIsCovered(World(g.entries, g.texts), c.message);
      S.AcceptedIsCovered(World(g.entries, g.texts), e.message);
    }
  }

  /** Every charge has an entry of its own that is not released. */
  lemma {:induction false} EveryChargeIsCovered(actions: seq<Action>, c: Charge, e: Charge)
    requires Run(actions).Some? && DisciplinedThroughout(actions)
    requires Made(Run(actions).value, c) && Made(Run(actions).value, e)
    ensures var g := Run(actions).value;
      && EntryOf(g, c) < |g.entries| && g.entries[EntryOf(g, c)].state != Released
      && (EntryOf(g, c) == EntryOf(g, e) ==> c == e)
  {
    RunKeepsInv(actions);
    ChargeIsCovered(Run(actions).value, c);
    if c != e { ChargesHaveOwnEntries(Run(actions).value, c, e); }
  }

  function Billed(entries: Entries, ids: seq<nat>): nat
    requires forall k :: 0 <= k < |ids| ==> ids[k] < |entries|
  {
    if ids == [] then 0 else entries[ids[0]].amount + Billed(entries, ids[1..])
  }

  lemma {:induction false} SpentWithout(entries: Entries, id: nat, agent: string, since: Moment)
    requires id < |entries| && Counts(entries[id], agent, since)
    ensures Spent(entries[id := entries[id].(state := Released)], agent, since) + entries[id].amount
      == Spent(entries, agent, since)
  {
    var last := |entries| - 1;
    var without := entries[id := entries[id].(state := Released)];
    if id == last {
      assert without[..last] == entries[..last];
    } else {
      assert without[..last] == entries[..last][id := entries[id].(state := Released)];
      SpentWithout(entries[..last], id, agent, since);
    }
  }

  lemma {:induction false} DistinctEntriesSumBelowSpent(entries: Entries, ids: seq<nat>, agent: string, since: Moment)
    requires forall k :: 0 <= k < |ids| ==> ids[k] < |entries| && Counts(entries[ids[k]], agent, since)
    requires forall j, k :: 0 <= j < k < |ids| ==> ids[j] != ids[k]
    ensures Billed(entries, ids) <= Spent(entries, agent, since)
    decreases |ids|
  {
    if ids != [] {
      var without := entries[ids[0] := entries[ids[0]].(state := Released)];
      SpentWithout(entries, ids[0], agent, since);
      DistinctEntriesSumBelowSpent(without, ids[1..], agent, since);
      SameAmounts(entries, without, ids[1..]);
    }
  }

  lemma {:induction false} SameAmounts(entries: Entries, other: Entries, ids: seq<nat>)
    requires |other| == |entries| && forall i :: 0 <= i < |entries| ==> other[i].amount == entries[i].amount
    requires forall k :: 0 <= k < |ids| ==> ids[k] < |entries|
    ensures Billed(entries, ids) == Billed(other, ids)
  {
    if ids != [] { SameAmounts(entries, other, ids[1..]); }
  }

  /** What the provider takes for a charge: the price it quoted to the call that made it. */
  function Price(g: Global, c: Charge): nat {
    match c
    case DomainCharge(name) => if name in g.domains.rows then g.domains.rows[name].price else 0
    case TextCharge(m) => if m in g.texts.accepted then g.texts.accepted[m] else 0
    case NumberCharge(p) => if p < |g.numbers.purchases| then g.numbers.purchases[p].price else 0
  }

  /** A retry that buys a number pays the price of the day, which may be above the one its entry keeps. */
  function Excess(g: Global, c: Charge): nat {
    if c.NumberCharge? && c.purchase < |g.numbers.purchases| && !g.numbers.purchases[c.purchase].own
      && EntryOf(g, c) < |g.entries|
       && g.entries[EntryOf(g, c)].amount < Price(g, c)
    then Price(g, c) - g.entries[EntryOf(g, c)].amount else 0
  }

  function Taken(g: Global, charges: seq<Charge>): nat {
    if charges == [] then 0 else Price(g, charges[0]) + Taken(g, charges[1..])
  }

  function Extra(g: Global, charges: seq<Charge>): nat {
    if charges == [] then 0 else Excess(g, charges[0]) + Extra(g, charges[1..])
  }

  /** A charge is at most its entry, but for a number bought by a retry. */
  lemma {:induction false} PriceIsReserved(g: Global, c: Charge)
    requires Inv(g) && Made(g, c)
    ensures EntryOf(g, c) < |g.entries| && Price(g, c) <= g.entries[EntryOf(g, c)].amount + Excess(g, c)
  {
    ChargeIsCovered(g, c);
    match c
    case DomainCharge(name) => D.OrdersAreCovered(World(g.entries, g.domains), name);
    case TextCharge(m) => S.AcceptedIsCovered(World(g.entries, g.texts), m);
    case NumberCharge(p) => assert N.PurchaseOk(g.entries, g.numbers.purchases[p]);
  }

  function EntriesOf(g: Global, charges: seq<Charge>): (ids: seq<nat>)
    ensures |ids| == |charges| && forall k :: 0 <= k < |charges| ==> ids[k] == EntryOf(g, charges[k])
  {
    seq(|charges|, k requires 0 <= k < |charges| => EntryOf(g, charges[k]))
  }

  lemma {:induction false} TakenIsBilled(g: Global, charges: seq<Charge>)
    requires Inv(g) && forall k :: 0 <= k < |charges| ==> Made(g, charges[k])
    ensures forall k :: 0 <= k < |charges| ==> EntryOf(g, charges[k]) < |g.entries|
    ensures Taken(g, charges) <= Billed(g.entries, EntriesOf(g, charges)) + Extra(g, charges)
  {
    if charges != [] {
      PriceIsReserved(g, charges[0]);
      TakenIsBilled(g, charges[1..]);
      assert EntriesOf(g, charges)[1..] == EntriesOf(g, charges[1..]);
    }
  }

  /**
  The ledger never under-counts: whatever an agent's providers took on reservations made
  since a moment is at most what the ledger says the agent has spent since then, and what
  retried number purchases paid above their entries.
  */
  lemma {:induction false} LedgerNeverUndercounts(actions: seq<Action>, charges: seq<Charge>, agent: string,
      since: Moment)
    requires Run(actions).Some? && DisciplinedThroughout(actions)
    requires forall j, k :: 0 <= j < k < |charges| ==> charges[j] != charges[k]
    requires var g := Run(actions).value; forall k :: 0 <= k < |charges| ==>
      Made(g, charges[k]) && (EntryOf(g, charges[k]) < |g.entries| ==>
        g.entries[EntryOf(g, charges[k])].agent == agent && AtMost(since, g.entries[EntryOf(g, charges[k])].createdAt))
    ensures var g := Run(actions).value; Taken(g, charges) <= Spent(g.entries, agent, since) + Extra(g, charges)
  {
    RunKeepsInv(actions);
    var g := Run(actions).value;
    var ids := EntriesOf(g, charges);
    forall k | 0 <= k < |charges|
      ensures ids[k] < |g.entries| && Counts(g.entries[ids[k]], agent, since)
    {
      ChargeIsCovered(g, charges[k]);
    }
    forall j, k | 0 <= j < k < |charges| ensures ids[j] != ids[k] { ChargesHaveOwnEntries(g, charges[j], charges[k]); }
    DistinctEntriesSumBelowSpent(g.entries, ids, agent, since);
    TakenIsBilled(g, charges);
  }

  /** Without such retries nothing is taken beyond the ledger. */
  lemma {:induction false} NoRetryNoExtra(g: Global, charges: seq<Charge>)
    requires forall k :: 0 <= k < |charges| && charges[k].NumberCharge? ==>
      (charges[k].purchase < |g.numbers.purchases| ==> g.numbers.purchases[charges[k].purchase].own)
    ensures Extra(g, charges) == 0
  {
    if charges != [] { NoRetryNoExtra(g, charges[1..]); }
  }

  // ------------------------------------------------------------------ what overlapping approvals take from the ledger

  function TextSteps(steps: seq<S.Action>): (r: seq<Action>)
    ensures |r| == |steps|
  {
    seq(|steps|, k requires 0 <= k < |steps| => TextStep(steps[k]))
  }

  /** A run of the text protocol goes on in the whole. */
  lemma {:induction false} TextsGoOn(g: Global, steps: seq<S.Action>, w: S.State)
    requires Runs.Exec(S.Next, World(g.entries, g.texts), steps) == Some(w)
    ensures Runs.Exec(Next, g, TextSteps(steps)) == Some(g.(entries := w.entries, texts := w.local))
  {
    if steps != [] {
      var last := |steps| - 1;
      TextsGoOn(g, steps[..last], Runs.Exec(S.Next, World(g.entries, g.texts), steps[..last]).value);
      assert TextSteps(steps)[..last] == TextSteps(steps[..last]);
    }
  }

  /**
  In any run, two calls that are about to approve one text, whose entry is not charged yet,
  can bring the provider to take any price for it while the ledger counts no more than
  before, and the entry of the text is released.
  */
  lemma {:induction false} OverlapLeavesUncovered(actions: seq<Action>, b: nat, c: nat, m: nat, price: nat, at: Moment)
    returns (more: seq<Action>, h: Global)
    requires Run(actions).Some? && b != c
    requires var d := Run(actions).value.texts;
      && b in d.calls && c in d.calls && d.calls[b] == d.calls[c] == S.Approving(m, true) && m < |d.messages|
      && var found := Find(Run(actions).value.entries, d.messages[m].agent, SmsKey(m));
         found.Some? ==> Run(actions).value.entries[found.value].state != Charged
    ensures actions <= more && |more| == |actions| + 7 && Run(more) == Some(h)
    ensures Made(h, TextCharge(m)) && Price(h, TextCharge(m)) == price
    ensures EntryOf(h, TextCharge(m)) < |h.entries| && h.entries[EntryOf(h, TextCharge(m))].state == Released
    ensures forall agent, since :: Spent(h.entries, agent, since) <= Spent(Run(actions).value.entries, agent, since)
  {
    hide Runs.Exec, S.Base, Find, Spent;
    var g := Run(actions).value;
    RunIsSound(actions);
    var steps, w := S.OverlapLeavesUncovered(World(g.entries, g.texts), b, c, m, price, at);
    TextsGoOn(g, steps, w);
    Runs.Join(Next, Global([], D.Empty(), S.Empty(), N.Empty()), actions, TextSteps(steps));
    more, h := actions + TextSteps(steps), g.(entries := w.entries, texts := w.local);
  }

  /**
  So without its condition `LedgerNeverUndercounts` fails, at every price: here nothing is spent, and the price is
  taken.
  */
  lemma {:induction false} OverlapUndercounts(price: nat, at: Moment) returns (acts: seq<Action>, g: Global)
    requires price > 0
    ensures Run(acts) == Some(g) && Made(g, TextCharge(0)) && Taken(g, [TextCharge(0)]) == price
    ensures forall agent, since :: Spent(g.entries, agent, since) + Extra(g, [TextCharge(0)]) == 0
  {
    var empty := Global([], D.Empty(), S.Empty(), N.Empty());
    var steps, s := S.TwoApproversRead();
    TextsGoOn(empty, steps, s);
    var h: Global;
    acts, h := OverlapLeavesUncovered(TextSteps(steps), 1, 2, 0, price, at);
    g := h;
    assert Spent([], "", at) == 0;
    assert Taken(g, []) == 0 && Extra(g, []) == 0;
  }
}
