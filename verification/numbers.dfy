/**
Buying phone numbers (`buy_number` and `_record_number` in sms.py) as a state
machine. A purchase whose reply was lost is recovered by its label, which is the
ledger entry; that works as long as no two calls find nothing bought on
one entry. `purchases` keeps what the provider really sold, at which price, and the entry's state at the buying call.
*/
module Numbers {
  import opened Wrappers
  import Runs
  import opened Ledger

  /**
  A sale: the provider takes the price it quoted to the buying call; `own` says that this call made the reservation
  itself.
  */
  datatype Purchase = Purchase(entry: nat, number: string, price: nat, stateAtBuy: EntryState, own: bool)

  datatype Reply = Refusal | NoReply(bought: bool) | Bought

  datatype Ending = Returned | Stopped

  datatype Pc =
    | Reserving(agent: string, key: string)
    | Checking(agent: string, key: string, id: nat, price: nat, replayed: bool)
    | Finding(agent: string, key: string, id: nat, price: nat)
    | Choosing(agent: string, key: string, id: nat, price: nat, own: bool)
    | Buying(agent: string, key: string, id: nat, price: nat, own: bool, number: string)
    | Releasing(agent: string, key: string, id: nat)
    | Charging(agent: string, key: string, id: nat, number: string)
    | Recording(agent: string, key: string, id: nat, number: string)
    | Done(ending: Ending)

  /** `endpoints` maps a number to the entry it was paid from; addresses are unique. */
  datatype Desk = Desk(calls: map<nat, Pc>, endpoints: map<string, nat>, purchases: seq<Purchase>)

  type State = World<Desk>

  datatype Step =
    | Reserve(amount: nat, at: Moment)
    | SeeEndpoint
    | Find(found: Option<string>)
    | NoneAvailable
    | Choose(number: string)
    | Buy(reply: Reply) | Release | Charge | Record | Stop

  datatype Action = Begin(call: nat, agent: string, key: string) | Take(call: nat, step: Step)

  predicate BoughtFor(d: Desk, id: nat) {
    exists p :: 0 <= p < |d.purchases| && d.purchases[p].entry == id
  }

  predicate HasEndpoint(d: Desk, id: nat) {
    exists n :: n in d.endpoints && d.endpoints[n] == id
  }

  /** The provider's contract: a lookup by label sees exactly the completed purchases with that label. */
  predicate FindsTruly(d: Desk, id: nat, found: Option<string>) {
    if found.Some? then
      exists p :: 0 <= p < |d.purchases| && d.purchases[p].entry == id && d.purchases[p].number == found.value
    else !BoughtFor(d, id)
  }

  predicate CanTake(s: State, pc: Pc, step: Step) {
    match step
    case Reserve(_, _) => pc.Reserving?
    case SeeEndpoint => pc.Checking?
    case Find(found) => pc.Finding? && FindsTruly(s.local, pc.id, found)
    case NoneAvailable => pc.Choosing?
    case Choose(_) => pc.Choosing?
    case Buy(_) => pc.Buying? && pc.id < |s.entries|
    case Release => pc.Releasing? && pc.id < |s.entries|
    case Charge => pc.Charging? && pc.id < |s.entries|
    case Record => pc.Recording?
    case Stop => !pc.Done?
  }

  predicate Enabled(s: State, a: Action) {
    match a
    case Begin(c, _, _) => c !in s.local.calls
    case Take(c, step) => c in s.local.calls && CanTake(s, s.local.calls[c], step)
  }

  datatype Effect =
    | Nothing
    | AddEntry(entry: Entry)
    | AddPurchase(purchase: Purchase)
    | SettleEntry(id: nat, charged: bool)
    | AddEndpoint(number: string, id: nat)

  function EffectOf(s: State, pc: Pc, step: Step): Effect
    requires CanTake(s, pc, step)
  {
    match step
    case Reserve(amount, at) =>
      if Ledger.Find(s.entries, pc.agent, NumberKey(pc.key)).Some? then Nothing
      else AddEntry(Entry(pc.agent, SmsNumber, amount, NumberKey(pc.key), Reserved, at))
    case Buy(reply) =>
      if reply.Bought? || (reply.NoReply?
        && reply.bought) then AddPurchase(Purchase(pc.id, pc.number, pc.price, s.entries[pc.id].state, pc.own))
          else Nothing
    case Release => SettleEntry(pc.id, false)
    case Charge => SettleEntry(pc.id, true)
    case Record => if pc.number in s.local.endpoints then Nothing else AddEndpoint(pc.number, pc.id)
    case _ => Nothing
  }

  function Perform(s: State, effect: Effect): State {
    match effect
    case Nothing => s
    case AddEntry(entry) => s.(entries := s.entries + [entry])
    case AddPurchase(purchase) => s.(local := s.local.(purchases := s.local.purchases + [purchase]))
    case SettleEntry(id, charged) => if id < |s.entries| then s.(entries := Settled(s.entries, id, charged)) else s
    case AddEndpoint(number, id) => s.(local := s.local.(endpoints := s.local.endpoints[number := id]))
  }

  function After(s: State, pc: Pc, step: Step): Pc
    requires CanTake(s, pc, step)
  {
    match step
    case Reserve(amount, _) =>
      var found := Ledger.Find(s.entries, pc.agent, NumberKey(pc.key));
      if found.None? then Checking(pc.agent, pc.key, |s.entries|, amount, false)
      else if s.entries[found.value].kind == SmsNumber then Checking(pc.agent, pc.key, found.value, amount, true)
      else Done(Stopped)
    case SeeEndpoint =>
      if HasEndpoint(s.local, pc.id) then Done(Returned)
      else if pc.replayed then Finding(pc.agent, pc.key, pc.id, pc.price)
      else Choosing(pc.agent, pc.key, pc.id, pc.price, true)
    case Find(found) =>
      if found.Some? then Charging(pc.agent, pc.key, pc.id, found.value)
        else Choosing(pc.agent, pc.key, pc.id, pc.price, false)
    case NoneAvailable => Releasing(pc.agent, pc.key, pc.id)
    case Choose(number) => Buying(pc.agent, pc.key, pc.id, pc.price, pc.own, number)
    case Buy(reply) =>
      (match reply
       case Refusal => Releasing(pc.agent, pc.key, pc.id)
       case NoReply(_) => Done(Stopped)
       case Bought => Charging(pc.agent, pc.key, pc.id, pc.number))
    case Release => Done(Stopped)
    case Charge => Recording(pc.agent, pc.key, pc.id, pc.number)
    case Record => Done(Returned)
    case Stop => Done(Stopped)
  }

  function Goto(s: State, call: nat, pc: Pc): State {
    s.(local := s.local.(calls := s.local.calls[call := pc]))
  }

  function Apply(s: State, a: Action): State
    requires Enabled(s, a)
  {
    match a
    case Begin(c, agent, key) => Goto(s, c, Reserving(agent, key))
    case Take(c, step) =>
      var pc := s.local.calls[c];
      Goto(Perform(s, EffectOf(s, pc, step)), c, After(s, pc, step))
  }

  function Next(s: State, a: Action): Option<State> {
    if Enabled(s, a) then Some(Apply(s, a)) else None
  }

  function Empty(): Desk {
    Desk(map[], map[], [])
  }

  function Run(actions: seq<Action>): Option<State> {
    Runs.Exec(Next, World([], Empty()), actions)
  }

  // ------------------------------------------------------------------ what holds in every run

  /** The call reserved the entry it works on itself, and has not yet asked again whether a number was bought. */
  predicate ReservedIt(pc: Pc) {
    (pc.Checking? && !pc.replayed) || ((pc.Choosing? || pc.Buying?) && pc.own)
  }

  predicate CallTyped(s: State, pc: Pc) {
    && (!pc.Done? && !pc.Reserving? ==>
      pc.id < |s.entries| && s.entries[pc.id].agent == pc.agent && s.entries[pc.id].dedupe == NumberKey(pc.key)
        && s.entries[pc.id].kind == SmsNumber)
    && (pc.Charging? || pc.Recording? ==> BoughtFor(s.local, pc.id))
    && (ReservedIt(pc) ==> s.entries[pc.id].amount == pc.price)
  }

  /**
  A sale has its entry, at its price if the call reserved it itself; an entry settled before the sale is settled that
  way for good.
  */
  predicate SaleTyped(es: Entries, p: Purchase) {
    && p.entry < |es| && es[p.entry].kind == SmsNumber && (p.own ==> es[p.entry].amount == p.price)
    && (p.stateAtBuy != Reserved ==> es[p.entry].state == p.stateAtBuy)
  }

  /** However calls overlap: every call has its entry, an (agent, key) has one, and what is charged was bought. */
  ghost predicate Base(s: State) {
    var es, d := s.entries, s.local;
    && (forall c :: c in d.calls ==> CallTyped(s, d.calls[c]))
    && (forall p :: 0 <= p < |d.purchases| ==> SaleTyped(es, d.purchases[p]))
    && (forall n :: n in d.endpoints ==> BoughtFor(d, d.endpoints[n]))
    && (forall i, j :: 0 <= i < j < |es| && es[i].kind == SmsNumber && es[j].kind == SmsNumber ==>
      es[i].agent != es[j].agent || es[i].dedupe != es[j].dedupe)
    && (forall i :: 0 <= i < |es| ==> Typed(es[i]))
  }

  lemma {:induction false} BoughtStays(s: State, t: State, id: nat)
    requires s.local.purchases <= t.local.purchases && BoughtFor(s.local, id)
    ensures BoughtFor(t.local, id)
  {
    var p :| 0 <= p < |s.local.purchases| && s.local.purchases[p].entry == id;
    assert t.local.purchases[p].entry == id;
  }

  /** What no step ever takes back: purchases, entries, and their settlement. */
  ghost predicate Later(s: State, t: State) {
    && s.local.purchases <= t.local.purchases && |s.entries| <= |t.entries|
    && (forall i :: 0 <= i < |s.entries| ==> t.entries[i] == s.entries[i].(state := t.entries[i].state))
    && (forall i :: 0 <= i < |s.entries| && s.entries[i].state != Reserved ==> t.entries[i] == s.entries[i])
  }

  lemma {:induction false} StepIsLater(s: State, a: Action)
    requires Enabled(s, a)
    ensures Later(s, Apply(s, a))
  {
  }

  lemma {:induction false} BaseArrives(s: State, c: nat, step: Step)
    requires Base(s) && Enabled(s, Take(c, step))
    ensures CallTyped(Apply(s, Take(c, step)), After(s, s.local.calls[c], step))
  {
    var pc, t := s.local.calls[c], Apply(s, Take(c, step));
    assert CallTyped(s, pc);
    StepIsLater(s, Take(c, step));
    if step.Buy? && step.reply.Bought? { assert t.local.purchases[|s.local.purchases|].entry == pc.id; }
    if pc.Charging? { BoughtStays(s, t, pc.id); }
    if step.Find? && step.found.Some? { assert BoughtFor(s.local, pc.id); }
  }

  lemma {:induction false} CallTypedStays(s: State, t: State, pc: Pc)
    requires CallTyped(s, pc) && Later(s, t)
    ensures CallTyped(t, pc)
  {
    if pc.Charging? || pc.Recording? { BoughtStays(s, t, pc.id); }
  }

  lemma {:induction false} BaseCalls(s: State, a: Action)
    requires Base(s) && Enabled(s, a)
    ensures forall b :: b in Apply(s, a).local.calls ==> CallTyped(Apply(s, a), Apply(s, a).local.calls[b])
  {
    var t := Apply(s, a);
    StepIsLater(s, a);
    if a.Take? { BaseArrives(s, a.call, a.step); }
    assert forall b :: b in t.local.calls && b != a.call ==> b in s.local.calls && t.local.calls[b] == s.local.calls[b];
    assert CallTyped(t, t.local.calls[a.call]);
    hide Apply, Later, CallTyped;
    forall b | b in t.local.calls ensures CallTyped(t, t.local.calls[b]) {
      if b != a.call { CallTypedStays(s, t, s.local.calls[b]); }
    }
  }

  lemma {:induction false} BaseSales(s: State, a: Action)
    requires Base(s) && Enabled(s, a)
    ensures forall p :: 0 <= p < |Apply(s, a).local.purchases| ==>
      SaleTyped(Apply(s, a).entries, Apply(s, a).local.purchases[p])
  {
    var t := Apply(s, a);
    StepIsLater(s, a);
    if a.Take? { assert CallTyped(s, s.local.calls[a.call]); }
    forall p | 0 <= p < |t.local.purchases| ensures SaleTyped(t.entries, t.local.purchases[p]) {
      if p < |s.local.purchases| { assert SaleTyped(s.entries, s.local.purchases[p]); }
    }
  }

  lemma {:induction false} BaseEndpoints(s: State, a: Action)
    requires Base(s) && Enabled(s, a)
    ensures forall n :: n in Apply(s, a).local.endpoints ==>
      BoughtFor(Apply(s, a).local, Apply(s, a).local.endpoints[n])
  {
    var t := Apply(s, a);
    StepIsLater(s, a);
    if a.Take? { assert CallTyped(s, s.local.calls[a.call]); }
    forall n | n in t.local.endpoints
      ensures BoughtFor(t.local, t.local.endpoints[n])
    {
      BoughtStays(s, t, t.local.endpoints[n]);
    }
  }

  lemma {:induction false} BaseEntries(s: State, a: Action)
    requires Base(s) && Enabled(s, a)
    ensures var es := Apply(s, a).entries;
      && (forall i, j :: 0 <= i < j < |es| && es[i].kind == SmsNumber && es[j].kind == SmsNumber ==>
        es[i].agent != es[j].agent || es[i].dedupe != es[j].dedupe)
      && (forall i :: 0 <= i < |es| ==> Typed(es[i]))
  {
    if a.Take? { assert CallTyped(s, s.local.calls[a.call]); }
    hide BoughtFor, HasEndpoint, CallTyped;
  }

  lemma {:induction false} BaseStep(s: State, a: Action)
    requires Base(s) && Enabled(s, a)
    ensures Base(Apply(s, a)) && Later(s, Apply(s, a))
  {
    hide Apply, Enabled, CallTyped, SaleTyped, BoughtFor, Later;
    StepIsLater(s, a);
    BaseCalls(s, a);
    BaseSales(s, a);
    BaseEndpoints(s, a);
    BaseEntries(s, a);
  }

  lemma {:induction false} BaseRun(actions: seq<Action>)
    requires Run(actions).Some?
    ensures Base(Run(actions).value)
  {
    if actions != [] {
      BaseRun(actions[..|actions| - 1]);
      BaseStep(Run(actions[..|actions| - 1]).value, actions[|actions| - 1]);
    }
  }

  // ------------------------------------------------------------------ the invariant

  /** The call found nothing bought for its entry, and goes on to buy. */
  predicate Buys(pc: Pc) {
    (pc.Checking? && !pc.replayed) || pc.Choosing? || pc.Buying?
  }

  /** It goes on to buy, or to give the money back. */
  predicate Shops(pc: Pc) {
    Buys(pc) || pc.Releasing?
  }

  /** No two calls buy on one entry. */
  predicate OneBuyer(s: State) {
    var calls := s.local.calls;
    forall a, b :: a in calls && b in calls && a != b && Buys(calls[a]) && Buys(calls[b]) ==> calls[a].id != calls[b].id
  }

  /** Nor does one buy while another gives the money back. */
  predicate OneShopper(s: State) {
    var calls := s.local.calls;
    forall a, b :: a in calls && b in calls && a != b && Buys(calls[a]) && Shops(calls[b]) ==>
      calls[a].id != calls[b].id
  }

  ghost predicate CallOk(s: State, pc: Pc) {
    var es, d := s.entries, s.local;
    && (!pc.Done? && !pc.Reserving? ==>
      pc.id < |es| && es[pc.id].agent == pc.agent && es[pc.id].dedupe == NumberKey(pc.key)
        && es[pc.id].kind == SmsNumber)
    && (Shops(pc) ==> !BoughtFor(d, pc.id))
    && (pc.Charging? || pc.Recording? ==> BoughtFor(d, pc.id))
    && (ReservedIt(pc) ==> es[pc.id].amount == pc.price)
  }

  ghost predicate PurchaseOk(es: Entries, p: Purchase) {
    && p.entry < |es| && es[p.entry].kind == SmsNumber && p.stateAtBuy != Charged
    && (es[p.entry].state != Released <==> p.stateAtBuy == Reserved)
    && (p.own ==> es[p.entry].amount == p.price)
  }

  ghost predicate Inv(s: State) {
    var es, d := s.entries, s.local;
    && (forall c :: c in d.calls ==> CallOk(s, d.calls[c]))
    && (forall p :: 0 <= p < |d.purchases| ==> PurchaseOk(es, d.purchases[p]))
    && (forall p, q :: 0 <= p < q < |d.purchases| ==> d.purchases[p].entry != d.purchases[q].entry)
    && (forall i :: 0 <= i < |es| && es[i].kind == SmsNumber && es[i].state == Charged ==> BoughtFor(d, i))
    && (forall i, j :: 0 <= i < j < |es| && es[i].kind == SmsNumber && es[j].kind == SmsNumber ==>
      es[i].agent != es[j].agent || es[i].dedupe != es[j].dedupe)
    && (forall i :: 0 <= i < |es| ==> Typed(es[i]))
  }

  ghost predicate Fits(s: State, effect: Effect) {
    var es, d := s.entries, s.local;
    match effect
    case Nothing => true
    case AddEntry(e) =>
      e.kind == SmsNumber && Typed(e) && e.state == Reserved && Ledger.Find(es, e.agent, e.dedupe).None?
    case AddPurchase(p) =>
      && p.entry < |es| && es[p.entry].kind == SmsNumber && es[p.entry].state == p.stateAtBuy && !BoughtFor(d, p.entry)
      && (p.own ==> es[p.entry].amount == p.price)
      && (forall b :: b in d.calls && Shops(d.calls[b]) ==> d.calls[b].id != p.entry)
    case SettleEntry(id, charged) => id < |es| && (charged <==> BoughtFor(d, id))
    case AddEndpoint(_, _) => true
  }

  lemma {:induction false} BoughtAfter(s: State, effect: Effect, id: nat)
    ensures BoughtFor(Perform(s, effect).local, id) <==>
      BoughtFor(s.local, id) || (effect.AddPurchase? && effect.purchase.entry == id)
  {
    var t := Perform(s, effect);
    if effect.AddPurchase? {
      assert t.local.purchases[|s.local.purchases|].entry == effect.purchase.entry;
      if BoughtFor(s.local, id) { BoughtStays(s, t, id); }
    }
  }

  lemma {:induction false} PerformKeepsCalls(s: State, effect: Effect)
    requires Inv(s) && Fits(s, effect)
    ensures var t := Perform(s, effect); forall b :: b in t.local.calls ==> CallOk(t, t.local.calls[b])
  {
    var t := Perform(s, effect);
    forall b | b in t.local.calls ensures CallOk(t, t.local.calls[b]) {
      assert CallOk(s, s.local.calls[b]);
      if !t.local.calls[b].Done? && !t.local.calls[b].Reserving? { BoughtAfter(s, effect, t.local.calls[b].id); }
    }
  }

  lemma {:induction false} PerformKeepsInv(s: State, effect: Effect)
    requires Inv(s) && Fits(s, effect)
    ensures Inv(Perform(s, effect))
  {
    hide BoughtFor, CallOk;
    PerformKeepsCalls(s, effect);
    var t := Perform(s, effect);
    forall id: nat
      ensures BoughtFor(t.local, id) <==> BoughtFor(s.local, id) || (effect.AddPurchase? && effect.purchase.entry == id)
    {
      BoughtAfter(s, effect, id);
    }
    forall p | 0 <= p < |t.local.purchases| ensures PurchaseOk(t.entries, t.local.purchases[p]) {
      if p < |s.local.purchases| { assert PurchaseOk(s.entries, s.local.purchases[p]); UnboughtEntry(s, p); }
    }
    forall p | effect.AddPurchase? && 0 <= p < |s.local.purchases|
      ensures s.local.purchases[p].entry != effect.purchase.entry
    {
      UnboughtEntry(s, p);
    }
  }

  lemma {:induction false} UnboughtEntry(s: State, p: nat)
    requires p < |s.local.purchases|
    ensures BoughtFor(s.local, s.local.purchases[p].entry)
  {
  }

  lemma {:induction false} GotoKeepsInv(s: State, c: nat, pc: Pc)
    requires Inv(s) && CallOk(s, pc)
    ensures Inv(Goto(s, c, pc))
  {
    var t := Goto(s, c, pc);
    assert forall id :: BoughtFor(t.local, id) == BoughtFor(s.local, id);
    forall b | b in t.local.calls ensures CallOk(t, t.local.calls[b]) {
      if b != c { assert CallOk(s, s.local.calls[b]); }
    }
  }

  lemma {:induction false} EffectFits(s: State, c: nat, step: Step)
    requires Inv(s) && OneShopper(s) && Enabled(s, Take(c, step))
    ensures Fits(Goto(s, c, Done(Stopped)), EffectOf(s, s.local.calls[c], step))
  {
    var pc := s.local.calls[c];
    assert CallOk(s, pc);
  }

  lemma {:induction false} Arrives(s: State, c: nat, step: Step)
    requires Inv(s) && Enabled(s, Take(c, step))
    ensures CallOk(Perform(s, EffectOf(s, s.local.calls[c], step)), After(s, s.local.calls[c], step))
  {
    var pc := s.local.calls[c];
    assert CallOk(s, pc);
    var t := Perform(s, EffectOf(s, pc, step));
    if step.Buy? && step.reply.Bought? { assert t.local.purchases[|s.local.purchases|].entry == pc.id; }
    if step.Reserve? {
      forall p | 0 <= p < |s.local.purchases|
        ensures s.local.purchases[p].entry != |s.entries|
      {
        assert PurchaseOk(s.entries, s.local.purchases[p]);
      }
    }
  }

  lemma {:induction false} StepKeepsInv(s: State, a: Action)
    requires Inv(s) && OneShopper(s) && Enabled(s, a)
    ensures Inv(Apply(s, a))
  {
    match a
    case Begin(c, agent, key) => GotoKeepsInv(s, c, Reserving(agent, key));
    case Take(c, step) =>
      var pc := s.local.calls[c];
      var effect, next := EffectOf(s, pc, step), After(s, pc, step);
      var idle := Goto(s, c, Done(Stopped));
      assert Inv(Perform(idle, effect)) by {
        GotoKeepsInv(s, c, Done(Stopped));
        EffectFits(s, c, step);
        PerformKeepsInv(idle, effect);
      }
      Arrives(s, c, step);
      IdleFirst(s, c, effect, next);
      GotoKeepsInv(Perform(idle, effect), c, next);
  }

  lemma {:induction false} IdleFirst(s: State, c: nat, effect: Effect, pc: Pc)
    requires CallOk(Perform(s, effect), pc)
    ensures CallOk(Perform(Goto(s, c, Done(Stopped)), effect), pc)
    ensures Goto(Perform(Goto(s, c, Done(Stopped)), effect), c, pc) == Goto(Perform(s, effect), c, pc)
  {
    assert s.local.calls[c := Done(Stopped)][c := pc] == s.local.calls[c := pc];
    assert Perform(Goto(s, c, Done(Stopped)), effect).local.purchases == Perform(s, effect).local.purchases;
  }

  // ------------------------------------------------------------------ every run

  ghost predicate OneShopperThroughout(actions: seq<Action>) {
    forall k :: 0 <= k < |actions| ==> Run(actions[..k]).Some? ==> OneShopper(Run(actions[..k]).value)
  }

  lemma {:induction false} RunKeepsInv(actions: seq<Action>)
    requires Run(actions).Some? && OneShopperThroughout(actions)
    ensures Inv(Run(actions).value)
  {
    if actions != [] {
      var last := |actions| - 1;
      assert forall k :: 0 <= k < last ==> actions[..last][..k] == actions[..k];
      RunKeepsInv(actions[..last]);
      StepKeepsInv(Run(actions[..last]).value, actions[last]);
    }
  }

  /** Who goes on to buy really has nothing bought, and no entry has two sales. */
  ghost predicate Once(s: State) {
    && (forall c :: c in s.local.calls && Buys(s.local.calls[c]) ==> !BoughtFor(s.local, s.local.calls[c].id))
    && (forall p, q :: 0 <= p < q < |s.local.purchases| ==> s.local.purchases[p].entry != s.local.purchases[q].entry)
  }

  /** What is bought for an entry after a step. */
  lemma {:induction false} BoughtBy(s: State, a: Action, id: nat)
    requires Enabled(s, a)
    ensures BoughtFor(Apply(s, a).local, id) <==>
      BoughtFor(s.local, id)
      || (a.Take? && EffectOf(s, s.local.calls[a.call], a.step).AddPurchase?
        && EffectOf(s, s.local.calls[a.call], a.step).purchase.entry == id)
  {
    var t := Apply(s, a);
    StepIsLater(s, a);
    if BoughtFor(s.local, id) { BoughtStays(s, t, id); }
    if a.Take? && EffectOf(s, s.local.calls[a.call], a.step).AddPurchase? {
      assert t.local.purchases[|s.local.purchases|] == EffectOf(s, s.local.calls[a.call], a.step).purchase;
    }
  }

  lemma {:induction false} OnceSales(s: State, a: Action)
    requires Base(s) && Once(s) && Enabled(s, a)
    ensures var sales := Apply(s, a).local.purchases;
      forall p, q :: 0 <= p < q < |sales| ==> sales[p].entry != sales[q].entry
  {
    if a.Take? && a.step.Buy? { assert Buys(s.local.calls[a.call]); }
    hide Base;
  }

  /** A call that goes on to buy after the step has just looked, or did so before. */
  lemma {:induction false} BuyerLooked(s: State, a: Action, c: nat)
    requires Base(s) && Once(s) && OneBuyer(s) && Enabled(s, a) && c in Apply(s, a).local.calls
      && Buys(Apply(s, a).local.calls[c])
    ensures !BoughtFor(Apply(s, a).local, Apply(s, a).local.calls[c].id)
  {
    var pc := Apply(s, a).local.calls[c];
    BoughtBy(s, a, pc.id);
    if a.call != c {
      assert Buys(s.local.calls[c]);
    } else if a.Take? && a.step.Reserve? {
      forall p | 0 <= p < |s.local.purchases|
        ensures s.local.purchases[p].entry != |s.entries|
      {
        assert SaleTyped(s.entries, s.local.purchases[p]);
      }
    } else if a.Take? && !a.step.Find? {
      assert Buys(s.local.calls[c]);
    }
    hide Base, Run;
  }

  ghost predicate OneBuyerThroughout(actions: seq<Action>) {
    forall k :: 0 <= k < |actions| ==> Run(actions[..k]).Some? ==> OneBuyer(Run(actions[..k]).value)
  }

  lemma {:induction false} RunIsOnce(actions: seq<Action>)
    requires Run(actions).Some? && OneBuyerThroughout(actions)
    ensures Once(Run(actions).value)
  {
    if actions != [] {
      var last := |actions| - 1;
      assert forall k :: 0 <= k < last ==> actions[..last][..k] == actions[..k];
      RunIsOnce(actions[..last]);
      BaseRun(actions[..last]);
      var s := Run(actions[..last]).value;
      OnceSales(s, actions[last]);
      forall c | c in Apply(s, actions[last]).local.calls && Buys(Apply(s, actions[last]).local.calls[c])
        ensures !BoughtFor(Apply(s, actions[last]).local, Apply(s, actions[last]).local.calls[c].id)
      {
        BuyerLooked(s, actions[last], c);
      }
    }
  }

  /**
  As long as no two calls buy on one entry, no retries, overlaps or crashes buy a second number for one (agent, key).
  */
  lemma {:induction false} BoughtAtMostOnce(actions: seq<Action>, p: nat, q: nat)
    requires Run(actions).Some? && OneBuyerThroughout(actions)
    requires p < q < |Run(actions).value.local.purchases|
    ensures var s := Run(actions).value; var a, b := s.local.purchases[p].entry, s.local.purchases[q].entry;
      a < |s.entries| && b < |s.entries|
        && (s.entries[a].agent != s.entries[b].agent || s.entries[a].dedupe != s.entries[b].dedupe)
  {
    RunIsOnce(actions);
    BaseRun(actions);
    var s := Run(actions).value;
    assert SaleTyped(s.entries, s.local.purchases[p]) && SaleTyped(s.entries, s.local.purchases[q]);
  }

  /**
  As long as no call buys on an entry while another shops on it, a bought number is covered
  by its ledger entry exactly when that entry was still reserved at the buying call. A retry
  after a release buys again on a released entry, which settling cannot charge.
  */
  lemma {:induction false} CoveredIffReservedAtBuy(actions: seq<Action>, p: nat)
    requires Run(actions).Some? && OneShopperThroughout(actions) && p < |Run(actions).value.local.purchases|
    ensures var s := Run(actions).value; var bought := s.local.purchases[p];
      bought.entry < |s.entries| && (s.entries[bought.entry].state != Released <==> bought.stateAtBuy == Reserved)
  {
    RunKeepsInv(actions);
    assert PurchaseOk(Run(actions).value.entries, Run(actions).value.local.purchases[p]);
  }

  /** One half of it needs no condition: what was bought on a settled entry stays so settled, in every run. */
  lemma {:induction false} SettledAtBuyStays(actions: seq<Action>, p: nat)
    requires Run(actions).Some? && p < |Run(actions).value.local.purchases|
      && Run(actions).value.local.purchases[p].stateAtBuy != Reserved
    ensures var s := Run(actions).value; var bought := s.local.purchases[p];
      bought.entry < |s.entries| && s.entries[bought.entry].state == bought.stateAtBuy
  {
    BaseRun(actions);
    assert SaleTyped(Run(actions).value.entries, Run(actions).value.local.purchases[p]);
  }

  /** The other half is lost, however calls overlap, exactly when a call gives back the entry while it is reserved. */
  lemma {:induction false} CoverLostIff(s: State, a: Action, p: nat)
    requires Base(s) && Enabled(s, a) && p < |s.local.purchases|
    ensures var id := s.local.purchases[p].entry;
      && id < |s.entries| && id < |Apply(s, a).entries|
      && (s.entries[id].state != Released && Apply(s, a).entries[id].state == Released <==>
            a.Take? && a.step.Release? && s.local.calls[a.call].id == id && s.entries[id].state == Reserved)
  {
    assert SaleTyped(s.entries, s.local.purchases[p]);
    StepIsLater(s, a);
    hide Base, BoughtFor, HasEndpoint, FindsTruly;
  }

  lemma {:induction false} NoneAvailableReleased(at: Moment) returns (acts: seq<Action>, s: State)
    ensures Run(acts) == Some(s) && s.entries == [Entry("a", SmsNumber, 115, NumberKey("k"), Released, at)]
    ensures s.local == Desk(map[0 := Done(Stopped)], map[], [])
  {
    s, acts := World([], Empty()), [];
    assert Run(acts) == Some(s);
    hide Runs.Exec;
    acts, s := Runs.Then(Next, World([], Empty()), acts, Begin(0, "a", "k"), s);
    acts, s := Runs.Then(Next, World([], Empty()), acts, Take(0, Reserve(115, at)), s);
    acts, s := Runs.Then(Next, World([], Empty()), acts, Take(0, SeeEndpoint), s);
    acts, s := Runs.Then(Next, World([], Empty()), acts, Take(0, NoneAvailable), s);
    acts, s := Runs.Then(Next, World([], Empty()), acts, Take(0, Release), s);
    assert s.local.calls == map[0 := Done(Stopped)];
  }

  lemma {:induction false} RetryReachesBuying(at: Moment) returns (acts: seq<Action>, s: State)
    ensures Run(acts) == Some(s) && s.entries == [Entry("a", SmsNumber, 115, NumberKey("k"), Released, at)]
    ensures s.local == Desk(map[0 := Done(Stopped), 1 := Buying("a", "k", 0, 200, false, "+1")], map[], [])
  {
    hide Runs.Exec;
    acts, s := NoneAvailableReleased(at);
    acts, s := Runs.Then(Next, World([], Empty()), acts, Begin(1, "a", "k"), s);
    acts, s := Runs.Then(Next, World([], Empty()), acts, Take(1, Reserve(200, at)), s);
    acts, s := Runs.Then(Next, World([], Empty()), acts, Take(1, SeeEndpoint), s);
    acts, s := Runs.Then(Next, World([], Empty()), acts, Take(1, Find(None)), s);
    acts, s := Runs.Then(Next, World([], Empty()), acts, Take(1, Choose("+1")), s);
    assert s.local.calls == map[0 := Done(Stopped), 1 := Buying("a", "k", 0, 200, false, "+1")];
  }

  /** Such a retry: none available, released; then the same key buys, and the charge stays uncovered. */
  lemma {:induction false} RetryAfterReleaseIsUncovered(at: Moment) returns (acts: seq<Action>, s: State)
    ensures Run(acts) == Some(s) && |s.entries| == 1 && s.entries[0].state == Released
    ensures |s.local.purchases| == 1 && s.local.purchases[0].entry == 0 && "+1" in s.local.endpoints
  {
    hide Runs.Exec;
    acts, s := RetryReachesBuying(at);
    acts, s := RetryBuys(acts, s, at);
    acts, s := Runs.Then(Next, World([], Empty()), acts, Take(1, Charge), s);
    acts, s := Runs.Then(Next, World([], Empty()), acts, Take(1, Record), s);
  }

  lemma {:induction false} RetryBuys(before: seq<Action>, b: State, at: Moment) returns (acts: seq<Action>, s: State)
    requires Run(before) == Some(b) && b.entries == [Entry("a", SmsNumber, 115, NumberKey("k"), Released, at)]
    requires 1 in b.local.calls && b.local.calls[1] == Buying("a", "k", 0, 200, false, "+1") && b.local.purchases == []
    ensures Run(acts) == Some(s) && s.entries == b.entries
      && s.local.purchases == [Purchase(0, "+1", 200, Released, false)]
    ensures 1 in s.local.calls && s.local.calls[1] == Charging("a", "k", 0, "+1")
  {
    hide Runs.Exec;
    acts, s := Runs.Then(Next, World([], Empty()), before, Take(1, Buy(Bought)), b);
  }

  /** Whatever overlaps: a call that made its reservation itself pays exactly what it reserved. */
  lemma {:induction false} OwnReservationIsThePrice(actions: seq<Action>, p: nat)
    requires Run(actions).Some? && p < |Run(actions).value.local.purchases|
    ensures var s := Run(actions).value; var bought := s.local.purchases[p];
      bought.entry < |s.entries| && (bought.own ==> s.entries[bought.entry].amount == bought.price)
  {
    BaseRun(actions);
    assert SaleTyped(Run(actions).value.entries, Run(actions).value.local.purchases[p]);
  }

  // ------------------------------------------------------------------ what overlapping calls, and retries, can do

  /** Call c moved, and no other; nothing was recorded. */
  ghost predicate OnlyMoved(s: State, t: State, c: nat) {
    && c in t.local.calls && t.local.endpoints == s.local.endpoints
    && forall b :: b != c && b in s.local.calls ==> b in t.local.calls && t.local.calls[b] == s.local.calls[b]
  }

  /** The call goes on to buy, and a first look at the endpoints finds none. */
  predicate Finds(s: State, pc: Pc) {
    Buys(pc) && (pc.Checking? ==> !HasEndpoint(s.local, pc.id))
  }

  /** The step moves c to `to`, and does nothing else. */
  ghost predicate LeadsTo(s: State, c: nat, step: Step, to: Pc) {
    var t := Next(s, Take(c, step));
    t.Some? && OnlyMoved(s, t.value, c) && t.value.local.calls[c] == to && t.value.entries == s.entries
      && t.value.local.purchases == s.local.purchases
  }

  lemma {:induction false} LookLeads(s: State, c: nat)
    requires c in s.local.calls && s.local.calls[c].Checking? && Finds(s, s.local.calls[c])
    ensures var pc := s.local.calls[c]; LeadsTo(s, c, SeeEndpoint, Choosing(pc.agent, pc.key, pc.id, pc.price, true))
  {
  }

  lemma {:induction false} ChooseLeads(s: State, c: nat, number: string)
    requires c in s.local.calls && s.local.calls[c].Choosing?
    ensures var pc := s.local.calls[c];
      && LeadsTo(s, c, Choose(number), Buying(pc.agent, pc.key, pc.id, pc.price, pc.own, number))
      && LeadsTo(s, c, NoneAvailable, Releasing(pc.agent, pc.key, pc.id))
  {
  }

  lemma {:induction false} RefusalLeads(s: State, c: nat)
    requires c in s.local.calls && s.local.calls[c].Buying? && s.local.calls[c].id < |s.entries|
    ensures var pc := s.local.calls[c]; LeadsTo(s, c, Buy(Refusal), Releasing(pc.agent, pc.key, pc.id))
  {
  }

  /** Call c bought, at its price, on its entry as it stands. */
  ghost predicate Sold(s: State, t: State, c: nat, id: nat, price: nat) {
    var n := |s.local.purchases|;
    && OnlyMoved(s, t, c) && t.entries == s.entries && id < |s.entries|
    && |t.local.purchases| == n + 1 && t.local.purchases[..n] == s.local.purchases
    && t.local.purchases[n].entry == id && t.local.purchases[n].price == price
    && t.local.purchases[n].stateAtBuy == s.entries[id].state
    && t.local.calls[c].Charging? && t.local.calls[c].id == id
  }

  lemma {:induction false} BuyingSells(s: State, c: nat)
    requires c in s.local.calls && s.local.calls[c].Buying? && s.local.calls[c].id < |s.entries|
    ensures var t := Next(s, Take(c, Buy(Bought)));
      t.Some? && Sold(s, t.value, c, s.local.calls[c].id, s.local.calls[c].price)
  {
  }

  lemma {:induction false} ReleaseSettles(s: State, c: nat)
    requires c in s.local.calls && s.local.calls[c].Releasing? && s.local.calls[c].id < |s.entries|
    ensures var t := Next(s, Take(c, Release));
      t.Some? && t.value.entries == Settled(s.entries, s.local.calls[c].id, false)
        && t.value.local.purchases == s.local.purchases
  {
  }

  lemma {:induction false} ShopperHasEntry(s: State, c: nat)
    requires Base(s) && c in s.local.calls && Shops(s.local.calls[c])
    ensures s.local.calls[c].id < |s.entries|
  {
    assert CallTyped(s, s.local.calls[c]);
  }

  /** Up to the point where the call knows what to buy. */
  lemma {:induction false} BuyerChooses(acts: seq<Action>, s: State, c: nat) returns (more: seq<Action>, t: State)
    requires Run(acts) == Some(s) && c in s.local.calls && Finds(s, s.local.calls[c]) && !s.local.calls[c].Buying?
    ensures Run(more) == Some(t) && acts <= more && |more| <= |acts| + 1 && OnlyMoved(s, t, c)
    ensures t.entries == s.entries && t.local.purchases == s.local.purchases
    ensures t.local.calls[c].Choosing? && t.local.calls[c].id == s.local.calls[c].id
      && t.local.calls[c].price == s.local.calls[c].price
  {
    hide Runs.Exec, Next, HasEndpoint;
    more, t := acts, s;
    if s.local.calls[c].Checking? {
      LookLeads(s, c);
      more, t := Runs.Then(Next, World([], Empty()), acts, Take(c, SeeEndpoint), s);
    }
  }

  /** A call that goes on to buy buys, whoever else does. */
  lemma {:induction false} BuyerBuys(acts: seq<Action>, s: State, c: nat, number: string)
    returns (more: seq<Action>, t: State)
    requires Run(acts) == Some(s) && Base(s) && c in s.local.calls && Finds(s, s.local.calls[c])
    ensures Run(more) == Some(t) && acts <= more && |more| <= |acts| + 3
      && Sold(s, t, c, s.local.calls[c].id, s.local.calls[c].price)
  {
    hide Runs.Exec, Next, Base, HasEndpoint;
    ShopperHasEntry(s, c);
    more, t := acts, s;
    if !s.local.calls[c].Buying? {
      more, t := BuyerChooses(acts, s, c);
      ChooseLeads(t, c, number);
      more, t := Runs.Then(Next, World([], Empty()), more, Take(c, Choose(number)), t);
    }
    BuyingSells(t, c);
    more, t := Runs.Then(Next, World([], Empty()), more, Take(c, Buy(Bought)), t);
  }

  /** A call that shops can give the money back, whoever else buys. */
  lemma {:induction false} ShopperReleases(acts: seq<Action>, s: State, c: nat) returns (more: seq<Action>, t: State)
    requires Run(acts) == Some(s) && Base(s) && c in s.local.calls
      && (Finds(s, s.local.calls[c]) || s.local.calls[c].Releasing?)
    ensures Run(more) == Some(t) && acts <= more && |more| <= |acts| + 3 && t.local.purchases == s.local.purchases
    ensures s.local.calls[c].id < |s.entries| && t.entries == Settled(s.entries, s.local.calls[c].id, false)
  {
    hide Runs.Exec, Next, Base, HasEndpoint, Settled;
    ShopperHasEntry(s, c);
    more, t := acts, s;
    if s.local.calls[c].Checking? { more, t := BuyerChooses(acts, s, c); }
    if t.local.calls[c].Choosing? {
      ChooseLeads(t, c, "");
      more, t := Runs.Then(Next, World([], Empty()), more, Take(c, NoneAvailable), t);
    } else if t.local.calls[c].Buying? {
      RefusalLeads(t, c);
      more, t := Runs.Then(Next, World([], Empty()), more, Take(c, Buy(Refusal)), t);
    }
    ReleaseSettles(t, c);
    more, t := Runs.Then(Next, World([], Empty()), more, Take(c, Release), t);
  }

  /** In any run, two calls that go on to buy on one entry can buy two numbers on it in the next six steps. */
  lemma {:induction false} OverlappingCallsBuyTwice(actions: seq<Action>, b: nat, c: nat, one: string, other: string)
    returns (more: seq<Action>, t: State)
    requires Run(actions).Some? && b != c
    requires var s := Run(actions).value;
      && b in s.local.calls && c in s.local.calls && Finds(s, s.local.calls[b]) && Finds(s, s.local.calls[c])
      && s.local.calls[b].id == s.local.calls[c].id
    ensures var s := Run(actions).value;
      && actions <= more && |more| <= |actions| + 6 && Run(more) == Some(t)
      && |t.local.purchases| == |s.local.purchases| + 2
      && var n := |s.local.purchases|;
         t.local.purchases[n].entry == t.local.purchases[n + 1].entry == s.local.calls[b].id
  {
    hide Runs.Exec, Base;
    BaseRun(actions);
    var s := Run(actions).value;
    var mid: State;
    more, mid := BuyerBuys(actions, s, b, one);
    BaseRun(more);
    more, t := BuyerBuys(more, mid, c, other);
    assert t.local.purchases[|s.local.purchases|] == mid.local.purchases[|s.local.purchases|];
  }

  lemma {:induction false} BuyersFind(s: State, c: nat)
    requires Base(s) && Once(s) && c in s.local.calls && Buys(s.local.calls[c])
    ensures Finds(s, s.local.calls[c])
  {
    assert !BoughtFor(s.local, s.local.calls[c].id);
    hide BoughtFor;
  }

  /** So the condition of `BoughtAtMostOnce` is needed: once it fails, a second number can be bought on one entry. */
  lemma {:induction false} OneBuyerIsNeeded(actions: seq<Action>) returns (more: seq<Action>, t: State, n: nat)
    requires Run(actions).Some? && OneBuyerThroughout(actions) && !OneBuyer(Run(actions).value)
    ensures actions <= more && |more| <= |actions| + 6 && Run(more) == Some(t)
    ensures n + 1 < |t.local.purchases| && t.local.purchases[n].entry == t.local.purchases[n + 1].entry
  {
    hide Run, Base, Once, Finds, OneBuyerThroughout;
    var s := Run(actions).value;
    var b, c :| b in s.local.calls && c in s.local.calls && b != c && Buys(s.local.calls[b]) && Buys(s.local.calls[c])
      && s.local.calls[b].id == s.local.calls[c].id;
    BaseRun(actions);
    RunIsOnce(actions);
    BuyersFind(s, b);
    BuyersFind(s, c);
    n := |s.local.purchases|;
    more, t := OverlappingCallsBuyTwice(actions, b, c, "", "");
  }

  /** And if one of them is refused, or finds none available, it gives back the entry that the other has bought on. */
  lemma {:induction false} OverlapLeavesUncovered(actions: seq<Action>, b: nat, c: nat, number: string)
    returns (more: seq<Action>, t: State)
    requires Run(actions).Some? && b != c
    requires var s := Run(actions).value;
      && b in s.local.calls && c in s.local.calls
      && Finds(s, s.local.calls[b]) && (Finds(s, s.local.calls[c]) || s.local.calls[c].Releasing?)
      && s.local.calls[b].id == s.local.calls[c].id < |s.entries| && s.entries[s.local.calls[b].id].state == Reserved
    ensures var s := Run(actions).value;
      && actions <= more && |more| <= |actions| + 6 && Run(more) == Some(t)
      && |t.local.purchases| == |s.local.purchases| + 1
      && var sale := t.local.purchases[|s.local.purchases|];
         sale.entry == s.local.calls[b].id && sale.stateAtBuy == Reserved && sale.entry < |t.entries|
           && t.entries[sale.entry].state == Released
  {
    hide Runs.Exec, Base;
    BaseRun(actions);
    var s := Run(actions).value;
    var mid: State;
    more, mid := BuyerBuys(actions, s, b, number);
    BaseRun(more);
    more, t := ShopperReleases(more, mid, c);
  }

  /** A retry that found nothing bought pays the price of the day, and charges its entry as it was first reserved. */
  lemma {:induction false} RetryMayCostMore(actions: seq<Action>, c: nat, number: string)
    returns (more: seq<Action>, t: State)
    requires Run(actions).Some? && c in Run(actions).value.local.calls
    requires var pc := Run(actions).value.local.calls[c]; pc.Choosing? && !pc.own
    ensures var s := Run(actions).value; var n, pc := |s.local.purchases|, s.local.calls[c];
      && Run(more) == Some(t) && actions <= more && |t.local.purchases| == n + 1
      && t.local.purchases[n].price == pc.price
      && t.local.purchases[n].entry == pc.id < |s.entries| && t.entries == Settled(s.entries, pc.id, true)
  {
    hide Runs.Exec, Next, Base, Settled;
    BaseRun(actions);
    more, t := BuyerBuys(actions, Run(actions).value, c, number);
    ChargeSettles(t, c);
    more, t := Runs.Then(Next, World([], Empty()), more, Take(c, Charge), t);
  }

  lemma {:induction false} ChargeSettles(s: State, c: nat)
    requires c in s.local.calls && s.local.calls[c].Charging? && s.local.calls[c].id < |s.entries|
    ensures var t := Next(s, Take(c, Charge));
      t.Some? && t.value.entries == Settled(s.entries, s.local.calls[c].id, true)
        && t.value.local.purchases == s.local.purchases
  {
  }

  lemma {:induction false} CrashBeforeBuying(at: Moment, first: nat) returns (acts: seq<Action>, s: State)
    ensures Run(acts) == Some(s) && s.entries == [Entry("a", SmsNumber, first, NumberKey("k"), Reserved, at)]
    ensures s.local == Desk(map[0 := Done(Stopped)], map[], [])
  {
    s, acts := World([], Empty()), [];
    assert Run(acts) == Some(s);
    hide Runs.Exec;
    acts, s := Runs.Then(Next, World([], Empty()), acts, Begin(0, "a", "k"), s);
    acts, s := Runs.Then(Next, World([], Empty()), acts, Take(0, Reserve(first, at)), s);
    acts, s := Runs.Then(Next, World([], Empty()), acts, Take(0, Stop), s);
    assert s.local.calls == map[0 := Done(Stopped)];
  }

  /** A retry comes to that point with any price of the day on an entry of any other. */
  lemma {:induction false} RetryIsQuotedAnew(at: Moment, first: nat, later: nat) returns (acts: seq<Action>, s: State)
    ensures Run(acts) == Some(s) && s.entries == [Entry("a", SmsNumber, first, NumberKey("k"), Reserved, at)]
      && s.local.purchases == []
    ensures 1 in s.local.calls && s.local.calls[1] == Choosing("a", "k", 0, later, false)
  {
    hide Runs.Exec;
    acts, s := CrashBeforeBuying(at, first);
    acts, s := Runs.Then(Next, World([], Empty()), acts, Begin(1, "a", "k"), s);
    acts, s := Runs.Then(Next, World([], Empty()), acts, Take(1, Reserve(later, at)), s);
    acts, s := Runs.Then(Next, World([], Empty()), acts, Take(1, SeeEndpoint), s);
    acts, s := Runs.Then(Next, World([], Empty()), acts, Take(1, Find(None)), s);
  }

  lemma {:induction false} FirstCallReserved(at: Moment, price: nat) returns (acts: seq<Action>, s: State)
    ensures Run(acts) == Some(s) && s.entries == [Entry("a", SmsNumber, price, NumberKey("k"), Reserved, at)]
    ensures s.local == Desk(map[0 := Choosing("a", "k", 0, price, true)], map[], [])
  {
    s, acts := World([], Empty()), [];
    assert Run(acts) == Some(s);
    hide Runs.Exec;
    acts, s := Runs.Then(Next, World([], Empty()), acts, Begin(0, "a", "k"), s);
    acts, s := Runs.Then(Next, World([], Empty()), acts, Take(0, Reserve(price, at)), s);
    acts, s := Runs.Then(Next, World([], Empty()), acts, Take(0, SeeEndpoint), s);
    assert s.local.calls == map[0 := Choosing("a", "k", 0, price, true)];
  }

  /** Two overlapping calls with one key come to the point where both go on to buy, on a reserved entry. */
  lemma {:induction false} TwoCallsChoose(at: Moment, price: nat) returns (acts: seq<Action>, s: State)
    ensures Run(acts) == Some(s) && 0 in s.local.calls && Finds(s, s.local.calls[0]) && 1 in s.local.calls
      && Finds(s, s.local.calls[1])
    ensures s.entries == [Entry("a", SmsNumber, price, NumberKey("k"), Reserved, at)]
      && s.local.calls[0].id == s.local.calls[1].id == 0
  {
    hide Runs.Exec;
    acts, s := FirstCallReserved(at, price);
    acts, s := Runs.Then(Next, World([], Empty()), acts, Begin(1, "a", "k"), s);
    acts, s := Runs.Then(Next, World([], Empty()), acts, Take(1, Reserve(price, at)), s);
    acts, s := Runs.Then(Next, World([], Empty()), acts, Take(1, SeeEndpoint), s);
    acts, s := Runs.Then(Next, World([], Empty()), acts, Take(1, Find(None)), s);
  }

  // ------------------------------------------------------------------ sharing the ledger

  lemma {:induction false} StepTouchesOwnKind(s: State, a: Action)
    requires Base(s) && Enabled(s, a)
    ensures OnlyKind(s.entries, Apply(s, a).entries, SmsNumber)
  {
    if a.Take? { assert CallTyped(s, s.local.calls[a.call]); }
    hide Base, BoughtFor, HasEndpoint, FindsTruly;
  }

  /** Other protocols use other kinds of entry, so nothing they do disturbs this one. */
  lemma {:induction false} OtherKindsKeepBase(s: State, after: Entries, kind: Kind)
    requires Base(s) && OnlyKind(s.entries, after, kind) && kind != SmsNumber
    ensures Base(World(after, s.local))
  {
    var t := World(after, s.local);
    forall b | b in t.local.calls ensures CallTyped(t, t.local.calls[b]) { assert CallTyped(s, s.local.calls[b]); }
    forall p | 0 <= p < |t.local.purchases|
      ensures SaleTyped(after, t.local.purchases[p])
    {
      assert SaleTyped(s.entries, s.local.purchases[p]);
    }
    forall n | n in t.local.endpoints
      ensures BoughtFor(t.local, t.local.endpoints[n])
    {
      assert BoughtFor(s.local, s.local.endpoints[n]);
    }
    forall i | 0 <= i < |after| ensures Typed(after[i]) { assert i < |s.entries| ==> Typed(s.entries[i]); }
  }

  lemma {:induction false} OtherKindsKeepInv(s: State, after: Entries, kind: Kind)
    requires Inv(s) && OnlyKind(s.entries, after, kind) && kind != SmsNumber
    ensures Inv(World(after, s.local))
  {
    var t := World(after, s.local);
    forall b | b in t.local.calls ensures CallOk(t, t.local.calls[b]) { assert CallOk(s, s.local.calls[b]); }
    forall p | 0 <= p < |t.local.purchases|
      ensures PurchaseOk(after, t.local.purchases[p])
    {
      assert PurchaseOk(s.entries, s.local.purchases[p]);
    }
    forall i | 0 <= i < |after| ensures Typed(after[i]) { assert i < |s.entries| ==> Typed(s.entries[i]); }
  }
}
