/**
The domain purchase protocol (domains.py) as a state machine: any number of
`buy_domain`, `advance_domain`, `add_existing_domain` and webhook calls, each cut
into its database and provider steps, interleaved in any order. A call may stop
(an exception or a crash) before any step, and a registrar reply may be lost.
The code of one call is in `DomainCode`.
*/
module Domains {
  import opened Wrappers
  import Runs
  import opened Ledger

  datatype Status = Registering | Dns | Verifying | Ready | Failed | ActionRequired

  datatype Row = Row(owner: string, purchased: bool, status: Status, price: nat, spend: Option<nat>, emailId: string)

  /** What the registrar says about a registration; "blocked" reads as NeedsAction, anything unknown as InProgress. */
  datatype Answer = InProgress | Succeeded | Rejected | NeedsAction

  /** How a `register` call ends: surely without effect, with an unknown outcome, or with an answer. */
  datatype Reply = Refusal | NoReply(placed: bool) | Replied(answer: Answer)

  datatype Ending = Lost(id: nat) | Returned | Conflicted | Stopped

  /** The next step of a call, with its local variables; `row` is its in-memory copy of the domain row. */
  datatype Pc =
    | Looking(agent: string, name: string, key: string)
    | Quoting(agent: string, name: string, key: string)
    | Reserving(agent: string, name: string, key: string, price: nat)
    | Replaying(id: nat)
    | Inserting(agent: string, name: string, price: nat, id: nat)
    | Losing(id: nat)
    | Calling(name: string, row: Row, id: nat)
    | Releasing(name: string, row: Row, id: nat)
    | Failing(name: string, row: Row)
    | Advancing(name: string, row: Row)
    | Applying(name: string, row: Row, answer: Answer, bought: bool)
    | Saving(name: string, row: Row, bought: bool)
    | SettingUp(name: string, row: Row)
    | Checking(name: string, row: Row)
    | Finishing(name: string, row: Row)
    | Done(result: Ending)

  /** `orders` is what really happened at the registrar, `registers` how often `register` was called per name. */
  datatype Desk = Desk(rows: map<string, Row>, calls: map<nat, Pc>, orders: map<string, Answer>,
    registers: map<string, nat>)

  type State = World<Desk>

  /** How a call starts: `buy_domain`, `advance_domain`, `add_existing_domain`, or the verified-domain webhook. */
  datatype Start =
    | Buy(agent: string, name: string, key: string)
    | Advance(name: string)
    | Connect(owner: string, name: string)
    | Notify(name: string)

  datatype Step =
    | Look | Quote(price: nat) | Reserve(at: Moment) | Recall(found: Option<string>) | Insert | GiveBack
    | Register(reply: Reply) | Release | MarkFailed | Poll(answer: Answer) | SkipPoll | SettleAnswer | Save
    | Configure(emailId: string) | AlreadyConfigured | SeeVerified | Finish | Return | Stop

  datatype Action = Begin(call: nat, start: Start) | Take(call: nat, step: Step) | OrderMoves(name: string, to: Answer)

  function Registers(d: Desk, name: string): nat {
    if name in d.registers then d.registers[name] else 0
  }

  /** The registrar's contract: it reports success or failure only when that is final. */
  predicate Truthful(d: Desk, name: string, answer: Answer) {
    answer.Succeeded? || answer.Rejected? ==> name in d.orders && d.orders[name] == answer
  }

  predicate CanBegin(d: Desk, start: Start) {
    match start
    case Advance(name) => name in d.rows
    case Notify(name) => name in d.rows && d.rows[name].emailId != ""
    case _ => true
  }

  predicate CanTake(s: State, pc: Pc, step: Step) {
    var d := s.local;
    match step
    case Look => pc.Looking?
    case Quote(_) => pc.Quoting?
    case Reserve(_) => pc.Reserving?
    case Recall(found) =>
      && pc.Replaying?
      && if found.Some? then found.value in d.rows && d.rows[found.value].spend == Some(pc.id)
         else forall name :: name in d.rows ==> d.rows[name].spend != Some(pc.id)
    case Insert => pc.Inserting?
    case GiveBack => pc.Losing? && pc.id < |s.entries|
    case Register(_) => pc.Calling?
    case Release => pc.Releasing? && pc.id < |s.entries|
    case MarkFailed => pc.Failing? && pc.name in d.rows
    case Poll(answer) => pc.Advancing? && pc.row.status.Registering? && Truthful(d, pc.name, answer)
    case SkipPoll => pc.Advancing? && !pc.row.status.Registering?
    case SettleAnswer => pc.Applying? && pc.row.spend.Some? && pc.row.spend.value < |s.entries|
    case Save => pc.Saving? && pc.name in d.rows
    case Configure(_) => pc.SettingUp? && pc.row.status.Dns? && pc.name in d.rows
    case AlreadyConfigured => pc.SettingUp? && pc.row.status.Verifying?
    case SeeVerified => pc.Checking?
    case Finish => pc.Finishing? && pc.name in d.rows
    case Return => pc.Checking? || (pc.SettingUp? && !pc.row.status.Dns? && !pc.row.status.Verifying?)
    case Stop => !pc.Done?
  }

  predicate Enabled(s: State, a: Action) {
    var d := s.local;
    match a
    case Begin(c, start) => c !in d.calls && CanBegin(d, start)
    case Take(c, step) => c in d.calls && CanTake(s, d.calls[c], step)
    case OrderMoves(name, _) => name in d.orders && (d.orders[name].InProgress? || d.orders[name].NeedsAction?)
  }

  /** The one write, or registrar call, of a step. */
  datatype Effect =
    | Nothing
    | AddEntry(entry: Entry)
    | SettleEntry(id: nat, charged: bool)
    | NewRow(name: string, row: Row)
    | SaveRow(name: string, row: Row)
    | Ring(name: string, order: Option<Answer>)

  function Perform(s: State, effect: Effect): State {
    var es, d := s.entries, s.local;
    match effect
    case Nothing => s
    case AddEntry(entry) => World(es + [entry], d)
    case SettleEntry(id, charged) => if id < |es| then World(Settled(es, id, charged), d) else s
    case NewRow(name, row) => World(es, d.(rows := d.rows[name := row]))
    case SaveRow(name, row) => World(es, d.(rows := d.rows[name := row]))
    case Ring(name, order) =>
      World(es, d.(registers := d.registers[name := Registers(d, name) + 1],
                   orders := if order.Some? then d.orders[name := order.value] else d.orders))
  }

  /** _apply_registration, the in-memory part: what the answer makes of the row. */
  function Answered(row: Row, answer: Answer): Row {
    match answer
    case InProgress => row
    case Succeeded => row.(status := Dns)
    case Rejected => row.(status := Failed)
    case NeedsAction => row.(status := ActionRequired)
  }

  function Bought(pc: Pc): Row
    requires pc.Inserting?
  {
    Row(pc.agent, true, Registering, pc.price, Some(pc.id), "")
  }

  function EffectOf(s: State, pc: Pc, step: Step): Effect
    requires CanTake(s, pc, step)
  {
    var es, d := s.entries, s.local;
    match step
    case Reserve(at) =>
      if Find(es, pc.agent, DomainKey(pc.key)).Some? then Nothing
      else AddEntry(Entry(pc.agent, DomainRegister, pc.price, DomainKey(pc.key), Reserved, at))
    case Insert => if pc.name in d.rows then Nothing else NewRow(pc.name, Bought(pc))
    case GiveBack => SettleEntry(pc.id, false)
    case Register(reply) =>
      Ring(pc.name, if reply.Replied? then Some(reply.answer)
        else if reply.NoReply? && reply.placed then Some(InProgress) else None)
    case Release => SettleEntry(pc.id, false)
    case MarkFailed => SaveRow(pc.name, d.rows[pc.name].(status := Failed))
    case SettleAnswer =>
      if pc.answer.Succeeded? || pc.answer.Rejected? then SettleEntry(pc.row.spend.value, pc.answer.Succeeded?)
        else Nothing
    case Save => SaveRow(pc.name, d.rows[pc.name].(status := pc.row.status))
    case Configure(emailId) => SaveRow(pc.name, d.rows[pc.name].(status := Verifying, emailId := emailId))
    case Finish => if pc.row.status.Ready? then Nothing else SaveRow(pc.name, d.rows[pc.name].(status := Ready))
    case _ => Nothing
  }

  /** Where the step leaves the call. */
  function After(s: State, pc: Pc, step: Step): Pc
    requires CanTake(s, pc, step)
  {
    var es, d := s.entries, s.local;
    match step
    case Look =>
      if pc.name !in d.rows then Quoting(pc.agent, pc.name, pc.key)
      else if d.rows[pc.name].owner != pc.agent then Done(Conflicted)
      else Advancing(pc.name, d.rows[pc.name])
    case Quote(price) => Reserving(pc.agent, pc.name, pc.key, price)
    case Reserve(_) =>
      var found := Find(es, pc.agent, DomainKey(pc.key));
      if found.None? then Inserting(pc.agent, pc.name, pc.price, |es|)
      else if es[found.value].kind == DomainRegister then Replaying(found.value)
      else Done(Stopped)
    case Recall(found) => if found.None? then Done(Conflicted) else Advancing(found.value, d.rows[found.value])
    case Insert => if pc.name in d.rows then Losing(pc.id) else Calling(pc.name, Bought(pc), pc.id)
    case GiveBack => Done(Lost(pc.id))
    case Register(reply) =>
      if reply.Refusal? then Releasing(pc.name, pc.row, pc.id)
      else if reply.NoReply? then Done(Returned)
      else Applying(pc.name, pc.row, reply.answer, true)
    case Release => Failing(pc.name, pc.row)
    case MarkFailed => Done(Stopped)
    case Poll(answer) => Applying(pc.name, pc.row, answer, false)
    case SkipPoll => SettingUp(pc.name, pc.row)
    case SettleAnswer => Saving(pc.name, Answered(pc.row, pc.answer), pc.bought)
    case Save => if pc.bought then Advancing(pc.name, pc.row) else SettingUp(pc.name, pc.row)
    case Configure(emailId) => Checking(pc.name, pc.row.(status := Verifying, emailId := emailId))
    case AlreadyConfigured => Checking(pc.name, pc.row)
    case SeeVerified => Finishing(pc.name, pc.row)
    case Finish => Done(Returned)
    case Return => Done(Returned)
    case Stop => Done(Stopped)
  }

  function Goto(s: State, call: nat, pc: Pc): State {
    s.(local := s.local.(calls := s.local.calls[call := pc]))
  }

  function Begun(s: State, call: nat, start: Start): State
    requires CanBegin(s.local, start)
  {
    var rows := s.local.rows;
    match start
    case Buy(agent, name, key) => Goto(s, call, Looking(agent, name, key))
    case Advance(name) => Goto(s, call, Advancing(name, rows[name]))
    case Connect(owner, name) =>
      var row := if name in rows then rows[name] else Row(owner, false, Dns, 0, None, "");
      Goto(if name in rows then s else Perform(s, NewRow(name, row)), call, Advancing(name, row))
    case Notify(name) => Goto(s, call, Finishing(name, rows[name]))
  }

  function Apply(s: State, a: Action): State
    requires Enabled(s, a)
  {
    match a
    case Begin(c, start) => Begun(s, c, start)
    case Take(c, step) =>
      var pc := s.local.calls[c];
      Goto(Perform(s, EffectOf(s, pc, step)), c, After(s, pc, step))
    case OrderMoves(name, to) => s.(local := s.local.(orders := s.local.orders[name := to]))
  }

  function Next(s: State, a: Action): Option<State> {
    if Enabled(s, a) then Some(Apply(s, a)) else None
  }

  function Exec(s: State, actions: seq<Action>): Option<State> {
    Runs.Exec(Next, s, actions)
  }

  function Empty(): Desk {
    Desk(map[], map[], map[], map[])
  }

  // ------------------------------------------------------------------ the invariant

  ghost predicate HoldsRow(pc: Pc) {
    || pc.Calling? || pc.Releasing? || pc.Failing? || pc.Advancing? || pc.Applying? || pc.Saving?
    || pc.SettingUp? || pc.Checking? || pc.Finishing?
  }

  ghost predicate OwnsEntry(pc: Pc) {
    pc.Inserting? || pc.Losing? || pc.Calling? || pc.Releasing?
  }

  /** A row and the ledger agree; true of stored rows and of every call's copy, however stale. */
  ghost predicate Coupled(es: Entries, row: Row) {
    && (row.purchased <==> row.spend.Some?)
    && (row.status.Registering? ==> row.purchased)
    && (row.purchased ==>
      var id := row.spend.value;
      && id < |es| && es[id].kind == DomainRegister && es[id].amount == row.price && es[id].agent == row.owner
      && (row.status.Dns? || row.status.Verifying? || row.status.Ready? || row.emailId != "" ==>
        es[id].state == Charged)
      && (row.status.Failed? ==> es[id].state == Released))
  }

  ghost predicate SamePurchase(a: Row, b: Row) {
    a.owner == b.owner && a.purchased == b.purchased && a.price == b.price && a.spend == b.spend
  }

  /** The ledger and the registrar agree about one name. */
  ghost predicate NameOk(s: State, name: string) {
    var d := s.local;
    && Registers(d, name) <= 1
    && (name in d.orders ==> Registers(d, name) == 1)
    && (Registers(d, name) == 1 ==> name in d.rows && d.rows[name].purchased)
    && (name in d.rows ==> Coupled(s.entries, d.rows[name]))
    && (name in d.rows && d.rows[name].purchased ==>
      var state := s.entries[d.rows[name].spend.value].state;
      && (state == Released ==> Registers(d, name) == 1 && (name in d.orders ==> d.orders[name] == Rejected))
      && (state == Charged ==> name in d.orders && d.orders[name] == Succeeded))
  }

  ghost predicate CallOk(s: State, pc: Pc) {
    var es, d := s.entries, s.local;
    && (HoldsRow(pc) ==> pc.name in d.rows && SamePurchase(pc.row, d.rows[pc.name]) && Coupled(es, pc.row))
    && (OwnsEntry(pc) ==> pc.id < |es| && es[pc.id].kind == DomainRegister && es[pc.id].state == Reserved)
    && match pc
       case Inserting(agent, _, price, id) =>
         es[id].amount == price && es[id].agent == agent && forall n :: n in d.rows ==> d.rows[n].spend != Some(id)
       case Losing(id) => forall n :: n in d.rows ==> d.rows[n].spend != Some(id)
       case Calling(name, row, id) =>
         row.status.Registering? && row.spend == Some(id) && name !in d.orders && Registers(d, name) == 0
       case Releasing(name, row, id) => row.spend == Some(id) && name !in d.orders && Registers(d, name) == 1
       case Failing(_, row) => row.purchased && es[row.spend.value].state == Released
       case Applying(name, row, answer, _) => row.status.Registering? && Truthful(d, name, answer)
       case Saving(_, row, _) => !row.status.Verifying? && !row.status.Ready?
       case Checking(_, row) => row.status.Verifying?
       case Finishing(_, row) => row.purchased ==> es[row.spend.value].state == Charged
       case Done(Lost(id)) =>
         id < |es| && es[id].state == Released && forall n :: n in d.rows ==> d.rows[n].spend != Some(id)
       case _ => true
  }

  ghost predicate Inv(s: State) {
    var d := s.local;
    && (forall name :: NameOk(s, name))
    && (forall c :: c in d.calls ==> CallOk(s, d.calls[c]))
    && (forall a, b :: a in d.calls && b in d.calls && a != b && OwnsEntry(d.calls[a]) && OwnsEntry(d.calls[b]) ==>
      d.calls[a].id != d.calls[b].id)
    && (forall m, n :: m in d.rows && n in d.rows && m != n && d.rows[m].spend.Some? ==>
      d.rows[m].spend != d.rows[n].spend)
  }

  /** What an effect needs so that it keeps the invariant while its own call is idle. */
  ghost predicate Fits(s: State, effect: Effect) {
    var es, d := s.entries, s.local;
    match effect
    case Nothing => true
    case AddEntry(entry) => true
    case SettleEntry(id, charged) =>
      && id < |es|
      && (forall b :: b in d.calls && OwnsEntry(d.calls[b]) ==> d.calls[b].id != id)
      && (forall n :: n in d.rows && d.rows[n].spend == Some(id) ==>
        if charged then n in d.orders && d.orders[n] == Succeeded
        else Registers(d, n) == 1 && (n in d.orders ==> d.orders[n] == Rejected))
    case NewRow(name, row) =>
      && name !in d.rows && Coupled(es, row)
      && (row.spend.Some? ==>
        && es[row.spend.value].state == Reserved
        && (forall n :: n in d.rows ==> d.rows[n].spend != row.spend)
        && (forall b :: b in d.calls && OwnsEntry(d.calls[b]) ==> d.calls[b].id != row.spend.value))
    case SaveRow(name, row) => name in d.rows && SamePurchase(row, d.rows[name]) && Coupled(es, row)
    case Ring(name, order) =>
      && name in d.rows && Coupled(es, d.rows[name]) && d.rows[name].purchased
      && es[d.rows[name].spend.value].state == Reserved
      && name !in d.orders && Registers(d, name) == 0
      && (forall b :: b in d.calls && d.calls[b].Calling? ==> d.calls[b].name != name)
  }

  lemma {:induction false} PerformKeepsNames(s: State, effect: Effect)
    requires Inv(s) && Fits(s, effect)
    ensures forall n :: NameOk(Perform(s, effect), n)
  {
    forall n ensures NameOk(Perform(s, effect), n) {
      assert NameOk(s, n);
      if effect.NewRow? { assert NameOk(s, effect.name); }
    }
  }

  lemma {:induction false} PerformKeepsCalls(s: State, effect: Effect)
    requires Inv(s) && Fits(s, effect)
    ensures forall b :: b in s.local.calls ==> CallOk(Perform(s, effect), s.local.calls[b])
  {
    forall b | b in s.local.calls ensures CallOk(Perform(s, effect), s.local.calls[b]) {
      assert CallOk(s, s.local.calls[b]);
    }
  }

  lemma {:induction false} PerformKeepsInv(s: State, effect: Effect)
    requires Inv(s) && Fits(s, effect)
    ensures Inv(Perform(s, effect))
  {
    PerformKeepsNames(s, effect);
    PerformKeepsCalls(s, effect);
  }

  lemma {:induction false} GotoKeepsInv(s: State, c: nat, pc: Pc)
    requires Inv(s) && CallOk(s, pc)
    requires OwnsEntry(pc) ==>
      forall b :: b in s.local.calls && b != c && OwnsEntry(s.local.calls[b]) ==> s.local.calls[b].id != pc.id
    ensures Inv(Goto(s, c, pc))
  {
    var t := Goto(s, c, pc);
    forall name ensures NameOk(t, name) { assert NameOk(s, name); }
    forall b | b in t.local.calls ensures CallOk(t, t.local.calls[b]) {
      if b != c { assert CallOk(s, s.local.calls[b]); }
    }
  }

  lemma {:induction false} GotoTwice(s: State, c: nat, effect: Effect, pc: Pc)
    ensures Goto(Perform(Goto(s, c, Done(Stopped)), effect), c, pc) == Goto(Perform(s, effect), c, pc)
  {
    assert s.local.calls[c := Done(Stopped)][c := pc] == s.local.calls[c := pc];
  }

  lemma {:induction false} SettlementFits(s: State, c: nat, step: Step)
    requires Inv(s) && Enabled(s, Take(c, step)) && (step.GiveBack? || step.Release? || step.SettleAnswer?)
    ensures Fits(Goto(s, c, Done(Stopped)), EffectOf(s, s.local.calls[c], step))
  {
    var pc := s.local.calls[c];
    assert CallOk(s, pc);
    if HoldsRow(pc) { assert NameOk(s, pc.name); }
  }

  lemma {:induction false} SaveFits(s: State, c: nat, step: Step)
    requires Inv(s) && Enabled(s, Take(c, step)) && (step.MarkFailed? || step.Save? || step.Configure? || step.Finish?)
    ensures Fits(Goto(s, c, Done(Stopped)), EffectOf(s, s.local.calls[c], step))
  {
    var pc := s.local.calls[c];
    assert CallOk(s, pc) && NameOk(s, pc.name);
  }

  lemma {:induction false} RowFits(s: State, c: nat, step: Step)
    requires Inv(s) && Enabled(s, Take(c, step)) && (step.Insert? || step.Register?)
    ensures Fits(Goto(s, c, Done(Stopped)), EffectOf(s, s.local.calls[c], step))
  {
    var pc := s.local.calls[c];
    assert CallOk(s, pc) && NameOk(s, pc.name);
    forall b | b in s.local.calls && b != c && step.Register? && s.local.calls[b].Calling?
      ensures s.local.calls[b].name != pc.name
    {
      assert CallOk(s, s.local.calls[b]);
    }
  }

  lemma {:induction false} EffectFits(s: State, c: nat, step: Step)
    requires Inv(s) && Enabled(s, Take(c, step))
    ensures Fits(Goto(s, c, Done(Stopped)), EffectOf(s, s.local.calls[c], step))
  {
    if step.GiveBack? || step.Release? || step.SettleAnswer? { SettlementFits(s, c, step); }
    else if step.MarkFailed? || step.Save? || step.Configure? || step.Finish? { SaveFits(s, c, step); }
    else if step.Insert? || step.Register? { RowFits(s, c, step); }
  }

  lemma {:induction false} BuyingArrives(s: State, c: nat, step: Step)
    requires Inv(s) && Enabled(s, Take(c, step))
    requires step.Look? || step.Quote? || step.Reserve? || step.Recall? || step.Insert? || step.GiveBack?
    ensures CallOk(Perform(s, EffectOf(s, s.local.calls[c], step)), After(s, s.local.calls[c], step))
  {
    var pc := s.local.calls[c];
    var next := After(s, pc, step);
    assert CallOk(s, pc);
    if HoldsRow(next) { assert NameOk(s, next.name); }
    if step.Look? || step.Quote? || step.Recall? { assert Perform(s, EffectOf(s, pc, step)) == s; }
    if step.Reserve? {
      forall n | n in s.local.rows ensures s.local.rows[n].spend != Some(|s.entries|) { assert NameOk(s, n); }
    }
    hide Inv;
  }

  lemma {:induction false} RegisterArrives(s: State, c: nat, step: Step)
    requires Inv(s) && Enabled(s, Take(c, step)) && (step.Register? || step.Release? || step.MarkFailed?)
    ensures CallOk(Perform(s, EffectOf(s, s.local.calls[c], step)), After(s, s.local.calls[c], step))
  {
    var pc := s.local.calls[c];
    assert CallOk(s, pc) && NameOk(s, pc.name);
    hide Inv, Find;
    if step.Register? { assert step.reply.NoReply? || After(s, pc, step).Releasing? || After(s, pc, step).Applying?; }
  }

  lemma {:induction false} AnswerArrives(s: State, c: nat, step: Step)
    requires Inv(s) && Enabled(s, Take(c, step)) && (step.Poll? || step.SettleAnswer?)
    ensures CallOk(Perform(s, EffectOf(s, s.local.calls[c], step)), After(s, s.local.calls[c], step))
  {
    var pc := s.local.calls[c];
    assert CallOk(s, pc) && NameOk(s, pc.name);
    hide Inv;
    if step.Poll? { assert Perform(s, EffectOf(s, pc, step)) == s; }
  }

  lemma {:induction false} SetupArrives(s: State, c: nat, step: Step)
    requires Inv(s) && Enabled(s, Take(c, step))
    requires !step.Look? && !step.Quote? && !step.Reserve? && !step.Recall? && !step.Insert? && !step.GiveBack?
    requires !step.Register? && !step.Release? && !step.MarkFailed? && !step.Poll? && !step.SettleAnswer?
    ensures CallOk(Perform(s, EffectOf(s, s.local.calls[c], step)), After(s, s.local.calls[c], step))
  {
    assert CallOk(s, s.local.calls[c]);
    hide Inv;
  }

  lemma {:induction false} Arrives(s: State, c: nat, step: Step)
    requires Inv(s) && Enabled(s, Take(c, step))
    ensures CallOk(Perform(s, EffectOf(s, s.local.calls[c], step)), After(s, s.local.calls[c], step))
  {
    if step.Look? || step.Quote? || step.Reserve? || step.Recall? || step.Insert? || step.GiveBack? {
      BuyingArrives(s, c, step);
    }
    else if step.Register? || step.Release? || step.MarkFailed? { RegisterArrives(s, c, step); }
    else if step.Poll? || step.SettleAnswer? { AnswerArrives(s, c, step); }
    else { SetupArrives(s, c, step); }
  }

  /** No two calls hold the same fresh reservation. */
  lemma {:induction false} OwnsAlone(s: State, c: nat, step: Step, b: nat)
    requires Inv(s) && Enabled(s, Take(c, step)) && b in s.local.calls && b != c && OwnsEntry(s.local.calls[b])
    requires OwnsEntry(After(s, s.local.calls[c], step))
    ensures s.local.calls[b].id != After(s, s.local.calls[c], step).id
  {
    assert CallOk(s, s.local.calls[b]);
    assert OwnsEntry(s.local.calls[c]) ==> s.local.calls[b].id != s.local.calls[c].id;
    hide Inv;
  }

  lemma {:induction false} TakeKeepsInv(s: State, c: nat, step: Step)
    requires Inv(s) && Enabled(s, Take(c, step))
    ensures Inv(Apply(s, Take(c, step)))
  {
    var pc := s.local.calls[c];
    var effect, next := EffectOf(s, pc, step), After(s, pc, step);
    var idle := Goto(s, c, Done(Stopped));
    assert Inv(Perform(idle, effect)) by {
      GotoKeepsInv(s, c, Done(Stopped));
      EffectFits(s, c, step);
      PerformKeepsInv(idle, effect);
    }
    Arrives(s, c, step);
    ArrivesIdle(s, c, effect, next);
    forall b | b in idle.local.calls && b != c && OwnsEntry(next) && OwnsEntry(idle.local.calls[b])
      ensures idle.local.calls[b].id != next.id
    {
      OwnsAlone(s, c, step, b);
    }
    GotoKeepsInv(Perform(idle, effect), c, next);
    GotoTwice(s, c, effect, next);
  }

  lemma {:induction false} ArrivesIdle(s: State, c: nat, effect: Effect, pc: Pc)
    requires CallOk(Perform(s, effect), pc)
    ensures CallOk(Perform(Goto(s, c, Done(Stopped)), effect), pc)
    ensures Perform(Goto(s, c, Done(Stopped)), effect).local.calls == Goto(s, c, Done(Stopped)).local.calls
  {
  }

  lemma {:induction false} BeginKeepsInv(s: State, c: nat, start: Start)
    requires Inv(s) && Enabled(s, Begin(c, start))
    ensures Inv(Apply(s, Begin(c, start)))
  {
    match start
    case Buy(agent, name, key) => GotoKeepsInv(s, c, Looking(agent, name, key));
    case Connect(owner, name) =>
      var row := if name in s.local.rows then s.local.rows[name] else Row(owner, false, Dns, 0, None, "");
      assert NameOk(s, name);
      if name !in s.local.rows { PerformKeepsInv(s, NewRow(name, row)); }
      GotoKeepsInv(if name in s.local.rows then s else Perform(s, NewRow(name, row)), c, Advancing(name, row));
    case Advance(name) =>
      assert NameOk(s, name);
      GotoKeepsInv(s, c, Advancing(name, s.local.rows[name]));
    case Notify(name) =>
      assert NameOk(s, name);
      GotoKeepsInv(s, c, Finishing(name, s.local.rows[name]));
  }

  lemma {:induction false} OrderKeepsInv(s: State, name: string, to: Answer)
    requires Inv(s) && Enabled(s, OrderMoves(name, to))
    ensures Inv(Apply(s, OrderMoves(name, to)))
  {
    var t := Apply(s, OrderMoves(name, to));
    forall n ensures NameOk(t, n) { assert NameOk(s, n); }
    forall b | b in t.local.calls ensures CallOk(t, t.local.calls[b]) { assert CallOk(s, s.local.calls[b]); }
  }

  lemma {:induction false} StepKeepsInv(s: State, a: Action)
    requires Inv(s) && Enabled(s, a)
    ensures Inv(Apply(s, a))
  {
    match a
    case Begin(c, start) => BeginKeepsInv(s, c, start);
    case Take(c, step) => TakeKeepsInv(s, c, step);
    case OrderMoves(name, to) => OrderKeepsInv(s, name, to);
  }

  lemma {:induction false} ExecKeepsInv(s: State, actions: seq<Action>)
    requires Inv(s) && Exec(s, actions).Some?
    ensures Inv(Exec(s, actions).value)
  {
    if actions != [] {
      var last := |actions| - 1;
      ExecKeepsInv(s, actions[..last]);
      StepKeepsInv(Exec(s, actions[..last]).value, actions[last]);
    }
  }

  // ------------------------------------------------------------------ every run

  /** The state after a run from the empty database, or None if the run is not possible. */
  function Run(actions: seq<Action>): Option<State> {
    Exec(World([], Empty()), actions)
  }

  lemma {:induction false} RunKeepsInv(actions: seq<Action>)
    requires Run(actions).Some?
    ensures Inv(Run(actions).value)
  {
    ExecKeepsInv(World([], Empty()), actions);
  }

  /** Whatever calls, retries, races and crashes there are, a name is registered at most once. */
  lemma {:induction false} RegisteredAtMostOnce(actions: seq<Action>, name: string)
    requires Run(actions).Some?
    ensures Registers(Run(actions).value.local, name) <= 1
  {
    RunKeepsInv(actions);
    assert NameOk(Run(actions).value, name);
  }

  /** A call that lost the race for a name, and did not crash, has released its own reservation. */
  lemma {:induction false} LoserGivesBack(actions: seq<Action>, c: nat)
    requires Run(actions).Some? && c in Run(actions).value.local.calls
    requires Run(actions).value.local.calls[c].Done? && Run(actions).value.local.calls[c].result.Lost?
    ensures var s := Run(actions).value;
      var id := s.local.calls[c].result.id;
      id < |s.entries| && s.entries[id].state == Released && forall n :: n in s.local.rows ==>
        s.local.rows[n].spend != Some(id)
  {
    RunKeepsInv(actions);
    var s := Run(actions).value;
    assert CallOk(s, s.local.calls[c]);
  }

  /** An order that has not finally failed has a ledger entry of its own, at the quoted price, not released. */
  lemma {:induction false} OrdersAreCovered(s: State, name: string)
    requires Inv(s) && name in s.local.orders && s.local.orders[name] != Rejected
    ensures name in s.local.rows && s.local.rows[name].spend.Some?
    ensures var row := s.local.rows[name];
      && row.spend.value < |s.entries| && s.entries[row.spend.value].state != Released
      && s.entries[row.spend.value].amount == row.price && s.entries[row.spend.value].agent == row.owner
    ensures forall other :: other in s.local.rows && other != name ==>
      s.local.rows[other].spend != s.local.rows[name].spend
  {
    assert NameOk(s, name);
  }

  /** Row status and ledger stay coupled in every interleaving, even when a call saves a stale row. */
  lemma {:induction false} StatusMatchesLedger(actions: seq<Action>, name: string)
    requires Run(actions).Some? && name in Run(actions).value.local.rows
    ensures var s := Run(actions).value; var row := s.local.rows[name];
      && (row.status == Registering ==> row.purchased)
      && (row.purchased ==> row.spend.Some? && row.spend.value < |s.entries|)
      && (row.purchased && (row.status == Dns || row.status == Verifying || row.status == Ready) ==>
        s.entries[row.spend.value].state == Charged && name in s.local.orders && s.local.orders[name] == Succeeded)
      && (row.purchased && row.status == Failed ==>
        s.entries[row.spend.value].state == Released && (name in s.local.orders ==> s.local.orders[name] == Rejected))
  {
    RunKeepsInv(actions);
    assert NameOk(Run(actions).value, name);
  }

  /**
  A crash between settling the money and saving the row leaves the row in
  Registering. The next poll that gets the registrar's final answer restores the
  pair: a charged purchase goes on to Dns, a released one becomes Failed.
  */
  lemma {:induction false} PollRestoresThePair(s: State, c: nat, name: string)
    requires Inv(s) && NameOk(s, name)
    requires c !in s.local.calls && name in s.local.rows && s.local.rows[name].status == Registering
    requires s.entries[s.local.rows[name].spend.value].state != Reserved && name in s.local.orders
    ensures Enabled(s, Begin(c, Advance(name)))
    ensures var begun := Apply(s, Begin(c, Advance(name)));
      && CanTake(begun, begun.local.calls[c], Poll(s.local.orders[name]))
      && var polled := Apply(begun, Take(c, Poll(s.local.orders[name])));
      && CanTake(polled, polled.local.calls[c], SettleAnswer)
      && var settled := Apply(polled, Take(c, SettleAnswer));
      && CanTake(settled, settled.local.calls[c], Save)
      && var saved := Apply(settled, Take(c, Save));
      && saved.entries == s.entries && name in saved.local.rows
      && saved.local.rows[name].status == if s.entries[s.local.rows[name].spend.value].state == Charged then Dns
        else Failed
  {
    var polled := PollAsks(s, c, name);
    AnswerIsSaved(polled, c, name, s.local.rows[name], s.local.orders[name]);
  }

  lemma {:induction false} PollAsks(s: State, c: nat, name: string) returns (polled: State)
    requires c !in s.local.calls && name in s.local.rows && s.local.rows[name].status == Registering
      && name in s.local.orders
    ensures Enabled(s, Begin(c, Advance(name)))
    ensures var begun := Apply(s, Begin(c, Advance(name)));
      && CanTake(begun, begun.local.calls[c], Poll(s.local.orders[name]))
      && polled == Apply(begun, Take(c, Poll(s.local.orders[name])))
    ensures polled.entries == s.entries && polled.local.rows == s.local.rows
    ensures c in polled.local.calls
      && polled.local.calls[c] == Applying(name, s.local.rows[name], s.local.orders[name], false)
  {
    var begun := Apply(s, Begin(c, Advance(name)));
    polled := Apply(begun, Take(c, Poll(s.local.orders[name])));
  }

  lemma {:induction false} AnswerIsSaved(s: State, c: nat, name: string, row: Row, answer: Answer)
    requires c in s.local.calls && s.local.calls[c] == Applying(name, row, answer, false) && name in s.local.rows
      && s.local.rows[name] == row
    requires row.spend.Some? && row.spend.value < |s.entries| && answer in {Succeeded, Rejected}
    requires s.entries[row.spend.value].state == if answer == Succeeded then Charged else Released
    ensures CanTake(s, s.local.calls[c], SettleAnswer)
    ensures var settled := Apply(s, Take(c, SettleAnswer));
      && CanTake(settled, settled.local.calls[c], Save)
      && var saved := Apply(settled, Take(c, Save));
      saved.entries == s.entries && name in saved.local.rows
        && saved.local.rows[name].status == if answer == Succeeded then Dns else Failed
  {
  }

  ghost predicate Refused(s: State, name: string) {
    Registers(s.local, name) == 1 && name !in s.local.orders
  }

  lemma {:induction false} RefusedStep(s: State, a: Action, name: string)
    requires Inv(s) && Enabled(s, a) && Refused(s, name)
    ensures Refused(Apply(s, a), name)
  {
    if a.Take? { assert CallOk(s, s.local.calls[a.call]); }
  }

  /**
  A refused name is never bought later: its one `register` call is spent. So if the
  refusing call crashed before marking the row Failed, the row never sets up.
  */
  lemma {:induction false} RefusedNameStaysRefused(s: State, actions: seq<Action>, name: string)
    requires Inv(s) && Refused(s, name) && Exec(s, actions).Some?
    ensures var t := Exec(s, actions).value;
      && Inv(t) && Refused(t, name) && name in t.local.rows
      && !t.local.rows[name].status.Dns? && !t.local.rows[name].status.Verifying? && !t.local.rows[name].status.Ready?
  {
    if actions != [] {
      var last := |actions| - 1;
      RefusedNameStaysRefused(s, actions[..last], name);
      var mid := Exec(s, actions[..last]).value;
      StepKeepsInv(mid, actions[last]);
      RefusedStep(mid, actions[last], name);
    }
    assert NameOk(Exec(s, actions).value, name);
  }

  // ------------------------------------------------------------------ one call at a time per row

  /** No two calls hold a copy of the same row. */
  ghost predicate Alone(s: State) {
    var calls := s.local.calls;
    forall a, b :: a in calls && b in calls && a != b && HoldsRow(calls[a]) && HoldsRow(calls[b]) ==>
      calls[a].name != calls[b].name
  }

  predicate Forward(from: Status, to: Status) {
    || from == to
    || (from == Registering && (to == Dns || to == Failed || to == ActionRequired))
    || (from == Dns && to == Verifying) || (from == Verifying && to == Ready)
  }

  /** A call's copy is the stored row, or an answered registration about to be saved. */
  ghost predicate FreshCopy(s: State, pc: Pc) {
    HoldsRow(pc) && pc.name in s.local.rows ==>
      var stored := s.local.rows[pc.name];
      if pc.Saving? then stored.status == Registering && Forward(Registering, pc.row.status)
        && pc.row.emailId == stored.emailId
      else pc.row == stored && (pc.Calling? || pc.Releasing? || pc.Failing? ==> stored.status == Registering)
           && (pc.Finishing? ==> stored.status == Verifying || stored.status == Ready)
  }

  ghost predicate Fresh(s: State) {
    && (forall c :: c in s.local.calls ==> FreshCopy(s, s.local.calls[c]))
    && Configured(s.local.rows)
  }

  ghost predicate Buying(step: Step) {
    || step.Look? || step.Quote? || step.Reserve? || step.Recall? || step.Insert?
    || step.GiveBack? || step.Register? || step.Release? || step.MarkFailed?
  }

  /** An e-mail domain is known only once DNS is configured. */
  ghost predicate Configured(rows: map<string, Row>) {
    forall n :: n in rows && rows[n].emailId != "" ==> rows[n].status == Verifying || rows[n].status == Ready
  }

  ghost predicate OwnRowForward(pc: Pc, rows: map<string, Row>, after: map<string, Row>) {
    && (forall n :: n in rows ==> n in after && Forward(rows[n].status, after[n].status))
    && (forall n :: n in rows && !(HoldsRow(pc) && n == pc.name) ==> after[n] == rows[n])
  }

  lemma {:induction false} BuyingLeavesRows(s: State, pc: Pc, step: Step)
    requires CanTake(s, pc, step) && Buying(step) && !step.Insert? && !step.MarkFailed?
    ensures Perform(s, EffectOf(s, pc, step)).local.rows == s.local.rows
  {
  }

  lemma {:induction false} BuyingMovesForward(s: State, pc: Pc, step: Step)
    requires CallOk(s, pc) && CanTake(s, pc, step) && FreshCopy(s, pc) && Configured(s.local.rows)
      && (step.Insert? || step.MarkFailed?)
    ensures var after := Perform(s, EffectOf(s, pc, step)).local.rows;
      OwnRowForward(pc, s.local.rows, after) && Configured(after)
  {
  }

  lemma {:induction false} AdvancingMovesForward(s: State, pc: Pc, step: Step)
    requires CallOk(s, pc) && CanTake(s, pc, step) && FreshCopy(s, pc) && Configured(s.local.rows) && !Buying(step)
    ensures var after := Perform(s, EffectOf(s, pc, step)).local.rows;
      OwnRowForward(pc, s.local.rows, after) && Configured(after)
  {
  }

  /** A step writes only the row it holds, and forward; what it holds afterwards is fresh. */
  lemma {:induction false} MovesForward(s: State, pc: Pc, step: Step)
    requires CallOk(s, pc) && CanTake(s, pc, step) && FreshCopy(s, pc) && Configured(s.local.rows)
    ensures var after := Perform(s, EffectOf(s, pc, step)).local.rows;
      OwnRowForward(pc, s.local.rows, after) && Configured(after)
  {
    if step.Insert? || step.MarkFailed? { BuyingMovesForward(s, pc, step); }
    else if Buying(step) { BuyingLeavesRows(s, pc, step); }
    else { AdvancingMovesForward(s, pc, step); }
  }

  lemma {:induction false} ReservingArrivesFresh(s: State, pc: Pc, step: Step)
    requires CallOk(s, pc) && CanTake(s, pc, step) && FreshCopy(s, pc)
      && (step.Look? || step.Quote? || step.Reserve? || step.Recall?)
    ensures FreshCopy(Perform(s, EffectOf(s, pc, step)), After(s, pc, step))
  {
  }

  lemma {:induction false} BuyingArrivesFresh(s: State, pc: Pc, step: Step)
    requires CallOk(s, pc) && CanTake(s, pc, step) && FreshCopy(s, pc)
    requires step.Insert? || step.GiveBack? || step.Register? || step.Release? || step.MarkFailed?
    ensures FreshCopy(Perform(s, EffectOf(s, pc, step)), After(s, pc, step))
  {
  }

  lemma {:induction false} PollingArrivesFresh(s: State, pc: Pc, step: Step)
    requires CallOk(s, pc) && CanTake(s, pc, step) && FreshCopy(s, pc)
      && (step.Poll? || step.SkipPoll? || step.SettleAnswer? || step.Save?)
    ensures FreshCopy(Perform(s, EffectOf(s, pc, step)), After(s, pc, step))
  {
  }

  lemma {:induction false} ArrivesFresh(s: State, pc: Pc, step: Step)
    requires CallOk(s, pc) && CanTake(s, pc, step) && FreshCopy(s, pc)
    ensures FreshCopy(Perform(s, EffectOf(s, pc, step)), After(s, pc, step))
  {
    if step.Look? || step.Quote? || step.Reserve? || step.Recall? { ReservingArrivesFresh(s, pc, step); }
    else if Buying(step) { BuyingArrivesFresh(s, pc, step); }
    else if step.Poll? || step.SkipPoll? || step.SettleAnswer? || step.Save? { PollingArrivesFresh(s, pc, step); }
  }

  lemma {:induction false} TakeKeepsFresh(s: State, c: nat, step: Step)
    requires Inv(s) && c in s.local.calls && CanTake(s, s.local.calls[c], step) && Alone(s) && Fresh(s)
    ensures var t := Goto(Perform(s, EffectOf(s, s.local.calls[c], step)), c, After(s, s.local.calls[c], step));
      Fresh(t) && forall n :: n in s.local.rows ==>
        n in t.local.rows && Forward(s.local.rows[n].status, t.local.rows[n].status)
  {
    var pc := s.local.calls[c];
    var done, next := Perform(s, EffectOf(s, pc, step)), After(s, pc, step);
    assert CallOk(s, pc) && FreshCopy(s, pc);
    MovesForward(s, pc, step);
    ArrivesFresh(s, pc, step);
    forall b | b in s.local.calls && b != c ensures FreshCopy(done, s.local.calls[b]) {
      assert CallOk(s, s.local.calls[b]) && FreshCopy(s, s.local.calls[b]);
    }
    FreshGoto(done, c, next);
  }

  lemma {:induction false} FreshGoto(s: State, c: nat, pc: Pc)
    requires forall b :: b in s.local.calls && b != c ==> FreshCopy(s, s.local.calls[b])
    requires FreshCopy(s, pc) && Configured(s.local.rows)
    ensures Fresh(Goto(s, c, pc))
  {
    var t := Goto(s, c, pc);
    forall b | b in t.local.calls ensures FreshCopy(t, t.local.calls[b]) {
      if b != c { assert FreshCopy(s, s.local.calls[b]); }
    }
  }

  lemma {:induction false} FreshStep(s: State, a: Action)
    requires Inv(s) && Enabled(s, a) && Alone(s) && Fresh(s)
    ensures Fresh(Apply(s, a))
    ensures forall n :: n in s.local.rows ==>
      n in Apply(s, a).local.rows && Forward(s.local.rows[n].status, Apply(s, a).local.rows[n].status)
  {
    match a
    case Take(c, step) =>
      hide Inv, Fresh, Alone;
      TakeKeepsFresh(s, c, step);
    case Begin(c, start) =>
      hide Inv, Fresh, Alone;
      BeginKeepsFresh(s, c, start);
    case OrderMoves(name, to) =>
      var t := Apply(s, a);
      forall c | c in t.local.calls ensures FreshCopy(t, t.local.calls[c]) { assert FreshCopy(s, s.local.calls[c]); }
  }

  /** A call begins with the row as it is stored. */
  lemma {:induction false} BeginKeepsFresh(s: State, c: nat, start: Start)
    requires Inv(s) && Enabled(s, Begin(c, start)) && Fresh(s)
    ensures Fresh(Begun(s, c, start))
    ensures forall n :: n in s.local.rows ==>
      n in Begun(s, c, start).local.rows && Begun(s, c, start).local.rows[n] == s.local.rows[n]
  {
    var t := Begun(s, c, start);
    forall b | b in t.local.calls ensures FreshCopy(t, t.local.calls[b]) {
      if b in s.local.calls { assert CallOk(s, s.local.calls[b]) && FreshCopy(s, s.local.calls[b]); }
    }
  }

  /** The action writes the row of `name`, and the row has meanwhile gone where that write does not lead on from. */
  ghost predicate WritesOver(s: State, a: Action, name: string) {
    && a.Take? && a.call in s.local.calls && HoldsRow(s.local.calls[a.call]) && s.local.calls[a.call].name == name
    && name in s.local.rows
    && var copy, stored := s.local.calls[a.call].row.status, s.local.rows[name].status;
       match a.step
       case Save => stored != Registering && stored != copy
       case MarkFailed => stored != Registering && stored != Failed
       case Configure(_) => stored != Dns && stored != Verifying
       case Finish => copy != Ready && stored != Verifying && stored != Ready
       case _ => false
  }

  ghost predicate Saves(step: Step) {
    step.MarkFailed? || step.Save? || step.Configure? || step.Finish?
  }

  lemma {:induction false} SaveOverStatus(s: State, c: nat, step: Step, name: string)
    requires Enabled(s, Take(c, step)) && Saves(step) && CallOk(s, s.local.calls[c]) && name in s.local.rows
    ensures var rows := Perform(s, EffectOf(s, s.local.calls[c], step)).local.rows;
      name in rows && (!Forward(s.local.rows[name].status, rows[name].status) <==> WritesOver(s, Take(c, step), name))
  {
  }

  lemma {:induction false} RowsKeptUnlessSaved(s: State, pc: Pc, step: Step, name: string)
    requires CanTake(s, pc, step) && !Saves(step) && name in s.local.rows
    ensures var rows := Perform(s, EffectOf(s, pc, step)).local.rows; name in rows && rows[name] == s.local.rows[name]
  {
  }

  /** However calls overlap, a row's status fails to move forward exactly at such a write. */
  lemma {:induction false} ForwardFailsIff(s: State, a: Action, name: string)
    requires Inv(s) && Enabled(s, a) && name in s.local.rows
    ensures name in Apply(s, a).local.rows
    ensures !Forward(s.local.rows[name].status, Apply(s, a).local.rows[name].status) <==> WritesOver(s, a, name)
  {
    if a.Take? {
      assert CallOk(s, s.local.calls[a.call]);
      if Saves(a.step) { SaveOverStatus(s, a.call, a.step, name); } else {
        RowsKeptUnlessSaved(s, s.local.calls[a.call], a.step, name);
      }
      hide Inv, CallOk, Perform, EffectOf, CanTake, After;
    } else {
      hide Inv, CallOk;
    }
  }

  /** Run one call at a time per row, and a row's status only moves forward. */
  lemma {:induction false} StatusMovesForward(actions: seq<Action>, k: nat, name: string)
    requires Run(actions).Some? && k < |actions|
    requires forall i :: 0 <= i < |actions| ==> Run(actions[..i]).Some? && Alone(Run(actions[..i]).value)
    requires name in Run(actions[..k]).value.local.rows
    ensures Run(actions[..k + 1]).Some? && name in Run(actions[..k + 1]).value.local.rows
    ensures Forward(Run(actions[..k]).value.local.rows[name].status,
      Run(actions[..k + 1]).value.local.rows[name].status)
  {
    assert actions[..k + 1][..k] == actions[..k];
    assert k + 1 == |actions| ==> actions[..k + 1] == actions;
    RunKeepsInv(actions[..k]);
    FreshRun(actions, k);
    FreshStep(Run(actions[..k]).value, actions[k]);
  }

  lemma {:induction false} FreshRun(actions: seq<Action>, k: nat)
    requires k < |actions|
    requires forall i :: 0 <= i < |actions| ==> Run(actions[..i]).Some? && Alone(Run(actions[..i]).value)
    ensures Fresh(Run(actions[..k]).value)
  {
    if k > 0 {
      FreshRun(actions, k - 1);
      assert actions[..k][..k - 1] == actions[..k - 1];
      RunKeepsInv(actions[..k - 1]);
      FreshStep(Run(actions[..k - 1]).value, actions[k - 1]);
    }
  }

  lemma {:induction false} BuyUpToCalling(at: Moment) returns (acts: seq<Action>, s: State)
    ensures Run(acts) == Some(s)
    ensures s == World([Entry("a", DomainRegister, 5, DomainKey("k"), Reserved, at)],
      Desk(map["n" := Row("a", true, Registering, 5, Some(0), "")],
           map[0 := Calling("n", Row("a", true, Registering, 5, Some(0), ""), 0)], map[], map[]))
  {
    s, acts := World([], Empty()), [];
    assert Run(acts) == Some(s);
    hide Runs.Exec;
    acts, s := Runs.Then(Next, World([], Empty()), acts, Begin(0, Buy("a", "n", "k")), s);
    acts, s := Runs.Then(Next, World([], Empty()), acts, Take(0, Look), s);
    acts, s := Runs.Then(Next, World([], Empty()), acts, Take(0, Quote(5)), s);
    acts, s := Runs.Then(Next, World([], Empty()), acts, Take(0, Reserve(at)), s);
    acts, s := Runs.Then(Next, World([], Empty()), acts, Take(0, Insert), s);
    assert s.local.calls == map[0 := Calling("n", Row("a", true, Registering, 5, Some(0), ""), 0)];
    assert s.local.rows == map["n" := Row("a", true, Registering, 5, Some(0), "")];
  }

  lemma {:induction false} BuyerAndPollerAnswered(at: Moment) returns (acts: seq<Action>, s: State)
    ensures Run(acts) == Some(s) && "n" in s.local.rows
      && s.local.rows["n"] == Row("a", true, Registering, 5, Some(0), "")
    ensures |s.entries| == 1 && s.entries[0].state == Reserved && s.local.orders == map["n" := Succeeded]
    ensures 0 in s.local.calls && s.local.calls[0] == Applying("n", s.local.rows["n"], InProgress, true)
    ensures 1 in s.local.calls && s.local.calls[1] == Applying("n", s.local.rows["n"], Succeeded, false)
  {
    hide Runs.Exec;
    acts, s := BuyUpToCalling(at);
    acts, s := Runs.Then(Next, World([], Empty()), acts, Take(0, Register(Replied(InProgress))), s);
    acts, s := Runs.Then(Next, World([], Empty()), acts, Begin(1, Advance("n")), s);
    acts, s := Runs.Then(Next, World([], Empty()), acts, OrderMoves("n", Succeeded), s);
    acts, s := Runs.Then(Next, World([], Empty()), acts, Take(1, Poll(Succeeded)), s);
    assert s.local.orders == map["n" := Succeeded];
  }

  lemma {:induction false} PollerSaved(at: Moment) returns (acts: seq<Action>, s: State)
    ensures Run(acts) == Some(s) && "n" in s.local.rows && s.local.rows["n"].status == Dns && |s.entries| == 1
    ensures 0 in s.local.calls
      && s.local.calls[0] == Applying("n", Row("a", true, Registering, 5, Some(0), ""), InProgress, true)
    ensures 1 in s.local.calls && HoldsRow(s.local.calls[1]) && s.local.calls[1].name == "n"
  {
    hide Runs.Exec;
    acts, s := BuyerAndPollerAnswered(at);
    acts, s := Runs.Then(Next, World([], Empty()), acts, Take(1, SettleAnswer), s);
    acts, s := Runs.Then(Next, World([], Empty()), acts, Take(1, Save), s);
  }

  /**
  With two callers on one row it can move back: the buyer saves its stale
  "registering" over the Dns that another caller's poll already saved.
  */
  lemma {:induction false} StaleSaveMovesBack(at: Moment) returns (acts: seq<Action>, s: State)
    ensures Run(acts) == Some(s) && "n" in s.local.rows && s.local.rows["n"].status == Dns && !Alone(s)
    ensures Enabled(s, Take(0, Save)) && "n" in Apply(s, Take(0, Save)).local.rows
    ensures Apply(s, Take(0, Save)).local.rows["n"].status == Registering
  {
    hide Runs.Exec;
    acts, s := PollerSaved(at);
    acts, s := Runs.Then(Next, World([], Empty()), acts, Take(0, SettleAnswer), s);
    assert HoldsRow(s.local.calls[0]) && HoldsRow(s.local.calls[1]) && s.local.calls[0].name == s.local.calls[1].name;
  }

  lemma {:induction false} OthersLeaveMe(s: State, a: Action, c: nat)
    requires Enabled(s, a) && c in s.local.calls && (a.OrderMoves? || a.call != c)
    ensures c in Apply(s, a).local.calls && Apply(s, a).local.calls[c] == s.local.calls[c]
  {
  }

  // ------------------------------------------------------------------ sharing the ledger

  lemma {:induction false} StepTouchesOwnKind(s: State, a: Action)
    requires Inv(s) && Enabled(s, a)
    ensures OnlyKind(s.entries, Apply(s, a).entries, DomainRegister)
  {
    if a.Take? { EffectTouchesOwnKind(s, s.local.calls[a.call], a.step); }
  }

  lemma {:induction false} EffectTouchesOwnKind(s: State, pc: Pc, step: Step)
    requires CallOk(s, pc) && CanTake(s, pc, step)
    ensures OnlyKind(s.entries, Perform(s, EffectOf(s, pc, step)).entries, DomainRegister)
  {
    var effect := EffectOf(s, pc, step);
    assert effect.SettleEntry? ==> effect.id < |s.entries| && s.entries[effect.id].kind == DomainRegister;
    assert effect.AddEntry? ==> effect.entry.kind == DomainRegister;
    hide CallOk, EffectOf, CanTake;
  }

  /** Other protocols use other kinds of entry, so nothing they do disturbs this one. */
  lemma {:induction false} OtherKindsKeepInv(s: State, after: Entries, kind: Kind)
    requires Inv(s) && OnlyKind(s.entries, after, kind) && kind != DomainRegister
    ensures Inv(World(after, s.local))
  {
    var t := World(after, s.local);
    forall n ensures NameOk(t, n) { assert NameOk(s, n); }
    forall b | b in t.local.calls ensures CallOk(t, t.local.calls[b]) {
      assert CallOk(s, s.local.calls[b]);
    }
  }
}
