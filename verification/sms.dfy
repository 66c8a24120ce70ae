/**
Sending text messages (sms.py and the approval half of email.py) as a state machine:
any number of `send_sms` and `approve` calls, cut into their database and provider
steps and interleaved in any order. Twilio has no idempotency key, so the protocol
itself must see to it that a message row is sent at most once.
*/
module Sms {
  import opened Wrappers
  import Runs
  import opened Ledger

  datatype Status = PendingApproval | Queued | Sent | Failed | Rejected

  /** One outbound row; its primary key is its index. */
  datatype Message = Message(agent: string, endpoint: string, to: string, body: string, key: string, status: Status)

  /** How a provider call ends: surely without effect, with an unknown outcome, or accepted. */
  datatype Reply = Refusal | NoReply(accepted: bool) | Accepted

  datatype Ending =
    | Found(message: nat)
    | Held(message: nat)
    | KeyReused
    | NotFound
    | Stopped
    | Delivered
    | Unknown
    | Undelivered

  datatype Pc =
    | Creating(agent: string, endpoint: string, to: string, body: string, key: string, approval: bool)
    | Approving(message: nat, approve: bool)
    | Reserving(message: nat)
    | Sending(message: nat, id: nat, price: nat)
    | Refunding(message: nat, id: nat)
    | MarkingFailed(message: nat)
    | Charging(message: nat, id: nat)
    | MarkingSent(message: nat)
    | Done(ending: Ending)

  /**
  `paid` remembers the entry of each delivery, `sends` how often the provider was called, `accepted` what it took for
  a text.
  */
  datatype Desk = Desk(messages: seq<Message>, calls: map<nat, Pc>, paid: map<nat, nat>, sends: map<nat, nat>,
    accepted: map<nat, nat>)

  type State = World<Desk>

  datatype Start =
    | Send(agent: string, endpoint: string, to: string, body: string, key: string, approval: bool)
    | Decide(message: nat, approve: bool)

  datatype Step = Create | SaveDecision | Reserve(amount: nat, at: Moment) | CallProvider(reply: Reply)
    | Refund | MarkFailed | Charge | MarkSent | Stop

  datatype Action = Begin(call: nat, start: Start) | Take(call: nat, step: Step)

  function Sends(d: Desk, m: nat): nat {
    if m in d.sends then d.sends[m] else 0
  }

  /** The row of one (endpoint, key), which the database keeps unique among outbound messages. */
  function Lookup(messages: seq<Message>, endpoint: string, key: string): (found: Option<nat>)
    ensures found.Some? ==>
      found.value < |messages| && messages[found.value].endpoint == endpoint && messages[found.value].key == key
    ensures found.None? ==>
      forall i :: 0 <= i < |messages| ==> !(messages[i].endpoint == endpoint && messages[i].key == key)
  {
    if messages == [] then None else
      var last := |messages| - 1;
      var earlier := Lookup(messages[..last], endpoint, key);
      if earlier.Some? then earlier
      else if messages[last].endpoint == endpoint && messages[last].key == key then Some(last) else None
  }

  predicate CanTake(s: State, pc: Pc, step: Step) {
    var es, d := s.entries, s.local;
    match step
    case Create => pc.Creating?
    case SaveDecision => pc.Approving? && pc.message < |d.messages|
    case Reserve(_, _) => pc.Reserving? && pc.message < |d.messages|
    case CallProvider(_) => pc.Sending?
    case Refund => pc.Refunding? && pc.id < |es|
    case MarkFailed => pc.MarkingFailed? && pc.message < |d.messages|
    case Charge => pc.Charging? && pc.id < |es|
    case MarkSent => pc.MarkingSent? && pc.message < |d.messages|
    case Stop => !pc.Done?
  }

  predicate Enabled(s: State, a: Action) {
    var d := s.local;
    match a
    case Begin(c, start) =>
      c !in d.calls && (start.Decide? ==>
        start.message < |d.messages| && d.messages[start.message].status == PendingApproval)
    case Take(c, step) => c in d.calls && CanTake(s, d.calls[c], step)
  }

  /** The one write, or provider call, of a step. */
  datatype Effect =
    | Nothing
    | AddMessage(row: Message)
    | SetStatus(message: nat, status: Status)
    | AddEntry(message: nat, entry: Entry)
    | AdoptEntry(message: nat, id: nat)
    | Ring(message: nat, taken: Option<nat>)
    | SettleEntry(id: nat, charged: bool)

  function EffectOf(s: State, pc: Pc, step: Step): Effect
    requires CanTake(s, pc, step)
  {
    var es, d := s.entries, s.local;
    match step
    case Create =>
      if Lookup(d.messages, pc.endpoint, pc.key).Some? then Nothing
      else AddMessage(Message(pc.agent, pc.endpoint, pc.to, pc.body, pc.key,
        if pc.approval then PendingApproval else Queued))
    case SaveDecision => SetStatus(pc.message, if pc.approve then Queued else Rejected)
    case Reserve(amount, at) =>
      var agent := d.messages[pc.message].agent;
      var found := Find(es, agent, SmsKey(pc.message));
      if found.None? then AddEntry(pc.message, Entry(agent, SmsMessage, amount, SmsKey(pc.message), Reserved, at))
      else if es[found.value].kind == SmsMessage then AdoptEntry(pc.message, found.value)
      else Nothing
    case CallProvider(reply) =>
      Ring(pc.message, if reply.Accepted? || (reply.NoReply? && reply.accepted) then Some(pc.price) else None)
    case Refund => SettleEntry(pc.id, false)
    case MarkFailed => SetStatus(pc.message, Failed)
    case Charge => SettleEntry(pc.id, true)
    case MarkSent => SetStatus(pc.message, Sent)
    case Stop => Nothing
  }

  function Perform(s: State, effect: Effect): State {
    var es, d := s.entries, s.local;
    match effect
    case Nothing => s
    case AddMessage(row) => s.(local := d.(messages := d.messages + [row]))
    case SetStatus(m, status) =>
      if m < |d.messages| then s.(local := d.(messages := d.messages[m := d.messages[m].(status := status)])) else s
    case AddEntry(m, entry) => World(es + [entry], d.(paid := d.paid[m := |es|]))
    case AdoptEntry(m, id) => s.(local := d.(paid := d.paid[m := id]))
    case Ring(m, taken) =>
      s.(local := d.(sends := d.sends[m := Sends(d, m) + 1],
        accepted := if taken.Some? then d.accepted[m := taken.value] else d.accepted))
    case SettleEntry(id, charged) => if id < |es| then s.(entries := Settled(es, id, charged)) else s
  }

  function After(s: State, pc: Pc, step: Step): Pc
    requires CanTake(s, pc, step)
  {
    var es, d := s.entries, s.local;
    match step
    case Create =>
      var found := Lookup(d.messages, pc.endpoint, pc.key);
      if found.Some? then
        if d.messages[found.value].body != pc.body || d.messages[found.value].to != pc.to then Done(KeyReused)
          else Done(Found(found.value))
      else if pc.approval then Done(Held(|d.messages|)) else Reserving(|d.messages|)
    case SaveDecision => if pc.approve then Reserving(pc.message) else Done(Stopped)
    case Reserve(amount, _) =>
      var found := Find(es, d.messages[pc.message].agent, SmsKey(pc.message));
      (match found
       case Some(id) => if es[id].kind == SmsMessage then Sending(pc.message, id, amount) else Done(Stopped)
       case None => Sending(pc.message, |es|, amount))
    case CallProvider(reply) =>
      (match reply
       case Refusal => Refunding(pc.message, pc.id)
       case NoReply(_) => Done(Unknown)
       case Accepted => Charging(pc.message, pc.id))
    case Refund => MarkingFailed(pc.message)
    case MarkFailed => Done(Undelivered)
    case Charge => MarkingSent(pc.message)
    case MarkSent => Done(Delivered)
    case Stop => Done(Stopped)
  }

  function Goto(s: State, call: nat, pc: Pc): State {
    s.(local := s.local.(calls := s.local.calls[call := pc]))
  }

  function Apply(s: State, a: Action): State
    requires Enabled(s, a)
  {
    match a
    case Begin(c, start) =>
      Goto(s, c, match start
                 case Send(agent, endpoint, to, body, key, approval) =>
                   Creating(agent, endpoint, to, body, key, approval)
                 case Decide(m, approve) => Approving(m, approve))
    case Take(c, step) =>
      var pc := s.local.calls[c];
      Goto(Perform(s, EffectOf(s, pc, step)), c, After(s, pc, step))
  }

  function Next(s: State, a: Action): Option<State> {
    if Enabled(s, a) then Some(Apply(s, a)) else None
  }

  function Empty(): Desk {
    Desk([], map[], map[], map[], map[])
  }

  function Run(actions: seq<Action>): Option<State> {
    Runs.Exec(Next, World([], Empty()), actions)
  }

  // ------------------------------------------------------------------ what holds in every run

  /** A call that may still send its message: a rejecting one cannot. */
  ghost predicate Handles(pc: Pc) {
    !pc.Creating? && !pc.Done? && (pc.Approving? ==> pc.approve)
  }

  predicate CallTyped(s: State, pc: Pc) {
    && (!pc.Creating? && !pc.Done? ==> pc.message < |s.local.messages|)
    && (pc.Sending? || pc.Refunding? || pc.Charging? ==>
      pc.id < |s.entries| && s.entries[pc.id].dedupe == SmsKey(pc.message))
  }

  ghost predicate RowsUnique(messages: seq<Message>) {
    forall i, j :: 0 <= i < j < |messages| ==>
      !(messages[i].endpoint == messages[j].endpoint && messages[i].key == messages[j].key)
  }

  /** However approvals overlap: every call has its row and entry, and rows and entries keep their keys apart. */
  ghost predicate Base(s: State) {
    && (forall c :: c in s.local.calls ==> CallTyped(s, s.local.calls[c]))
    && (forall i :: 0 <= i < |s.entries| ==> Typed(s.entries[i]))
    && RowsUnique(s.local.messages)
  }

  /** What no step ever takes back: rows and entries, what they are for, and settlements. */
  ghost predicate Later(s: State, t: State) {
    && |s.local.messages| <= |t.local.messages| && |s.entries| <= |t.entries|
    && (forall m :: 0 <= m < |s.local.messages| ==>
      t.local.messages[m] == s.local.messages[m].(status := t.local.messages[m].status))
    && (forall i :: 0 <= i < |s.entries| ==> t.entries[i] == s.entries[i].(state := t.entries[i].state))
    && (forall i :: 0 <= i < |s.entries| && s.entries[i].state != Reserved ==> t.entries[i] == s.entries[i])
  }

  lemma {:induction false} StepIsLater(s: State, a: Action)
    requires Enabled(s, a)
    ensures Later(s, Apply(s, a))
  {
  }

  lemma {:induction false} BaseArrives(s: State, c: nat, step: Step)
    requires Base(s) && Enabled(s, Take(c, step))
    ensures CallTyped(Apply(s, Take(c, step)), After(s, s.local.calls[c], step))
  {
    assert CallTyped(s, s.local.calls[c]);
    StepIsLater(s, Take(c, step));
  }

  lemma {:induction false} BaseTables(s: State, a: Action)
    requires Base(s) && Enabled(s, a)
    ensures forall i :: 0 <= i < |Apply(s, a).entries| ==> Typed(Apply(s, a).entries[i])
    ensures RowsUnique(Apply(s, a).local.messages)
  {
    if a.Take? { assert CallTyped(s, s.local.calls[a.call]); }
  }

  lemma {:induction false} BaseStep(s: State, a: Action)
    requires Base(s) && Enabled(s, a)
    ensures Base(Apply(s, a)) && Later(s, Apply(s, a))
  {
    var t := Apply(s, a);
    StepIsLater(s, a);
    BaseTables(s, a);
    if a.Take? { BaseArrives(s, a.call, a.step); }
    assert forall b :: b in t.local.calls && b != a.call ==> b in s.local.calls && t.local.calls[b] == s.local.calls[b];
    assert CallTyped(t, t.local.calls[a.call]);
    hide Apply;
    forall b | b in t.local.calls ensures CallTyped(t, t.local.calls[b]) {
      if b != a.call { assert CallTyped(s, s.local.calls[b]); }
    }
  }

  lemma {:induction false} BaseExec(s: State, actions: seq<Action>)
    requires Base(s) && Runs.Exec(Next, s, actions).Some?
    ensures Base(Runs.Exec(Next, s, actions).value)
  {
    if actions != [] {
      BaseExec(s, actions[..|actions| - 1]);
      BaseStep(Runs.Exec(Next, s, actions[..|actions| - 1]).value, actions[|actions| - 1]);
    }
  }

  lemma {:induction false} BaseRun(actions: seq<Action>)
    requires Run(actions).Some?
    ensures Base(Run(actions).value)
  {
    BaseExec(World([], Empty()), actions);
  }

  // ------------------------------------------------------------------ the invariant

  /** approve reads the status and saves it without a lock: no two calls are about to approve one message. */
  predicate OneApproval(s: State) {
    var calls := s.local.calls;
    forall a, b :: a in calls && b in calls && a != b && calls[a].Approving? && calls[b].Approving? ==>
      (calls[a].approve && calls[b].approve ==> calls[a].message != calls[b].message)
  }

  ghost predicate CallOk(s: State, pc: Pc) {
    var es, d := s.entries, s.local;
    && (!pc.Creating? && !pc.Done? ==> pc.message < |d.messages|)
    && (pc.Sending? || pc.Refunding? || pc.Charging? ==>
      && pc.id < |es| && es[pc.id].state == Reserved && es[pc.id].dedupe == SmsKey(pc.message)
      && pc.message in d.paid && d.paid[pc.message] == pc.id)
    && match pc
       case Approving(m, approve) => approve ==> m !in d.paid && Sends(d, m) == 0
       case Reserving(m) => m !in d.paid && Sends(d, m) == 0 && d.messages[m].status != PendingApproval
       case Sending(m, id, price) =>
         Sends(d, m) == 0 && d.messages[m].status != PendingApproval && es[id].amount == price
       case Refunding(m, _) => Sends(d, m) == 1 && m !in d.accepted && d.messages[m].status != PendingApproval
       case MarkingFailed(m) => d.messages[m].status != PendingApproval
       case Charging(m, _) => m in d.accepted && d.messages[m].status != PendingApproval
       case MarkingSent(m) => m in d.accepted && d.messages[m].status != PendingApproval
       case _ => true
  }

  /** What is known of one message, whoever handles it. */
  ghost predicate MessageOk(s: State, m: nat) {
    var es, d := s.entries, s.local;
    && Sends(d, m) <= 1
    && (m in d.paid ==>
      && m < |d.messages| && d.paid[m] < |es|
      && es[d.paid[m]].dedupe == SmsKey(m) && es[d.paid[m]].kind == SmsMessage
      && es[d.paid[m]].agent == d.messages[m].agent)
    && (m in d.sends ==> m in d.paid)
    && (m in d.accepted ==>
      && m in d.paid && Sends(d, m) == 1
      && es[d.paid[m]].state != Released && es[d.paid[m]].amount == d.accepted[m])
    && (m < |d.messages| && d.messages[m].status == PendingApproval ==> m !in d.paid)
  }

  /** Each message is handled by one call; several may only wait to approve it. */
  ghost predicate HandledOnce(d: Desk) {
    forall a, b :: a in d.calls && b in d.calls && a != b && Handles(d.calls[a]) && Handles(d.calls[b]) ==>
      (!d.calls[a].Approving? ==> d.calls[a].message != d.calls[b].message)
  }

  ghost predicate EntriesOk(s: State) {
    var es, d := s.entries, s.local;
    && (forall i :: 0 <= i < |es| ==> Typed(es[i]))
    && (forall i :: 0 <= i < |es| && es[i].dedupe.SmsKey? ==>
      es[i].dedupe.message in d.paid && d.paid[es[i].dedupe.message] == i)
  }

  ghost predicate Inv(s: State) {
    && (forall m: nat :: MessageOk(s, m))
    && (forall c :: c in s.local.calls ==> CallOk(s, s.local.calls[c]))
    && HandledOnce(s.local) && EntriesOk(s) && RowsUnique(s.local.messages)
  }

  /** What an effect needs so that it keeps the invariant while its own call is idle. */
  ghost predicate Fits(s: State, effect: Effect) {
    var es, d := s.entries, s.local;
    match effect
    case Nothing => true
    case AddMessage(row) =>
      Lookup(d.messages, row.endpoint, row.key).None? && (row.status == PendingApproval || row.status == Queued)
    case SetStatus(m, status) => m < |d.messages| && status != PendingApproval
    case AddEntry(m, entry) =>
      && m < |d.messages| && m !in d.paid && d.messages[m].status != PendingApproval && Unhandled(d, m)
      && entry.dedupe == SmsKey(m) && entry.kind == SmsMessage && entry.agent == d.messages[m].agent
    case AdoptEntry(_, _) => false
    case Ring(m, taken) =>
      && m in d.paid && Sends(d, m) == 0 && d.paid[m] < |es| && es[d.paid[m]].state == Reserved && Unhandled(d, m)
      && (taken.Some? ==> taken.value == es[d.paid[m]].amount)
    case SettleEntry(id, charged) =>
      id < |es| && es[id].dedupe.SmsKey? && Unhandled(d, es[id].dedupe.message)
        && (charged || es[id].dedupe.message !in d.accepted)
  }

  ghost predicate Unhandled(d: Desk, m: nat) {
    forall b :: b in d.calls && Handles(d.calls[b]) ==> d.calls[b].message != m
  }

  lemma {:induction false} PerformKeepsMessages(s: State, effect: Effect)
    requires Inv(s) && Fits(s, effect)
    ensures forall m: nat :: MessageOk(Perform(s, effect), m)
    ensures EntriesOk(Perform(s, effect)) && RowsUnique(Perform(s, effect).local.messages)
  {
    forall m: nat ensures MessageOk(Perform(s, effect), m) { assert MessageOk(s, m); }
    if effect.AddMessage? { assert MessageOk(s, |s.local.messages|); }
  }

  lemma {:induction false} PerformKeepsCalls(s: State, effect: Effect)
    requires Inv(s) && Fits(s, effect)
    ensures forall b :: b in s.local.calls ==> CallOk(Perform(s, effect), s.local.calls[b])
  {
    forall b | b in s.local.calls ensures CallOk(Perform(s, effect), s.local.calls[b]) {
      assert CallOk(s, s.local.calls[b]);
    }
  }

  lemma {:induction false} PerformKeepsInv(s: State, effect: Effect)
    requires Inv(s) && Fits(s, effect)
    ensures Inv(Perform(s, effect))
  {
    PerformKeepsMessages(s, effect);
    PerformKeepsCalls(s, effect);
  }

  lemma {:induction false} GotoKeepsInv(s: State, c: nat, pc: Pc)
    requires Inv(s) && CallOk(s, pc)
    requires Handles(pc) ==> forall b :: b in s.local.calls && b != c && Handles(s.local.calls[b]) ==>
      s.local.calls[b].message != pc.message || (pc.Approving? && s.local.calls[b].Approving?)
    ensures Inv(Goto(s, c, pc))
  {
    var t := Goto(s, c, pc);
    forall m: nat ensures MessageOk(t, m) { assert MessageOk(s, m); }
    forall b | b in t.local.calls ensures CallOk(t, t.local.calls[b]) {
      if b != c { assert CallOk(s, s.local.calls[b]); }
    }
  }

  lemma {:induction false} EffectFits(s: State, c: nat, step: Step)
    requires Inv(s) && OneApproval(s) && Enabled(s, Take(c, step))
    ensures Fits(Goto(s, c, Done(Stopped)), EffectOf(s, s.local.calls[c], step))
  {
    var pc := s.local.calls[c];
    assert CallOk(s, pc);
    if !pc.Creating? && !pc.Done? { assert MessageOk(s, pc.message); }
  }

  lemma {:induction false} NewArrives(s: State, c: nat, step: Step)
    requires Inv(s) && Enabled(s, Take(c, step)) && (step.Create? || step.Reserve?)
    ensures CallOk(Perform(s, EffectOf(s, s.local.calls[c], step)), After(s, s.local.calls[c], step))
  {
    var pc := s.local.calls[c];
    assert CallOk(s, pc);
    if step.Create? { assert MessageOk(s, |s.local.messages|); } else { assert MessageOk(s, pc.message); }
  }

  lemma {:induction false} Arrives(s: State, c: nat, step: Step)
    requires Inv(s) && Enabled(s, Take(c, step))
    ensures CallOk(Perform(s, EffectOf(s, s.local.calls[c], step)), After(s, s.local.calls[c], step))
  {
    if step.Create? || step.Reserve? {
      NewArrives(s, c, step);
    } else {
      var pc := s.local.calls[c];
      assert CallOk(s, pc);
      if !pc.Creating? && !pc.Done? { assert MessageOk(s, pc.message); }
    }
  }

  lemma {:induction false} HandlesAlone(s: State, c: nat, step: Step, b: nat)
    requires Inv(s) && OneApproval(s) && Enabled(s, Take(c, step)) && b in s.local.calls && b != c
      && Handles(s.local.calls[b])
    requires Handles(After(s, s.local.calls[c], step))
    ensures s.local.calls[b].message != After(s, s.local.calls[c], step).message
  {
    assert CallOk(s, s.local.calls[b]);
  }

  lemma {:induction false} TakeKeepsInv(s: State, c: nat, step: Step)
    requires Inv(s) && OneApproval(s) && Enabled(s, Take(c, step))
    ensures Inv(Apply(s, Take(c, step)))
  {
    var pc := s.local.calls[c];
    var effect, next := EffectOf(s, pc, step), After(s, pc, step);
    var idle := Goto(s, c, Done(Stopped));
    assert Inv(Perform(idle, effect)) by {
      GotoKeepsInv(s, c, Done(Stopped));
      EffectFits(s, c, step);
      PerformKeepsInv(idle, effect);
    }
    Arrives(s, c, step);
    IdleFirst(s, c, effect, next);
    forall b | b in idle.local.calls && b != c && Handles(next) && Handles(idle.local.calls[b])
      ensures idle.local.calls[b].message != next.message
    {
      HandlesAlone(s, c, step, b);
    }
    GotoKeepsInv(Perform(idle, effect), c, next);
  }

  /** An effect does the same whatever the calls are about to do, and leaves them. */
  lemma {:induction false} PerformIgnoresCalls(s: State, calls: map<nat, Pc>, effect: Effect)
    ensures Perform(s.(local := s.local.(calls := calls)), effect)
      == Perform(s, effect).(local := Perform(s, effect).local.(calls := calls))
    ensures Perform(s, effect).local.calls == s.local.calls
  {
  }

  lemma {:induction false} IdleFirst(s: State, c: nat, effect: Effect, pc: Pc)
    requires CallOk(Perform(s, effect), pc)
    ensures CallOk(Perform(Goto(s, c, Done(Stopped)), effect), pc)
    ensures Perform(Goto(s, c, Done(Stopped)), effect).local.calls == Goto(s, c, Done(Stopped)).local.calls
    ensures Goto(Perform(Goto(s, c, Done(Stopped)), effect), c, pc) == Goto(Perform(s, effect), c, pc)
  {
    PerformIgnoresCalls(s, s.local.calls[c := Done(Stopped)], effect);
    hide Perform;
    assert s.local.calls[c := Done(Stopped)][c := pc] == s.local.calls[c := pc];
  }

  lemma {:induction false} StepKeepsInv(s: State, a: Action)
    requires Inv(s) && OneApproval(s) && Enabled(s, a)
    ensures Inv(Apply(s, a))
  {
    match a
    case Take(c, step) => TakeKeepsInv(s, c, step);
    case Begin(c, start) =>
      var pc := Apply(s, a).local.calls[c];
      if pc.Approving? { assert MessageOk(s, pc.message); }
      forall b | b in s.local.calls && Handles(pc) && Handles(s.local.calls[b])
        && s.local.calls[b].message == pc.message
        ensures s.local.calls[b].Approving?
      {
        assert CallOk(s, s.local.calls[b]);
      }
      GotoKeepsInv(s, c, pc);
  }

  // ------------------------------------------------------------------ every run

  /** Approvals are made one at a time per message in every state of a run. */
  ghost predicate OneApprovalThroughout(actions: seq<Action>) {
    forall k :: 0 <= k < |actions| ==> Run(actions[..k]).Some? ==> OneApproval(Run(actions[..k]).value)
  }

  lemma {:induction false} RunKeepsInv(actions: seq<Action>)
    requires Run(actions).Some? && OneApprovalThroughout(actions)
    ensures Inv(Run(actions).value)
  {
    if actions != [] {
      var last := |actions| - 1;
      assert forall k :: 0 <= k < last ==> actions[..last][..k] == actions[..k];
      RunKeepsInv(actions[..last]);
      StepKeepsInv(Run(actions[..last]).value, actions[last]);
    }
  }

  /**
  With approvals one at a time, no interleaving of sends, retries, approvals and
  crashes calls the provider twice for one row, and one (endpoint, key) has one row.
  */
  lemma {:induction false} SentAtMostOnce(actions: seq<Action>, m: nat)
    requires Run(actions).Some? && OneApprovalThroughout(actions)
    ensures Sends(Run(actions).value.local, m) <= 1 && RowsUnique(Run(actions).value.local.messages)
  {
    RunKeepsInv(actions);
    assert MessageOk(Run(actions).value, m);
  }

  /** A message the provider accepted has a ledger entry of its own, not released, at the price the provider took. */
  lemma {:induction false} AcceptedIsCovered(s: State, m: nat)
    requires Inv(s) && m in s.local.accepted
    ensures m in s.local.paid && s.local.paid[m] < |s.entries| && s.entries[s.local.paid[m]].state != Released
    ensures s.entries[s.local.paid[m]].amount == s.local.accepted[m]
    ensures s.entries[s.local.paid[m]].kind == SmsMessage && m < |s.local.messages|
      && s.entries[s.local.paid[m]].agent == s.local.messages[m].agent
    ensures forall other :: other in s.local.paid && other != m ==> s.local.paid[other] != s.local.paid[m]
  {
    assert MessageOk(s, m);
    forall other | other in s.local.paid && other != m
      ensures s.local.paid[other] != s.local.paid[m]
    {
      assert MessageOk(s, other);
    }
  }

  lemma {:induction false} TwoApproversRead() returns (acts: seq<Action>, s: State)
    ensures Run(acts) == Some(s) && !OneApproval(s) && s.entries == []
    ensures s.local.messages == [Message("a", "from", "to", "hi", "k", PendingApproval)] && s.local.paid == map[]
      && s.local.sends == map[]
    ensures s.local.calls == map[0 := Done(Held(0)), 1 := Approving(0, true), 2 := Approving(0, true)]
  {
    s, acts := World([], Empty()), [];
    assert Run(acts) == Some(s);
    hide Runs.Exec;
    acts, s := Runs.Then(Next, World([], Empty()), acts, Begin(0, Send("a", "from", "to", "hi", "k", true)), s);
    acts, s := Runs.Then(Next, World([], Empty()), acts, Take(0, Create), s);
    acts, s := Runs.Then(Next, World([], Empty()), acts, Begin(1, Decide(0, true)), s);
    acts, s := Runs.Then(Next, World([], Empty()), acts, Begin(2, Decide(0, true)), s);
    assert s.local.calls[1].message == s.local.calls[2].message;
    assert s.local.calls == map[0 := Done(Held(0)), 1 := Approving(0, true), 2 := Approving(0, true)];
  }

  /**
  In any run, two approvals of one message that both saw it pending can send it twice in the
  next six steps, at whatever prices and with whatever replies.
  */
  lemma {:induction false} OverlappingApprovalsSendTwice(actions: seq<Action>, b: nat, c: nat, m: nat, price: nat,
      at: Moment, first: Reply, second: Reply)
    returns (more: seq<Action>, t: State)
    requires Run(actions).Some? && b != c
    requires var calls := Run(actions).value.local.calls;
      b in calls && c in calls && calls[b] == calls[c] == Approving(m, true)
    ensures |more| == 6 && Run(actions + more) == Some(t) && Sends(t.local, m) == Sends(Run(actions).value.local, m) + 2
  {
    var mid: State;
    BaseRun(actions);
    mid := ApproverSends(actions, b, m, price, at, first);
    var half := actions + [Take(b, SaveDecision), Take(b, Reserve(price, at)), Take(b, CallProvider(first))];
    BaseRun(half);
    t := ApproverSends(half, c, m, price, at, second);
    more := [Take(b, SaveDecision), Take(b, Reserve(price, at)), Take(b, CallProvider(first)),
             Take(c, SaveDecision), Take(c, Reserve(price, at)), Take(c, CallProvider(second))];
    assert actions + more == half + [Take(c, SaveDecision), Take(c, Reserve(price, at)), Take(c, CallProvider(second))];
  }

  /** Call c moved, and no other; `rang` says whether it called the provider, for message m. */
  ghost predicate OnlyMoved(s: State, t: State, c: nat, m: nat, rang: nat) {
    && c in t.local.calls && Sends(t.local, m) == Sends(s.local, m) + rang
    && forall b :: b != c && b in s.local.calls ==> b in t.local.calls && t.local.calls[b] == s.local.calls[b]
  }

  lemma {:induction false} ApproverSaves(s: State, c: nat, m: nat)
    requires Base(s) && c in s.local.calls && s.local.calls[c] == Approving(m, true)
    ensures var t := Next(s, Take(c, SaveDecision));
      t.Some? && Base(t.value) && OnlyMoved(s, t.value, c, m, 0) && t.value.local.calls[c] == Reserving(m)
  {
    assert CallTyped(s, s.local.calls[c]);
    BaseStep(s, Take(c, SaveDecision));
    hide Base;
  }

  lemma {:induction false} ApproverReserves(s: State, c: nat, m: nat, price: nat, at: Moment)
    requires Base(s) && c in s.local.calls && s.local.calls[c] == Reserving(m)
    ensures var t := Next(s, Take(c, Reserve(price, at)));
      t.Some? && OnlyMoved(s, t.value, c, m, 0) && t.value.local.calls[c].Sending?
        && t.value.local.calls[c].message == m
  {
    assert CallTyped(s, s.local.calls[c]);
    var found := Find(s.entries, s.local.messages[m].agent, SmsKey(m));
    assert found.Some? ==> Typed(s.entries[found.value]);
    hide Base, Find;
  }

  lemma {:induction false} ApproverCalls(s: State, c: nat, m: nat, reply: Reply)
    requires c in s.local.calls && s.local.calls[c].Sending? && s.local.calls[c].message == m
    ensures var t := Next(s, Take(c, CallProvider(reply))); t.Some? && OnlyMoved(s, t.value, c, m, 1)
  {
  }

  /** An approver that saw the message pending goes on to call the provider, whoever else does. */
  lemma {:induction false} ApproverSends(actions: seq<Action>, c: nat, m: nat, price: nat, at: Moment, reply: Reply)
    returns (t: State)
    requires Run(actions).Some? && Base(Run(actions).value)
    requires c in Run(actions).value.local.calls && Run(actions).value.local.calls[c] == Approving(m, true)
    ensures Run(actions + [Take(c, SaveDecision), Take(c, Reserve(price, at)), Take(c, CallProvider(reply))]) == Some(t)
    ensures OnlyMoved(Run(actions).value, t, c, m, 1)
  {
    hide Runs.Exec, Base, Next;
    var acts := actions;
    t := Run(actions).value;
    ApproverSaves(t, c, m);
    acts, t := Runs.Then(Next, World([], Empty()), acts, Take(c, SaveDecision), t);
    ApproverReserves(t, c, m, price, at);
    acts, t := Runs.Then(Next, World([], Empty()), acts, Take(c, Reserve(price, at)), t);
    ApproverCalls(t, c, m, reply);
    acts, t := Runs.Then(Next, World([], Empty()), acts, Take(c, CallProvider(reply)), t);
    assert acts == actions + [Take(c, SaveDecision), Take(c, Reserve(price, at)), Take(c, CallProvider(reply))];
  }

  // What becomes of the entry when two approvers send in turn.

  /** The entry of message m, if the ledger holds one. */
  function HeldFor(s: State, m: nat): Option<nat>
    requires m < |s.local.messages|
  {
    Find(s.entries, s.local.messages[m].agent, SmsKey(m))
  }

  /** Only call c and the entries moved; `id` is the entry of message m now. */
  ghost predicate OnEntry(s: State, t: State, c: nat, m: nat, id: nat) {
    && m < |s.local.messages| == |t.local.messages| && OnlyMoved(s, t, c, m, 0)
    && HeldFor(t, m) == Some(id) && id < |t.entries|
  }

  lemma {:induction false} ReserveHolds(s: State, c: nat, m: nat, price: nat, at: Moment)
    requires Base(s) && c in s.local.calls && s.local.calls[c] == Reserving(m)
    ensures var t := Next(s, Take(c, Reserve(price, at)));
      && m < |s.local.messages| && t.Some?
      && var id := if HeldFor(s, m).Some? then HeldFor(s, m).value else |s.entries|;
      && OnEntry(s, t.value, c, m, id) && t.value.local.calls[c] == Sending(m, id, price)
      && t.value.local.paid == s.local.paid[m := id] && t.value.local.messages == s.local.messages
      && var held := Entry(s.local.messages[m].agent, SmsMessage, price, SmsKey(m), Reserved, at);
         t.value.entries == if HeldFor(s, m).Some? then s.entries else s.entries + [held]
  {
    hide Base, Find, Lookup;
    HeldIsText(s, c, m);
    if HeldFor(s, m).None? {
      FindAppended(s.entries, Entry(s.local.messages[m].agent, SmsMessage, price, SmsKey(m), Reserved, at));
    }
  }

  lemma {:induction false} HeldIsText(s: State, c: nat, m: nat)
    requires Base(s) && c in s.local.calls && s.local.calls[c] == Reserving(m)
    ensures m < |s.local.messages| && (HeldFor(s, m).Some? ==> s.entries[HeldFor(s, m).value].kind == SmsMessage)
  {
    assert CallTyped(s, s.local.calls[c]);
    var found := HeldFor(s, m);
    assert found.Some? ==> Typed(s.entries[found.value]);
  }

  lemma {:induction false} RefusalMoves(s: State, c: nat, m: nat, id: nat, price: nat)
    requires c in s.local.calls && s.local.calls[c] == Sending(m, id, price)
    ensures var t := Next(s, Take(c, CallProvider(Refusal)));
      && t.Some? && OnlyMoved(s, t.value, c, m, 1) && t.value.local.calls[c] == Refunding(m, id)
      && t.value.entries == s.entries && t.value.local.messages == s.local.messages
      && t.value.local.accepted == s.local.accepted
  {
  }

  lemma {:induction false} RefundReleases(s: State, c: nat, m: nat, id: nat)
    requires m < |s.local.messages| && c in s.local.calls && s.local.calls[c] == Refunding(m, id)
    requires HeldFor(s, m) == Some(id) && id < |s.entries| && s.entries[id].state != Charged
    ensures var t := Next(s, Take(c, Refund));
      t.Some? && OnEntry(s, t.value, c, m, id) && t.value.entries == Settled(s.entries, id, false)
  {
    FindIgnoresState(s.entries, Settled(s.entries, id, false), s.local.messages[m].agent, SmsKey(m));
  }

  lemma {:induction false} SaveKeepsEntries(s: State, c: nat, m: nat)
    requires Base(s) && c in s.local.calls && s.local.calls[c] == Approving(m, true)
    ensures var t := Next(s, Take(c, SaveDecision));
      && m < |s.local.messages| && t.Some? && OnlyMoved(s, t.value, c, m, 0) && t.value.local.calls[c] == Reserving(m)
      && t.value.entries == s.entries && |t.value.local.messages| == |s.local.messages|
      && HeldFor(t.value, m) == HeldFor(s, m)
      && t.value.local.messages[m].agent == s.local.messages[m].agent
  {
    assert CallTyped(s, s.local.calls[c]);
    hide Base, Find;
  }

  lemma {:induction false} AcceptedTakes(s: State, c: nat, m: nat, id: nat, price: nat)
    requires c in s.local.calls && s.local.calls[c] == Sending(m, id, price)
    ensures var t := Next(s, Take(c, CallProvider(Accepted)));
      && t.Some? && t.value.entries == s.entries && t.value.local.paid == s.local.paid
      && m in t.value.local.accepted && t.value.local.accepted[m] == price
  {
  }

  /** What is left of the entry of message m when it is given back. */
  function GivenBack(s: State, m: nat, price: nat, at: Moment): Entries
    requires m < |s.local.messages|
  {
    match HeldFor(s, m)
    case Some(id) => Settled(s.entries, id, false)
    case None => s.entries + [Entry(s.local.messages[m].agent, SmsMessage, price, SmsKey(m), Released, at)]
  }

  /** An approver gets the entry of its message, new or not. */
  lemma {:induction false} ApproverReserved(start: State, c: nat, m: nat, price: nat, at: Moment)
    returns (acts: seq<Action>, t: State, id: nat)
    requires Base(start) && c in start.local.calls && start.local.calls[c] == Approving(m, true)
      && m < |start.local.messages|
    ensures Runs.Exec(Next, start, acts) == Some(t) && |acts| == 2 && OnEntry(start, t, c, m, id)
      && m < |t.local.messages|
    ensures id == if HeldFor(start, m).Some? then HeldFor(start, m).value else |start.entries|
    ensures t.local.calls[c] == Sending(m, id, price) && m in t.local.paid && t.local.paid[m] == id
    ensures var held := Entry(start.local.messages[m].agent, SmsMessage, price, SmsKey(m), Reserved, at);
      t.entries == if HeldFor(start, m).Some? then start.entries else start.entries + [held]
  {
    acts, t := [], start;
    assert Runs.Exec(Next, start, acts) == Some(t);
    hide Runs.Exec, Next, Base, Find;
    SaveKeepsEntries(t, c, m);
    acts, t := Runs.Then(Next, start, acts, Take(c, SaveDecision), t);
    BaseExec(start, acts);
    ReserveHolds(t, c, m, price, at);
    id := if HeldFor(start, m).Some? then HeldFor(start, m).value else |start.entries|;
    acts, t := Runs.Then(Next, start, acts, Take(c, Reserve(price, at)), t);
  }

  /** An approver that the provider refuses gives the entry back, whoever else is about to use it. */
  lemma {:induction false} ApproverRefunds(start: State, c: nat, m: nat, price: nat, at: Moment)
    returns (acts: seq<Action>, t: State)
    requires Base(start) && c in start.local.calls && start.local.calls[c] == Approving(m, true)
      && m < |start.local.messages|
    requires HeldFor(start, m).Some? ==> start.entries[HeldFor(start, m).value].state != Charged
    ensures Runs.Exec(Next, start, acts) == Some(t) && |acts| == 4 && Base(t) && m < |t.local.messages|
    ensures HeldFor(t, m).Some? && t.entries[HeldFor(t, m).value].state == Released
      && t.entries == GivenBack(start, m, price, at)
    ensures forall b :: b != c && b in start.local.calls ==>
      b in t.local.calls && t.local.calls[b] == start.local.calls[b]
  {
    hide Runs.Exec, Next, Base, Find;
    var id: nat;
    acts, t, id := ApproverReserved(start, c, m, price, at);
    RefusalMoves(t, c, m, id, price);
    acts, t := Runs.Then(Next, start, acts, Take(c, CallProvider(Refusal)), t);
    RefundReleases(t, c, m, id);
    acts, t := Runs.Then(Next, start, acts, Take(c, Refund), t);
    BaseExec(start, acts);
  }

  /** An approver whose message has an entry sends on that entry, settled or not. */
  lemma {:induction false} ApproverUses(start: State, c: nat, m: nat, price: nat, at: Moment)
    returns (acts: seq<Action>, t: State)
    requires Base(start) && c in start.local.calls && start.local.calls[c] == Approving(m, true)
      && m < |start.local.messages|
    requires HeldFor(start, m).Some?
    ensures Runs.Exec(Next, start, acts) == Some(t) && |acts| == 3 && t.entries == start.entries
    ensures m in t.local.accepted && t.local.accepted[m] == price && m in t.local.paid
      && t.local.paid[m] == HeldFor(start, m).value
  {
    hide Runs.Exec, Next, Base, Find;
    var id: nat;
    acts, t, id := ApproverReserved(start, c, m, price, at);
    AcceptedTakes(t, c, m, id, price);
    acts, t := Runs.Then(Next, start, acts, Take(c, CallProvider(Accepted)), t);
  }

  /**
  In every state of every run (`BaseRun`), two approvals of one message that both saw it pending
  can leave an accepted text on a released entry: the first is refused and gives the entry
  back, the second sends on it. Afterwards the ledger counts no more than before.
  */
  lemma {:induction false} OverlapLeavesUncovered(s: State, b: nat, c: nat, m: nat, price: nat, at: Moment)
    returns (acts: seq<Action>, t: State)
    requires Base(s) && b != c && b in s.local.calls && c in s.local.calls
      && s.local.calls[b] == s.local.calls[c] == Approving(m, true)
    requires m < |s.local.messages| && (HeldFor(s, m).Some? ==> s.entries[HeldFor(s, m).value].state != Charged)
    ensures Runs.Exec(Next, s, acts) == Some(t) && |acts| == 7
    ensures m in t.local.accepted && t.local.accepted[m] == price
    ensures m in t.local.paid && t.local.paid[m] < |t.entries| && t.entries[t.local.paid[m]].state == Released
    ensures forall agent, since :: Spent(t.entries, agent, since) <= Spent(s.entries, agent, since)
  {
    hide Runs.Exec, Next, Base, Find;
    var first, mid := ApproverRefunds(s, b, m, price, at);
    var second: seq<Action>;
    second, t := ApproverUses(mid, c, m, price, at);
    acts := first + second;
    Runs.Join(Next, s, first, second);
    forall agent, since
      ensures Spent(t.entries, agent, since) <= Spent(s.entries, agent, since)
    {
      GivenBackCountsLess(s, m, price, at, agent, since);
    }
  }

  lemma {:induction false} GivenBackCountsLess(s: State, m: nat, price: nat, at: Moment, agent: string, since: Moment)
    requires m < |s.local.messages|
    ensures Spent(GivenBack(s, m, price, at), agent, since) <= Spent(s.entries, agent, since)
  {
    match HeldFor(s, m)
    case Some(id) => SpentShrinks(s.entries, Settled(s.entries, id, false), agent, since, since);
    case None =>
      SpentAppend(s.entries, Entry(s.local.messages[m].agent, SmsMessage, price, SmsKey(m), Released, at), agent,
        since);
  }

  lemma {:induction false} OthersLeaveMe(s: State, a: Action, c: nat)
    requires Enabled(s, a) && c in s.local.calls && a.call != c
    ensures c in Apply(s, a).local.calls && Apply(s, a).local.calls[c] == s.local.calls[c]
  {
  }

  // ------------------------------------------------------------------ sharing the ledger

  lemma {:induction false} StepTouchesOwnKind(s: State, a: Action)
    requires Base(s) && Enabled(s, a)
    ensures OnlyKind(s.entries, Apply(s, a).entries, SmsMessage)
  {
    if a.Take? {
      assert CallTyped(s, s.local.calls[a.call]);
      assert a.step.Refund? || a.step.Charge? ==> Typed(s.entries[s.local.calls[a.call].id]);
    }
    hide Base, Find, Lookup;
  }

  /** Other protocols use other kinds of entry, so nothing they do disturbs this one. */
  lemma {:induction false} OtherKindsKeepBase(s: State, after: Entries, kind: Kind)
    requires Base(s) && OnlyKind(s.entries, after, kind) && kind != SmsMessage
    ensures Base(World(after, s.local))
  {
    var t := World(after, s.local);
    forall b | b in t.local.calls ensures CallTyped(t, t.local.calls[b]) { assert CallTyped(s, s.local.calls[b]); }
    forall i | 0 <= i < |after| ensures Typed(after[i]) { assert i < |s.entries| ==> Typed(s.entries[i]); }
  }

  lemma {:induction false} OtherKindsKeepInv(s: State, after: Entries, kind: Kind)
    requires Inv(s) && OnlyKind(s.entries, after, kind) && kind != SmsMessage
    ensures Inv(World(after, s.local))
  {
    var t := World(after, s.local);
    forall m: nat ensures MessageOk(t, m) { assert MessageOk(s, m); }
    forall b | b in t.local.calls ensures CallOk(t, t.local.calls[b]) {
      assert CallOk(s, s.local.calls[b]);
    }
    forall i | 0 <= i < |after| ensures Typed(after[i]) { assert i < |s.entries| ==> Typed(s.entries[i]); }
  }
}
