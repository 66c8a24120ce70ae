/**
The code of domains.py. Every database write and provider call is one method, which
changes the rows in place and takes exactly one step of the `Domains` machine. The
functions of the source are built from these; between any two steps other calls may
take any number of theirs (`Interfere`). Provider replies are parameters.
*/
module DomainCode {
  import opened Wrappers
  import Runs
  import Ledger
  import opened Domains

  /** The replies this call gets, and what the other calls do at each of its pauses. */
  datatype Replies = Replies(quote: Option<nat>, at: Ledger.Moment, register: Reply, poll: Option<Answer>,
                             emailId: Option<string>, verified: Option<bool>, others: nat -> seq<Action>)

  /** One more call of `register` for a name. */
  function OnceMore(registers: map<string, nat>, name: string): map<string, nat> {
    registers[name := (if name in registers then registers[name] else 0) + 1]
  }

  /** Nobody else moves. */
  ghost predicate Quiet(others: nat -> seq<Action>) {
    forall n :: others(n) == []
  }

  lemma {:induction false} EntriesKept(s: State, a: Action)
    requires Enabled(s, a)
    ensures Ledger.Kept(s.entries, Apply(s, a).entries)
  {
  }

  // ------------------------------------------------------------------ the steps of advance_domain

  /** The registrar's truthful answer to a poll. */
  function Heard(d: Desk, name: string, w: Replies): Option<Answer> {
    if w.poll.Some? && !Truthful(d, name, w.poll.value) then Some(InProgress) else w.poll
  }

  function VerifySteps(w: Replies): seq<Step> {
    match w.verified
    case None => [Stop]
    case Some(verified) => if verified then [SeeVerified, Finish] else [Return]
  }

  function SetUpSteps(copy: Status, w: Replies): seq<Step> {
    match copy
    case Dns => if w.emailId.Some? then [Configure(w.emailId.value)] + VerifySteps(w) else [Stop]
    case Verifying => [AlreadyConfigured] + VerifySteps(w)
    case _ => [Return]
  }

  function AdvanceSteps(row: Row, answer: Option<Answer>, w: Replies): seq<Step> {
    if row.status != Registering then [SkipPoll] + SetUpSteps(row.status, w)
    else match answer
      case None => [Stop]
      case Some(a) => [Poll(a), SettleAnswer, Save] + SetUpSteps(Answered(row, a).status, w)
  }

  function VerifiedRow(stored: Row, w: Replies): Row {
    if w.verified == Some(true) then stored.(status := Ready) else stored
  }

  function SetUpRow(stored: Row, copy: Status, w: Replies): Row {
    match copy
    case Dns =>
      if w.emailId.Some? then VerifiedRow(stored.(status := Verifying, emailId := w.emailId.value), w) else stored
    case Verifying => VerifiedRow(stored, w)
    case _ => stored
  }

  function AdvancedRow(stored: Row, row: Row, answer: Option<Answer>, w: Replies): Row {
    if row.status != Registering then SetUpRow(stored, row.status, w)
    else match answer
      case None => stored
      case Some(a) => SetUpRow(stored.(status := Answered(row, a).status), Answered(row, a).status, w)
  }

  // ------------------------------------------------------------------ what becomes of a row

  /** The status that each answer of the registrar gives a row that is being registered. */
  predicate AnswerGives(answer: Answer, status: Status) {
    match answer
    case InProgress => status == Registering
    case Succeeded => status == Dns
    case Rejected => status == Failed
    case NeedsAction => status == ActionRequired
  }

  /** Set-up: the email provider's id is kept once it takes the domain, and READY waits for its verification. */
  predicate SetUpGives(stored: Row, after: Row, w: Replies) {
    if w.emailId.None? then after == stored.(status := Dns)
    else after == stored.(status := if w.verified == Some(true) then Ready else Verifying, emailId := w.emailId.value)
  }

  /** One undisturbed advance_domain, by the status that the call has read: a final row stays as it is. */
  predicate Becomes(stored: Row, after: Row, read: Status, answer: Option<Answer>, w: Replies) {
    match read
    case Registering =>
      (match answer
       case None => after == stored
       case Some(Succeeded) => SetUpGives(stored, after, w)
       case Some(a) => after == stored.(status := after.status) && AnswerGives(a, after.status))
    case Dns => if w.emailId.None? then after == stored else SetUpGives(stored, after, w)
    case Verifying => after == if w.verified == Some(true) then stored.(status := Ready) else stored
    case Ready => after == stored
    case Failed => after == stored
    case ActionRequired => after == stored
  }

  lemma {:induction false} AdvancedBecomes(stored: Row, row: Row, answer: Option<Answer>, w: Replies)
    ensures Becomes(stored, AdvancedRow(stored, row, answer, w), row.status, answer, w)
  {
  }

  // ------------------------------------------------------------------ the steps of buy_domain

  /** What a call met: whose the name is, what its key was used for, who won the insert, and what a poll said. */
  datatype Seen =
    | Foreign
    | Mine(row: Row, heard: Option<Answer>)
    | OtherKind
    | Recalled(found: Option<(string, Row)>, heard: Option<Answer>)
    | Won(row: Row, heard: Option<Answer>)
    | Beaten

  function RegisterSteps(row: Row, heard: Option<Answer>, w: Replies): seq<Step> {
    match w.register
    case Refusal => [Register(w.register), Release, MarkFailed]
    case NoReply(_) => [Register(w.register)]
    case Replied(a) => [Register(w.register), SettleAnswer, Save] + AdvanceSteps(Answered(row, a), heard, w)
  }

  /** From the reservation on. */
  function PurchaseSteps(seen: Seen, w: Replies): seq<Step> {
    match seen
    case Recalled(None, _) => [Recall(None)]
    case Recalled(Some(found), heard) => [Recall(Some(found.0))] + AdvanceSteps(found.1, heard, w)
    case Won(row, heard) => [Insert] + RegisterSteps(row, heard, w)
    case Beaten => [Insert, GiveBack]
    case _ => []
  }

  function NewSteps(seen: Seen, w: Replies): seq<Step> {
    if w.quote.None? then [Stop] else [Quote(w.quote.value), Reserve(w.at)] + PurchaseSteps(seen, w)
  }

  function BuySteps(seen: Seen, w: Replies): seq<Step> {
    [Look] + match seen
             case Foreign => []
             case Mine(row, heard) => AdvanceSteps(row, heard, w)
             case _ => NewSteps(seen, w)
  }

  function SettledBy(es: Ledger.Entries, row: Row, answer: Answer): Ledger.Entries
    requires row.spend.Some? && row.spend.value < |es|
  {
    if answer.Succeeded? || answer.Rejected? then Ledger.Settled(es, row.spend.value, answer.Succeeded?) else es
  }

  /** Where the registrar's reply leaves the call that registered. */
  function Rung(name: string, row: Row, id: nat, reply: Reply): Pc {
    if reply.Refusal? then Releasing(name, row, id) else if reply.NoReply? then Done(Returned)
      else Applying(name, row, reply.answer, true)
  }

  function Ordered(orders: map<string, Answer>, name: string, reply: Reply): map<string, Answer> {
    if reply.NoReply? && reply.placed then orders[name := InProgress]
    else if reply.Replied? then orders[name := reply.answer] else orders
  }

  lemma {:induction false} AnswerApplies(s: State, c: nat)
    requires Inv(s) && c in s.local.calls && s.local.calls[c].Applying?
    ensures var pc, d := s.local.calls[c], s.local;
      && Enabled(s, Take(c, SettleAnswer)) && pc.row.spend.Some? && pc.row.spend.value < |s.entries|
      && var after := SettledBy(s.entries, pc.row, pc.answer);
      && Apply(s, Take(c, SettleAnswer)) == Ledger.World(after,
        d.(calls := d.calls[c := Saving(pc.name, Answered(pc.row, pc.answer), pc.bought)]))
      && |after| == |s.entries|
      && (pc.answer.Succeeded? ==> after[pc.row.spend.value].state == Ledger.Charged)
      && (pc.answer.Rejected? ==> after[pc.row.spend.value].state == Ledger.Released)
  {
    assert CallOk(s, s.local.calls[c]) && NameOk(s, s.local.calls[c].name);
  }

  lemma {:induction false} RegisterApplies(s: State, c: nat, reply: Reply)
    requires c in s.local.calls && s.local.calls[c].Calling?
    ensures var pc, d := s.local.calls[c], s.local;
      && Enabled(s, Take(c, Register(reply)))
      && Apply(s, Take(c, Register(reply)))
         == Ledger.World(s.entries,
           Desk(d.rows, d.calls[c := Rung(pc.name, pc.row, pc.id, reply)], Ordered(d.orders, pc.name, reply),
             OnceMore(d.registers, pc.name)))
  {
  }

  lemma {:induction false} ApplyingGives(s: State, c: nat)
    requires Inv(s) && c in s.local.calls && s.local.calls[c].Applying?
    ensures var pc := s.local.calls[c];
      var saved := Answered(pc.row, pc.answer);
      saved == pc.row.(status := saved.status) && AnswerGives(pc.answer, saved.status)
  {
    assert CallOk(s, s.local.calls[c]);
  }

  /** The step writes nothing and leads to `to`. */
  predicate Passes(s: State, pc: Pc, step: Step, to: Pc) {
    CanTake(s, pc, step) && EffectOf(s, pc, step) == Nothing && After(s, pc, step) == to
  }

  lemma {:induction false} StopPasses(s: State, pc: Pc)
    requires !pc.Done?
    ensures Passes(s, pc, Stop, Done(Stopped))
  {
  }

  lemma {:induction false} CheckingPasses(s: State, name: string, row: Row)
    ensures Passes(s, Checking(name, row), SeeVerified, Finishing(name, row))
      && Passes(s, Checking(name, row), Return, Done(Returned))
  {
  }

  lemma {:induction false} SettingUpPasses(s: State, name: string, row: Row)
    ensures row.status == Verifying ==> Passes(s, SettingUp(name, row), AlreadyConfigured, Checking(name, row))
    ensures row.status != Dns && row.status != Verifying ==> Passes(s, SettingUp(name, row), Return, Done(Returned))
  {
  }

  lemma {:induction false} AdvancingPasses(s: State, name: string, row: Row, answer: Answer)
    ensures row.status == Registering && Truthful(s.local, name, answer) ==>
      Passes(s, Advancing(name, row), Poll(answer), Applying(name, row, answer, false))
    ensures row.status != Registering ==> Passes(s, Advancing(name, row), SkipPoll, SettingUp(name, row))
  {
  }

  lemma {:induction false} RecallPasses(s: State, id: nat, found: Option<string>)
    requires if found.Some? then found.value in s.local.rows && s.local.rows[found.value].spend == Some(id)
             else forall name :: name in s.local.rows ==> s.local.rows[name].spend != Some(id)
    ensures Passes(s, Replaying(id), Recall(found),
      if found.Some? then Advancing(found.value, s.local.rows[found.value]) else Done(Conflicted))
  {
  }

  lemma {:induction false} LookPasses(s: State, agent: string, name: string, key: string, price: nat)
    ensures Passes(s, Looking(agent, name, key), Look,
      if name !in s.local.rows then Quoting(agent, name, key)
      else if s.local.rows[name].owner != agent then Done(Conflicted) else Advancing(name, s.local.rows[name]))
    ensures Passes(s, Quoting(agent, name, key), Quote(price), Reserving(agent, name, key, price))
  {
  }

  // ------------------------------------------------------------------ one action more

  function StepOf(me: nat): Action -> Option<Step> {
    (a: Action) => if a.Take? && a.call == me then Some(a.step) else None
  }

  lemma {:induction false} OneStep(trace: seq<Action>, s: State, a: Action, me: nat)
    requires Run(trace) == Some(s) && Inv(s) && Enabled(s, a)
    ensures Run(trace + [a]) == Some(Apply(s, a)) && Inv(Apply(s, a))
    ensures Runs.Went(StepOf(me), trace, trace + [a], if a.Take? && a.call == me then [a.step] else [])
  {
    StepKeepsInv(s, a);
    Runs.Extend(Next, Ledger.World([], Empty()), trace, a);
    Runs.WentOne(StepOf(me), trace, a);
  }

  // ------------------------------------------------------------------ which steps a call has taken

  // The steps of advance_domain, put together.

  lemma {:induction false} VerifyTook(me: nat, a: seq<Action>, b: seq<Action>, c: seq<Action>, w: Replies)
    requires if w.verified == Some(true)
             then Runs.Went(StepOf(me), a, b, [SeeVerified]) && Runs.Went(StepOf(me), b, c, [Finish])
             else Runs.Went(StepOf(me), a, c, [if w.verified.None? then Stop else Return])
    ensures Runs.Went(StepOf(me), a, c, VerifySteps(w))
  {
    if w.verified == Some(true) { Runs.Further(StepOf(me), a, b, c, [SeeVerified], [Finish], VerifySteps(w)); }
  }

  lemma {:induction false} SetUpTook(me: nat, a: seq<Action>, b: seq<Action>, c: seq<Action>, copy: Status, w: Replies)
    requires if copy == Verifying || (copy == Dns && w.emailId.Some?)
             then Runs.Went(StepOf(me), a, b, [if copy == Dns then Configure(w.emailId.value) else AlreadyConfigured])
                  && Runs.Went(StepOf(me), b, c, VerifySteps(w))
             else Runs.Went(StepOf(me), a, c, [if copy == Dns then Stop else Return])
    ensures Runs.Went(StepOf(me), a, c, SetUpSteps(copy, w))
  {
    if copy == Verifying || (copy == Dns && w.emailId.Some?) {
      Runs.Further(StepOf(me), a, b, c, [if copy == Dns then Configure(w.emailId.value) else AlreadyConfigured],
        VerifySteps(w), SetUpSteps(copy, w));
    }
  }

  lemma {:induction false} AdvanceTook(me: nat, a: seq<Action>, b: seq<Action>, c: seq<Action>, row: Row,
      answer: Option<Answer>, w: Replies)
    requires if row.status != Registering
             then Runs.Went(StepOf(me), a, b, [SkipPoll]) && Runs.Went(StepOf(me), b, c, SetUpSteps(row.status, w))
             else match answer
               case None => Runs.Went(StepOf(me), a, c, [Stop])
               case Some(said) =>
                 Runs.Went(StepOf(me), a, b, [Poll(said), SettleAnswer, Save])
                   && Runs.Went(StepOf(me), b, c, SetUpSteps(Answered(row, said).status, w))
    ensures Runs.Went(StepOf(me), a, c, AdvanceSteps(row, answer, w))
  {
    hide SetUpSteps;
    if row.status != Registering {
      Runs.Further(StepOf(me), a, b, c, [SkipPoll], SetUpSteps(row.status, w), AdvanceSteps(row, answer, w));
    } else if answer.Some? {
      var rest := SetUpSteps(Answered(row, answer.value).status, w);
      Runs.Further(StepOf(me), a, b, c, [Poll(answer.value), SettleAnswer, Save], rest, AdvanceSteps(row, answer, w));
    }
  }

  // The steps of buy_domain, put together.

  lemma {:induction false} RegisterTook(me: nat, a: seq<Action>, b: seq<Action>, c: seq<Action>, d: seq<Action>,
      row: Row, heard: Option<Answer>, w: Replies)
    requires Runs.Went(StepOf(me), a, b, [Register(w.register)])
    requires match w.register
             case NoReply(_) => b == d
             case Refusal => Runs.Went(StepOf(me), b, d, [Release, MarkFailed])
             case Replied(said) =>
               Runs.Went(StepOf(me), b, c, [SettleAnswer, Save])
                 && Runs.Went(StepOf(me), c, d, AdvanceSteps(Answered(row, said), heard, w))
    ensures Runs.Went(StepOf(me), a, d, RegisterSteps(row, heard, w))
  {
    hide AdvanceSteps;
    match w.register
    case NoReply(_) =>
    case Refusal =>
      Runs.Further(StepOf(me), a, b, d, [Register(w.register)], [Release, MarkFailed], RegisterSteps(row, heard, w));
    case Replied(said) =>
      Runs.Further(StepOf(me), a, b, c, [Register(w.register)], [SettleAnswer, Save],
        [Register(w.register), SettleAnswer, Save]);
      Runs.Further(StepOf(me), a, c, d, [Register(w.register), SettleAnswer, Save],
        AdvanceSteps(Answered(row, said), heard, w), RegisterSteps(row, heard, w));
  }

  lemma {:induction false} NothingBought(me: nat, a: seq<Action>, w: Replies)
    ensures Runs.Went(StepOf(me), a, a, PurchaseSteps(OtherKind, w))
  {
    Runs.WentNowhere(StepOf(me), a);
  }

  lemma {:induction false} NewTook(me: nat, a: seq<Action>, b: seq<Action>, c: seq<Action>, d: seq<Action>, seen: Seen,
      w: Replies)
    requires if w.quote.None? then Runs.Went(StepOf(me), a, d, [Stop])
             else Runs.Went(StepOf(me), a, b, [Quote(w.quote.value)]) && Runs.Went(StepOf(me), b, c, [Reserve(w.at)])
                  && Runs.Went(StepOf(me), c, d, PurchaseSteps(seen, w))
    ensures Runs.Went(StepOf(me), a, d, NewSteps(seen, w))
  {
    hide PurchaseSteps;
    if w.quote.Some? {
      Runs.Further(StepOf(me), a, b, c, [Quote(w.quote.value)], [Reserve(w.at)], [Quote(w.quote.value), Reserve(w.at)]);
      Runs.Further(StepOf(me), a, c, d, [Quote(w.quote.value), Reserve(w.at)], PurchaseSteps(seen, w),
        NewSteps(seen, w));
    }
  }

  lemma {:induction false} BuyTook(me: nat, a: seq<Action>, b: seq<Action>, c: seq<Action>, seen: Seen, w: Replies)
    requires Runs.Went(StepOf(me), a, b, [Look])
    requires match seen
             case Foreign => b == c
             case Mine(row, heard) => Runs.Went(StepOf(me), b, c, AdvanceSteps(row, heard, w))
             case _ => Runs.Went(StepOf(me), b, c, NewSteps(seen, w))
    ensures Runs.Went(StepOf(me), a, c, BuySteps(seen, w))
  {
    hide AdvanceSteps, NewSteps;
    match seen
    case Foreign => assert BuySteps(seen, w) == [Look];
    case Mine(row, heard) => Runs.Further(StepOf(me), a, b, c, [Look], AdvanceSteps(row, heard, w), BuySteps(seen, w));
    case _ => Runs.Further(StepOf(me), a, b, c, [Look], NewSteps(seen, w), BuySteps(seen, w));
  }

  class DomainService {
    var entries: Ledger.Entries
    var rows: map<string, Row>
    var calls: map<nat, Pc>
    var orders: map<string, Answer>
    var registers: map<string, nat>
    var pauses: nat
    /** All actions so far, of every call. */
    ghost var trace: seq<Action>

    constructor ()
      ensures Now() == Ledger.World([], Empty()) && Sound()
    {
      entries, rows, calls, orders, registers, pauses := [], map[], map[], map[], map[], 0;
      trace := [];
      new;
      assert Inv(Now());
    }

    function Now(): State
      reads this
    {
      Ledger.World(entries, Desk(rows, calls, orders, registers))
    }

    /** The tables are those of a run of the protocol. */
    ghost predicate Sound()
      reads this
    {
      Run(trace) == Some(Now()) && Inv(Now())
    }

    /** This call is about to take the step `pc`. */
    ghost predicate At(me: nat, pc: Pc)
      reads this
    {
      me in calls && calls[me] == pc && Sound()
    }

    /** The run goes on by one action; the code then brings the tables there. */
    ghost method Note(me: nat, a: Action) returns (after: State)
      requires Sound() && Enabled(Now(), a)
      modifies this`trace
      ensures after == Apply(Now(), a) && Run(trace) == Some(after) && Inv(after) && trace == old(trace) + [a]
      ensures Runs.Went(StepOf(me), old(trace), trace, if a.Take? && a.call == me then [a.step] else [])
    {
      OneStep(trace, Now(), a, me);
      after := Apply(Now(), a);
      trace := trace + [a];
    }

    /** The row a call holds exists, and a purchased one has its entry. */
    lemma HeldRow(me: nat)
      requires me in calls && Sound() && HoldsRow(calls[me])
      ensures calls[me].name in rows && (calls[me].row.spend.Some? ==> calls[me].row.spend.value < |entries|)
      ensures calls[me].Applying? ==> calls[me].row.spend.Some?
      ensures calls[me].Checking? ==> calls[me].row.status == Verifying
    {
      assert CallOk(Now(), calls[me]);
    }

    // ---------------------------------------------------------------- other calls

    method Follow(me: nat, a: Action)
      requires me in calls && Sound() && Enabled(Now(), a) && (a.OrderMoves? || a.call != me)
      modifies this
      ensures Now() == Apply(old(Now()), a) && pauses == old(pauses)
      ensures At(me, old(calls[me])) && Runs.Went(StepOf(me), old(trace), trace, [])
        && Ledger.Kept(old(entries), entries)
    {
      OthersLeaveMe(Now(), a, me);
      EntriesKept(Now(), a);
      ghost var noted := Note(me, a);
      hide Apply, Inv, Run, Runs.Collect;
      var after := Apply(Now(), a);
      entries, rows, calls := after.entries, after.local.rows, after.local.calls;
      orders, registers := after.local.orders, after.local.registers;
    }

    /** Other calls, and the registrar, move; this call has taken `steps` since `before`. */
    method Interfere(me: nat, others: nat -> seq<Action>, ghost before: seq<Action>, ghost steps: seq<Step>)
      requires me in calls && Sound() && Runs.Went(StepOf(me), before, trace, steps)
      modifies this
      ensures At(me, old(calls[me])) && Runs.Went(StepOf(me), before, trace, steps)
        && Ledger.Kept(old(entries), entries)
      ensures Quiet(others) ==> Now() == old(Now())
    {
      hide Runs.Went, Run, Inv, Apply;
      var batch := others(pauses);
      pauses := pauses + 1;
      for k := 0 to |batch|
        invariant At(me, old(calls[me])) && Runs.Went(StepOf(me), before, trace, steps)
          && Ledger.Kept(old(entries), entries)
        invariant batch == [] ==> Now() == old(Now())
      {
        if Enabled(Now(), batch[k]) && (batch[k].OrderMoves? || batch[k].call != me) {
          ghost var mid := trace;
          Follow(me, batch[k]);
          Runs.Further(StepOf(me), before, mid, trace, steps, [], steps);
        }
      }
    }

    // ---------------------------------------------------------------- one write each

    method Start(me: nat, agent: string, name: string, key: string)
      requires me !in calls && Sound()
      modifies this`calls, this`trace
      ensures Now() == Apply(old(Now()), Begin(me, Buy(agent, name, key)))
        && trace == old(trace) + [Begin(me, Buy(agent, name, key))]
      ensures At(me, Looking(agent, name, key))
      ensures Runs.Went(StepOf(me), old(trace), trace, [])
    {
      ghost var after := Note(me, Begin(me, Buy(agent, name, key)));
      calls := calls[me := Looking(agent, name, key)];
    }

    /** A step that only reads, or waits for a provider that changes nothing. */
    method Move(me: nat, step: Step, to: Pc)
      requires me in calls && Sound() && Passes(Now(), calls[me], step, to)
      modifies this`calls, this`trace
      ensures Now() == Apply(old(Now()), Take(me, step)) && At(me, to)
      ensures Runs.Went(StepOf(me), old(trace), trace, [step])
    {
      ghost var after := Note(me, Take(me, step));
      calls := calls[me := to];
    }

    /** settle: the update only touches a row that is still reserved. */
    method Settle(id: nat, charged: bool)
      requires id < |entries|
      modifies this`entries
      ensures entries == Ledger.Settled(old(entries), id, charged)
    {
      if entries[id].state == Ledger.Reserved {
        entries := entries[id := entries[id].(state := if charged then Ledger.Charged else Ledger.Released)];
      }
    }

    method ReserveMoney(me: nat, agent: string, name: string, key: string, price: nat, at: Ledger.Moment)
      returns (id: nat, replayed: bool)
      requires At(me, Reserving(agent, name, key, price))
      modifies this`entries, this`calls, this`trace
      ensures Now() == Apply(old(Now()), Take(me, Reserve(at)))
      ensures me in calls && Sound() && (replayed <==> Ledger.Find(old(entries), agent, Ledger.DomainKey(key)).Some?)
      ensures calls[me] == if !replayed then Inserting(agent, name, price, id)
                           else if id < |entries| && entries[id].kind == Ledger.DomainRegister then Replaying(id)
                             else Done(Stopped)
      ensures var held := Ledger.Entry(agent, Ledger.DomainRegister, price, Ledger.DomainKey(key), Ledger.Reserved, at);
        if replayed then entries == old(entries) else id == |old(entries)| && entries == old(entries) + [held]
      ensures Runs.Went(StepOf(me), old(trace), trace, [Reserve(at)])
    {
      ghost var after := Note(me, Take(me, Reserve(at)));
      var found := Ledger.Find(entries, agent, Ledger.DomainKey(key));
      if found.Some? {
        id, replayed := found.value, true;
        calls := calls[me := if entries[id].kind == Ledger.DomainRegister then Replaying(id) else Done(Stopped)];
      } else {
        id, replayed := |entries|, false;
        entries := entries
          + [Ledger.Entry(agent, Ledger.DomainRegister, price, Ledger.DomainKey(key), Ledger.Reserved, at)];
        calls := calls[me := Inserting(agent, name, price, id)];
      }
    }

    /** The unique name decides the race: False stands for the IntegrityError. */
    method InsertRow(me: nat, agent: string, name: string, price: nat, id: nat) returns (won: bool)
      requires At(me, Inserting(agent, name, price, id))
      modifies this`rows, this`calls, this`trace
      ensures Now() == Apply(old(Now()), Take(me, Insert))
      ensures At(me, if won then Calling(name, Row(agent, true, Registering, price, Some(id), ""), id) else Losing(id))
      ensures won <==> name !in old(rows)
      ensures rows == if won then old(rows)[name := Row(agent, true, Registering, price, Some(id), "")] else old(rows)
      ensures Runs.Went(StepOf(me), old(trace), trace, [Insert])
    {
      ghost var after := Note(me, Take(me, Insert));
      if name in rows {
        calls := calls[me := Losing(id)];
        return false;
      }
      var row := Row(agent, true, Registering, price, Some(id), "");
      rows := rows[name := row];
      calls := calls[me := Calling(name, row, id)];
      won := true;
    }

    method GiveReservationBack(me: nat, id: nat)
      requires At(me, Losing(id))
      modifies this`entries, this`calls, this`trace
      ensures Now() == Apply(old(Now()), Take(me, GiveBack))
      ensures At(me, Done(Lost(id))) && id < |entries| && entries[id].state == Ledger.Released
      ensures Runs.Went(StepOf(me), old(trace), trace, [GiveBack])
    {
      assert CallOk(Now(), calls[me]);
      ghost var after := Note(me, Take(me, GiveBack));
      Settle(id, false);
      calls := calls[me := Done(Lost(id))];
    }

    method CallRegister(me: nat, name: string, row: Row, id: nat, reply: Reply)
      requires At(me, Calling(name, row, id))
      modifies this`calls, this`orders, this`registers, this`trace
      ensures Now() == Apply(old(Now()), Take(me, Register(reply)))
      ensures registers == OnceMore(old(registers), name)
      ensures At(me, Rung(name, row, id, reply))
      ensures Runs.Went(StepOf(me), old(trace), trace, [Register(reply)])
    {
      hide Apply, Inv, Run, Runs.Went, OnceMore, Enabled, Rung, Ordered;
      ghost var was := Now();
      RegisterApplies(was, me, reply);
      ghost var after := Note(me, Take(me, Register(reply)));
      registers := OnceMore(registers, name);
      orders := Ordered(orders, name, reply);
      calls := calls[me := Rung(name, row, id, reply)];
      assert entries == after.entries && Now().local == after.local;
    }

    method ReleaseRefused(me: nat, name: string, row: Row, id: nat)
      requires At(me, Releasing(name, row, id))
      modifies this`entries, this`calls, this`trace
      ensures Now() == Apply(old(Now()), Take(me, Release))
      ensures At(me, Failing(name, row)) && id < |entries| && entries[id].state == Ledger.Released
      ensures Runs.Went(StepOf(me), old(trace), trace, [Release])
    {
      assert CallOk(Now(), calls[me]);
      ghost var after := Note(me, Take(me, Release));
      Settle(id, false);
      calls := calls[me := Failing(name, row)];
    }

    /** _fail */
    method Fail(me: nat, name: string, row: Row)
      requires At(me, Failing(name, row))
      modifies this`rows, this`calls, this`trace
      ensures Now() == Apply(old(Now()), Take(me, MarkFailed))
      ensures At(me, Done(Stopped)) && name in rows && rows[name].status == Failed
      ensures Runs.Went(StepOf(me), old(trace), trace, [MarkFailed])
    {
      assert CallOk(Now(), calls[me]);
      ghost var after := Note(me, Take(me, MarkFailed));
      rows := rows[name := rows[name].(status := Failed)];
      calls := calls[me := Done(Stopped)];
    }

    method SettleRegistration(me: nat, name: string, row: Row, answer: Answer, bought: bool)
      requires At(me, Applying(name, row, answer, bought))
      modifies this`entries, this`calls, this`trace
      ensures Now() == Apply(old(Now()), Take(me, SettleAnswer))
      ensures At(me, Saving(name, Answered(row, answer), bought))
      ensures row.spend.Some? && row.spend.value < |old(entries)| && entries == SettledBy(old(entries), row, answer)
        && |entries| == |old(entries)|
      ensures answer.Succeeded? ==> entries[row.spend.value].state == Ledger.Charged
      ensures answer.Rejected? ==> entries[row.spend.value].state == Ledger.Released
      ensures var saved := Answered(row, answer);
        saved == row.(status := saved.status) && AnswerGives(answer, saved.status)
      ensures Runs.Went(StepOf(me), old(trace), trace, [SettleAnswer])
    {
      hide Apply, Inv, Run, Runs.Went, Enabled, Answered, AnswerGives;
      ghost var was := Now();
      ApplyingGives(was, me);
      AnswerApplies(was, me);
      ghost var after := Note(me, Take(me, SettleAnswer));
      if answer.Succeeded? {
        Settle(row.spend.value, true);
      } else if answer.Rejected? {
        Settle(row.spend.value, false);
      }
      calls := calls[me := Saving(name, Answered(row, answer), bought)];
      assert entries == after.entries && Now().local == after.local;
    }

    method SaveStatus(me: nat, name: string, row: Row, bought: bool)
      requires At(me, Saving(name, row, bought))
      modifies this`rows, this`calls, this`trace
      ensures Now() == Apply(old(Now()), Take(me, Save))
      ensures At(me, if bought then Advancing(name, row) else SettingUp(name, row))
      ensures name in old(rows) && rows == old(rows)[name := old(rows)[name].(status := row.status)]
      ensures Runs.Went(StepOf(me), old(trace), trace, [Save])
    {
      assert CallOk(Now(), calls[me]);
      ghost var after := Note(me, Take(me, Save));
      rows := rows[name := rows[name].(status := row.status)];
      calls := calls[me := if bought then Advancing(name, row) else SettingUp(name, row)];
    }

    method SaveConfigured(me: nat, name: string, row: Row, emailId: string) returns (configured: Row)
      requires At(me, SettingUp(name, row)) && row.status == Dns
      modifies this`rows, this`calls, this`trace
      ensures Now() == Apply(old(Now()), Take(me, Configure(emailId)))
      ensures configured == row.(status := Verifying, emailId := emailId) && At(me, Checking(name, configured))
      ensures name in old(rows) && rows == old(rows)[name := old(rows)[name].(status := Verifying, emailId := emailId)]
      ensures Runs.Went(StepOf(me), old(trace), trace, [Configure(emailId)])
    {
      assert CallOk(Now(), calls[me]);
      ghost var after := Note(me, Take(me, Configure(emailId)));
      configured := row.(status := Verifying, emailId := emailId);
      rows := rows[name := rows[name].(status := Verifying, emailId := emailId)];
      calls := calls[me := Checking(name, configured)];
    }

    /** mark_verified */
    method MarkVerified(me: nat, name: string, row: Row)
      requires At(me, Finishing(name, row))
      modifies this`rows, this`calls, this`trace
      ensures Now() == Apply(old(Now()), Take(me, Finish))
      ensures At(me, Done(Returned)) && name in old(rows)
      ensures rows == if row.status != Ready then old(rows)[name := old(rows)[name].(status := Ready)] else old(rows)
      ensures Runs.Went(StepOf(me), old(trace), trace, [Finish])
    {
      assert CallOk(Now(), calls[me]);
      ghost var after := Note(me, Take(me, Finish));
      if row.status != Ready {
        rows := rows[name := rows[name].(status := Ready)];
      }
      calls := calls[me := Done(Returned)];
    }

    // ---------------------------------------------------------------- the functions of the source

    /** _apply_registration: settle the money first, then save the row. */
    method ApplyRegistration(me: nat, name: string, row: Row, answer: Answer, bought: bool, others: nat -> seq<Action>)
      returns (saved: Row)
      requires At(me, Applying(name, row, answer, bought))
      modifies this
      ensures saved == Answered(row, answer)
        && At(me, if bought then Advancing(name, saved) else SettingUp(name, saved))
      ensures saved == row.(status := saved.status) && AnswerGives(answer, saved.status)
      ensures row.spend.Some? && row.spend.value < |old(entries)| && |old(entries)| <= |entries|
      ensures answer.Succeeded? ==> entries[row.spend.value].state == Ledger.Charged
      ensures answer.Rejected? ==> entries[row.spend.value].state == Ledger.Released
      ensures Runs.Went(StepOf(me), old(trace), trace, [SettleAnswer, Save])
      ensures Quiet(others) ==>
        name in old(rows) && rows == old(rows)[name := old(rows)[name].(status := saved.status)]
        && entries == SettledBy(old(entries), row, answer) && registers == old(registers)
    {
      hide Apply, Sound, Perform, Enabled, Passes, CanTake, EffectOf, After, Quiet, Runs.Went, SettledBy, Answered,
        AnswerGives;
      SettleRegistration(me, name, row, answer, bought);
      Interfere(me, others, old(trace), [SettleAnswer]);
      ghost var mid := trace;
      saved := Answered(row, answer);
      SaveStatus(me, name, saved, bought);
      Runs.Further(StepOf(me), old(trace), mid, trace, [SettleAnswer], [Save], [SettleAnswer, Save]);
      Interfere(me, others, old(trace), [SettleAnswer, Save]);
    }

    /** The end of advance_domain: a row that is VERIFYING becomes READY once the provider says so. */
    method Verify(me: nat, name: string, row: Row, w: Replies) returns (r: Ending)
      requires At(me, Checking(name, row))
      modifies this
      ensures At(me, Done(r)) && r == (if w.verified.Some? then Returned else Stopped)
      ensures Runs.Went(StepOf(me), old(trace), trace, VerifySteps(w))
      ensures if w.verified == Some(true) then name in rows && rows[name].status == Ready else rows == old(rows)
      ensures Quiet(w.others) ==>
        name in old(rows) && rows == old(rows)[name := VerifiedRow(old(rows)[name], w)]
        && entries == old(entries) && registers == old(registers)
    {
      hide Apply, Sound, Perform, Enabled, Passes, CanTake, EffectOf, After, Quiet, Runs.Went, VerifySteps;
      ghost var mid := trace;
      HeldRow(me);
      CheckingPasses(Now(), name, row);
      StopPasses(Now(), calls[me]);
      if w.verified.None? {
        Move(me, Stop, Done(Stopped));
      } else if w.verified.value {
        Move(me, SeeVerified, Finishing(name, row));
        Interfere(me, w.others, old(trace), [SeeVerified]);
        mid := trace;
        MarkVerified(me, name, row);
      } else {
        Move(me, Return, Done(Returned));
      }
      VerifyTook(me, old(trace), mid, trace, w);
      r := if w.verified.Some? then Returned else Stopped;
    }

    /** Add the domain to the email provider and write its records, unless that is done. */
    method Prepare(me: nat, name: string, row: Row, w: Replies) returns (local: Row)
      requires At(me, SettingUp(name, row)) && (row.status == Verifying || (row.status == Dns && w.emailId.Some?))
      modifies this
      ensures At(me, Checking(name, local)) && name in old(rows)
      ensures Runs.Went(StepOf(me), old(trace), trace,
        [if row.status == Dns then Configure(w.emailId.value) else AlreadyConfigured])
      ensures Quiet(w.others) ==>
        && entries == old(entries) && registers == old(registers)
        && rows == if row.status == Dns
                   then old(rows)[name := old(rows)[name].(status := Verifying, emailId := w.emailId.value)]
                   else old(rows)
    {
      hide Apply, Sound, Perform, Enabled, Passes, CanTake, EffectOf, After, Quiet, Runs.Went;
      HeldRow(me);
      SettingUpPasses(Now(), name, row);
      local := row;
      if row.status == Dns { local := SaveConfigured(me, name, row, w.emailId.value); }
      else { Move(me, AlreadyConfigured, Checking(name, row)); }
      Interfere(me, w.others, old(trace),
        [if row.status == Dns then Configure(w.emailId.value) else AlreadyConfigured]);
    }

    /** Prepare the domain for email, then ask whether it is verified. */
    method PrepareAndVerify(me: nat, name: string, row: Row, w: Replies) returns (r: Ending)
      requires At(me, SettingUp(name, row)) && (row.status == Verifying || (row.status == Dns && w.emailId.Some?))
      modifies this
      ensures At(me, Done(r)) && (r.Returned? || r.Stopped?)
        && Runs.Went(StepOf(me), old(trace), trace, SetUpSteps(row.status, w))
      ensures Quiet(w.others) ==>
        name in old(rows) && rows == old(rows)[name := SetUpRow(old(rows)[name], row.status, w)]
        && entries == old(entries) && registers == old(registers)
    {
      hide Apply, Sound, Perform, Enabled, Passes, CanTake, EffectOf, After, Quiet, Runs.Went, SetUpSteps, VerifySteps,
        VerifiedRow;
      var local := Prepare(me, name, row, w);
      ghost var mid := trace;
      r := Verify(me, name, local, w);
      SetUpTook(me, old(trace), mid, trace, row.status, w);
    }

    /** The part of advance_domain after the registration poll. */
    method SetUp(me: nat, name: string, row: Row, w: Replies) returns (r: Ending)
      requires At(me, SettingUp(name, row))
      modifies this
      ensures At(me, Done(r)) && (r.Returned? || r.Stopped?)
        && Runs.Went(StepOf(me), old(trace), trace, SetUpSteps(row.status, w))
      ensures Quiet(w.others) ==>
        name in old(rows) && rows == old(rows)[name := SetUpRow(old(rows)[name], row.status, w)]
        && entries == old(entries) && registers == old(registers)
    {
      hide Apply, Sound, Perform, Enabled, Passes, CanTake, EffectOf, After, Quiet, Runs.Went, VerifySteps, VerifiedRow;
      HeldRow(me);
      if row.status == Verifying || (row.status == Dns && w.emailId.Some?) {
        r := PrepareAndVerify(me, name, row, w);
      } else if row.status == Dns {
        StopPasses(Now(), calls[me]);
        Move(me, Stop, Done(Stopped));
        r := Stopped;
      } else {
        SettingUpPasses(Now(), name, row);
        Move(me, Return, Done(Returned));
        r := Returned;
      }
    }

    /** The poll of a registration, and what its answer does. */
    method PollRegistration(me: nat, name: string, row: Row, answer: Answer, w: Replies) returns (saved: Row)
      requires At(me, Advancing(name, row)) && row.status == Registering && Truthful(Now().local, name, answer)
      modifies this
      ensures saved == Answered(row, answer) && At(me, SettingUp(name, saved))
      ensures Runs.Went(StepOf(me), old(trace), trace, [Poll(answer), SettleAnswer, Save])
      ensures row.spend.Some? && row.spend.value < |old(entries)| <= |entries|
      ensures answer.Succeeded? ==> entries[row.spend.value].state == Ledger.Charged
      ensures answer.Rejected? ==> entries[row.spend.value].state == Ledger.Released
      ensures Quiet(w.others) ==>
        name in old(rows) && rows == old(rows)[name := old(rows)[name].(status := saved.status)]
        && entries == SettledBy(old(entries), row, answer) && registers == old(registers)
    {
      hide Apply, Sound, Perform, Enabled, Passes, CanTake, EffectOf, After, Quiet, Runs.Went, SettledBy, Truthful;
      HeldRow(me);
      AdvancingPasses(Now(), name, row, answer);
      Move(me, Poll(answer), Applying(name, row, answer, false));
      HeldRow(me);
      Interfere(me, w.others, old(trace), [Poll(answer)]);
      ghost var mid := trace;
      saved := ApplyRegistration(me, name, row, answer, false, w.others);
      Runs.Further(StepOf(me), old(trace), mid, trace, [Poll(answer)], [SettleAnswer, Save],
        [Poll(answer), SettleAnswer, Save]);
    }

    /** advance_domain. The registrar's reply to a poll is what it truthfully can say then. */
    method AdvanceDomain(me: nat, name: string, row: Row, w: Replies) returns (r: Ending)
      requires At(me, Advancing(name, row))
      modifies this
      ensures At(me, Done(r)) && (r.Returned? || r.Stopped?)
      ensures var answer := Heard(old(Now()).local, name, w);
        && Runs.Went(StepOf(me), old(trace), trace, AdvanceSteps(row, answer, w))
        && (Quiet(w.others) ==>
             && name in old(rows) && rows == old(rows)[name := AdvancedRow(old(rows)[name], row, answer, w)]
             && Becomes(old(rows)[name], rows[name], row.status, answer, w)
             && registers == old(registers)
             && (row.status == Registering && answer.Some? ==> row.spend.Some? && row.spend.value < |old(entries)|)
             && entries == if row.status == Registering && answer.Some? then SettledBy(old(entries), row, answer.value)
               else old(entries))
    {
      hide Apply, Sound, Perform, Enabled, Passes, CanTake, EffectOf, After, Quiet, Runs.Went, AdvanceSteps,
        SetUpSteps, SetUpRow, SettledBy, Becomes;
      HeldRow(me);
      AdvancedBecomes(rows[name], row, Heard(Now().local, name, w), w);
      StopPasses(Now(), calls[me]);
      AdvancingPasses(Now(), name, row, InProgress);
      ghost var mid := trace;
      var answer, local := Heard(Now().local, name, w), row;
      if row.status == Registering && answer.None? {
        Move(me, Stop, Done(Stopped));
        r := Stopped;
      } else {
        if row.status == Registering {
          local := PollRegistration(me, name, row, answer.value, w);
        } else {
          Move(me, SkipPoll, SettingUp(name, row));
          Interfere(me, w.others, old(trace), [SkipPoll]);
        }
        mid := trace;
        r := SetUp(me, name, local, w);
      }
      AdvanceTook(me, old(trace), mid, trace, row, answer, w);
    }

    /** The registrar surely did not register: release the money, then mark the row. */
    method GiveUp(me: nat, name: string, row: Row, id: nat, w: Replies)
      requires At(me, Releasing(name, row, id))
      modifies this
      ensures At(me, Done(Stopped)) && name in rows && rows[name].status == Failed
      ensures id < |entries| && entries[id].state == Ledger.Released
      ensures Runs.Went(StepOf(me), old(trace), trace, [Release, MarkFailed])
      ensures Quiet(w.others) ==> registers == old(registers)
    {
      hide Apply, Sound, Perform, Enabled, Passes, CanTake, EffectOf, After, Quiet, Runs.Went;
      ReleaseRefused(me, name, row, id);
      Interfere(me, w.others, old(trace), [Release]);
      ghost var mid := trace;
      Fail(me, name, row);
      Runs.Further(StepOf(me), old(trace), mid, trace, [Release], [MarkFailed], [Release, MarkFailed]);
    }

    /** The answer of the registrar to the call that registered: apply it, then go on as advance_domain. */
    method TakeAnswer(me: nat, name: string, row: Row, answer: Answer, w: Replies)
      returns (r: Ending, ghost mid: seq<Action>, ghost heard: Option<Answer>)
      requires At(me, Applying(name, row, answer, true))
      modifies this
      ensures At(me, Done(r)) && !r.Lost?
      ensures Runs.Went(StepOf(me), old(trace), mid, [SettleAnswer, Save])
      ensures Runs.Went(StepOf(me), mid, trace, AdvanceSteps(Answered(row, answer), heard, w))
      ensures AnswerGives(answer, Answered(row, answer).status)
      ensures Quiet(w.others) ==> registers == old(registers)
      ensures Quiet(w.others) ==> name in old(rows) && name in rows && var said := Answered(row, answer).status;
        Becomes(old(rows)[name].(status := said), rows[name], said, heard, w)
    {
      hide Apply, Sound, Perform, Enabled, Passes, CanTake, EffectOf, After, Quiet, Runs.Went, AdvanceSteps,
        AdvancedRow, SettledBy, Heard, Becomes, Answered, AnswerGives;
      var saved := ApplyRegistration(me, name, row, answer, true, w.others);
      mid, heard := trace, Heard(Now().local, name, w);
      r := AdvanceDomain(me, name, saved, w);
    }

    /** The end of buy_domain: call the registrar for the row this call has just inserted. */
    method CallRegistrar(me: nat, name: string, row: Row, id: nat, w: Replies)
      returns (r: Ending, ghost heard: Option<Answer>)
      requires At(me, Calling(name, row, id))
      modifies this
      ensures At(me, Done(r)) && !r.Lost? && Runs.Went(StepOf(me), old(trace), trace, RegisterSteps(row, heard, w))
      ensures w.register == Refusal ==>
        name in rows && rows[name].status == Failed && id < |entries| && entries[id].state == Ledger.Released
      ensures w.register.NoReply? ==> r == Returned && rows == old(rows) && entries == old(entries)
      ensures w.register.Replied? && Quiet(w.others) ==>
        name in old(rows) && name in rows && var said := Answered(row, w.register.answer).status;
          AnswerGives(w.register.answer, said)
            && Becomes(old(rows)[name].(status := said), rows[name], said, heard, w)
      ensures Quiet(w.others) ==> registers == OnceMore(old(registers), name)
    {
      hide Apply, Sound, Perform, Enabled, Passes, CanTake, EffectOf, After, Quiet, Runs.Went, AdvanceSteps,
        AdvancedRow, SettledBy, Heard, RegisterSteps;
      heard := None;
      CallRegister(me, name, row, id, w.register);
      ghost var asked, mid := trace, trace;
      if w.register.NoReply? {
        r := Returned;
      } else {
        Interfere(me, w.others, old(trace), [Register(w.register)]);
        asked := trace;
        if w.register.Refusal? {
          GiveUp(me, name, row, id, w);
          r := Stopped;
        } else {
          r, mid, heard := TakeAnswer(me, name, row, w.register.answer, w);
        }
      }
      RegisterTook(me, old(trace), asked, mid, trace, row, heard, w);
    }

    /** Advance the row that holds the replayed entry. */
    method AdvanceFound(me: nat, id: nat, name: string, w: Replies) returns (r: Ending, ghost heard: Option<Answer>)
      requires At(me, Replaying(id)) && name in rows && rows[name].spend == Some(id)
      modifies this
      ensures At(me, Done(r)) && (r.Returned? || r.Stopped?)
      ensures Runs.Went(StepOf(me), old(trace), trace, PurchaseSteps(Recalled(Some((name, old(rows)[name])), heard), w))
      ensures Quiet(w.others) ==> registers == old(registers)
    {
      hide Apply, Sound, Perform, Enabled, Passes, CanTake, EffectOf, After, Quiet, Runs.Went, AdvanceSteps,
        AdvancedRow, SettledBy, Heard;
      var row := rows[name];
      RecallPasses(Now(), id, Some(name));
      Move(me, Recall(Some(name)), Advancing(name, row));
      Interfere(me, w.others, old(trace), [Recall(Some(name))]);
      ghost var mid := trace;
      heard := Heard(Now().local, name, w);
      r := AdvanceDomain(me, name, row, w);
      ghost var all := PurchaseSteps(Recalled(Some((name, row)), heard), w);
      Runs.Further(StepOf(me), old(trace), mid, trace, [Recall(Some(name))], AdvanceSteps(row, heard, w), all);
    }

    /** The replay branch of buy_domain: the purchase is the row that holds the replayed entry. */
    method FindPurchase(me: nat, id: nat, w: Replies) returns (r: Ending, ghost seen: Seen)
      requires At(me, Replaying(id))
      modifies this
      ensures At(me, Done(r)) && !r.Lost? && seen.Recalled?
        && Runs.Went(StepOf(me), old(trace), trace, PurchaseSteps(seen, w))
      ensures r.Conflicted? <==> forall n :: n in old(rows) ==> old(rows)[n].spend != Some(id)
      ensures r.Conflicted? <==> seen.found.None?
      ensures r.Conflicted? ==> rows == old(rows) && entries == old(entries) && registers == old(registers)
      ensures seen.found.Some? ==>
        && seen.found.value.0 in old(rows) && seen.found.value.1 == old(rows)[seen.found.value.0]
        && seen.found.value.1.spend == Some(id)
      ensures Quiet(w.others) ==> registers == old(registers)
    {
      hide Apply, Sound, Perform, Enabled, Passes, CanTake, EffectOf, After, Quiet, Runs.Went, AdvanceSteps,
        AdvancedRow, SettledBy, Heard;
      if name :| name in rows && rows[name].spend == Some(id) {
        ghost var row, heard := rows[name], None;
        r, heard := AdvanceFound(me, id, name, w);
        seen := Recalled(Some((name, row)), heard);
      } else {
        RecallPasses(Now(), id, None);
        Move(me, Recall(None), Done(Conflicted));
        r, seen := Conflicted, Recalled(None, None);
      }
    }

    /** The insert of buy_domain: the winner calls the registrar, the loser gives its reservation back. */
    method Claim(me: nat, agent: string, name: string, price: nat, id: nat, w: Replies)
      returns (r: Ending, ghost seen: Seen)
      requires At(me, Inserting(agent, name, price, id))
      modifies this
      ensures At(me, Done(r)) && Runs.Went(StepOf(me), old(trace), trace, PurchaseSteps(seen, w))
      ensures (seen.Won? || seen.Beaten?) && (seen.Won? <==> name !in old(rows)) && (r.Lost? <==> seen.Beaten?)
      ensures seen.Won? ==> seen.row == Row(agent, true, Registering, price, Some(id), "")
      ensures r.Lost? ==> r.id < |entries| && entries[r.id].state == Ledger.Released
      ensures Quiet(w.others) ==>
        registers == if name !in old(rows) then OnceMore(old(registers), name) else old(registers)
    {
      hide Apply, Sound, Perform, Enabled, Passes, CanTake, EffectOf, After, Quiet, Runs.Went, RegisterSteps;
      var won := InsertRow(me, agent, name, price, id);
      Interfere(me, w.others, old(trace), [Insert]);
      ghost var mid := trace;
      if won {
        var row := Row(agent, true, Registering, price, Some(id), "");
        ghost var heard;
        r, heard := CallRegistrar(me, name, row, id, w);
        seen := Won(row, heard);
        Runs.Further(StepOf(me), old(trace), mid, trace, [Insert], RegisterSteps(row, heard, w),
          PurchaseSteps(seen, w));
      } else {
        GiveReservationBack(me, id);
        r, seen := Lost(id), Beaten;
        Runs.Further(StepOf(me), old(trace), mid, trace, [Insert], [GiveBack], PurchaseSteps(seen, w));
      }
    }

    /** The middle of buy_domain: reserve the price, then insert the row that makes the name ours. */
    method Purchase(me: nat, agent: string, name: string, key: string, price: nat, w: Replies)
      returns (r: Ending, ghost mid: seq<Action>, ghost seen: Seen)
      requires At(me, Reserving(agent, name, key, price))
      modifies this
      ensures At(me, Done(r))
      ensures Runs.Went(StepOf(me), old(trace), mid, [Reserve(w.at)])
        && Runs.Went(StepOf(me), mid, trace, PurchaseSteps(seen, w))
      ensures !seen.Foreign? && !seen.Mine?
      ensures seen.Won? || seen.Beaten? <==> Ledger.Find(old(entries), agent, Ledger.DomainKey(key)).None?
      ensures r.Lost? ==> r.id < |entries| && entries[r.id].state == Ledger.Released
      ensures Quiet(w.others) ==>
        registers == if name !in old(rows) && Ledger.Find(old(entries), agent, Ledger.DomainKey(key)).None?
                     then OnceMore(old(registers), name) else old(registers)
    {
      hide Apply, Sound, Perform, Enabled, Passes, CanTake, EffectOf, After, Quiet, Runs.Went, PurchaseSteps,
        Ledger.Find;
      var id, replayed := ReserveMoney(me, agent, name, key, price, w.at);
      mid := trace;
      if calls[me].Done? {
        r, seen := Stopped, OtherKind;
        NothingBought(me, trace, w);
      } else {
        Interfere(me, w.others, old(trace), [Reserve(w.at)]);
        mid := trace;
        if replayed { r, seen := FindPurchase(me, id, w); }
        else { r, seen := Claim(me, agent, name, price, id, w); }
      }
    }

    /** buy_domain for a name that is not managed yet: quote, then purchase. */
    method BuyNew(me: nat, agent: string, name: string, key: string, w: Replies) returns (r: Ending, ghost seen: Seen)
      requires At(me, Quoting(agent, name, key))
      modifies this
      ensures At(me, Done(r)) && Runs.Went(StepOf(me), old(trace), trace, NewSteps(seen, w)) && !seen.Foreign?
        && !seen.Mine?
      ensures r.Lost? ==> r.id < |entries| && entries[r.id].state == Ledger.Released
      ensures Quiet(w.others) ==>
        registers == if name !in old(rows) && w.quote.Some?
          && Ledger.Find(old(entries), agent, Ledger.DomainKey(key)).None?
                     then OnceMore(old(registers), name) else old(registers)
    {
      hide Apply, Sound, Perform, Enabled, Passes, CanTake, EffectOf, After, Quiet, Runs.Went, PurchaseSteps, NewSteps,
        Ledger.Find;
      StopPasses(Now(), calls[me]);
      ghost var quoted, reserved := trace, trace;
      if w.quote.None? {
        Move(me, Stop, Done(Stopped));
        r, seen := Stopped, OtherKind;
      } else {
        LookPasses(Now(), agent, name, key, w.quote.value);
        Move(me, Quote(w.quote.value), Reserving(agent, name, key, w.quote.value));
        Interfere(me, w.others, old(trace), [Quote(w.quote.value)]);
        quoted := trace;
        r, reserved, seen := Purchase(me, agent, name, key, w.quote.value, w);
      }
      NewTook(me, old(trace), quoted, reserved, trace, seen, w);
    }

    /**
    buy_domain. Ending with Lost(id) means another call got the name first, and the
    reservation `id` made by this one is released. Undisturbed it calls the registrar exactly
    when the name is not managed yet, is offered, and the key is new, and then once.
    */
    method BuyDomain(me: nat, agent: string, name: string, key: string, w: Replies)
      returns (r: Ending, ghost seen: Seen)
      requires me !in calls && Sound()
      modifies this
      ensures At(me, Done(r))
        && Runs.Went(StepOf(me), old(trace) + [Begin(me, Buy(agent, name, key))], trace, BuySteps(seen, w))
      ensures r.Lost? ==> r.id < |entries| && entries[r.id].state == Ledger.Released
      ensures Quiet(w.others) && name in old(rows) && old(rows)[name].owner != agent ==>
        r == Conflicted && rows == old(rows) && entries == old(entries)
      ensures Quiet(w.others) && name in old(rows) && old(rows)[name].owner == agent ==>
        seen.Mine? && name in rows && Becomes(old(rows)[name], rows[name], old(rows)[name].status, seen.heard, w)
      ensures Quiet(w.others) ==>
        registers == if name !in old(rows) && w.quote.Some?
          && Ledger.Find(old(entries), agent, Ledger.DomainKey(key)).None?
                     then OnceMore(old(registers), name) else old(registers)
    {
      hide Apply, Sound, Perform, Enabled, Passes, CanTake, EffectOf, After, Quiet, Runs.Went, AdvanceSteps,
        AdvancedRow, SettledBy, Heard, NewSteps, BuySteps, Becomes, Ledger.Find;
      Start(me, agent, name, key);
      ghost var begun := trace;
      Runs.WentNowhere(StepOf(me), begun);
      Interfere(me, w.others, begun, []);
      r, seen := LookUp(me, agent, name, key, w, begun);
    }

    /** buy_domain from its look at the rows on. */
    method LookUp(me: nat, agent: string, name: string, key: string, w: Replies, ghost begun: seq<Action>)
      returns (r: Ending, ghost seen: Seen)
      requires At(me, Looking(agent, name, key)) && Runs.Went(StepOf(me), begun, trace, [])
      modifies this
      ensures At(me, Done(r)) && Runs.Went(StepOf(me), begun, trace, BuySteps(seen, w))
      ensures r.Lost? ==> r.id < |entries| && entries[r.id].state == Ledger.Released
      ensures Quiet(w.others) && name in old(rows) && old(rows)[name].owner != agent ==>
        r == Conflicted && rows == old(rows) && entries == old(entries)
      ensures Quiet(w.others) && name in old(rows) && old(rows)[name].owner == agent ==>
        seen.Mine? && name in rows && Becomes(old(rows)[name], rows[name], old(rows)[name].status, seen.heard, w)
      ensures Quiet(w.others) ==>
        registers == if name !in old(rows) && w.quote.Some?
          && Ledger.Find(old(entries), agent, Ledger.DomainKey(key)).None?
                     then OnceMore(old(registers), name) else old(registers)
    {
      hide Apply, Sound, Perform, Enabled, Passes, CanTake, EffectOf, After, Quiet, Runs.Went, AdvanceSteps,
        AdvancedRow, SettledBy, Heard, NewSteps, BuySteps, Becomes, Ledger.Find;
      LookPasses(Now(), agent, name, key, 0);
      ghost var was := trace;
      if name in rows && rows[name].owner != agent {
        Move(me, Look, Done(Conflicted));
        Runs.Further(StepOf(me), begun, was, trace, [], [Look], [Look]);
        was := trace;
        r, seen := Conflicted, Foreign;
      } else if name in rows {
        var row := rows[name];
        Move(me, Look, Advancing(name, row));
        Runs.Further(StepOf(me), begun, was, trace, [], [Look], [Look]);
        Interfere(me, w.others, begun, [Look]);
        was := trace;
        seen := Mine(row, Heard(Now().local, name, w));
        r := AdvanceDomain(me, name, row, w);
      } else {
        Move(me, Look, Quoting(agent, name, key));
        Runs.Further(StepOf(me), begun, was, trace, [], [Look], [Look]);
        Interfere(me, w.others, begun, [Look]);
        was := trace;
        r, seen := BuyNew(me, agent, name, key, w);
      }
      BuyTook(me, begun, was, trace, seen, w);
    }
  }
}
