/**
The code of sms.py's sending half and of email.py's `approve` for texts. Every
database write and provider call is one method, which changes the rows in place and
takes exactly one step of the `Sms` machine; between two steps other calls may take
any number of theirs.
*/
module SmsCode {
  import opened Wrappers
  import Runs
  import Ledger
  import opened Sms

  /** The prices, times and provider replies this call meets, and what the others do at its pauses. */
  datatype Replies = Replies(cents: nat, mayReserve: bool, at: Ledger.Moment, reply: Reply, others: nat -> seq<Action>)

  /** How a delivery ends, by the replies it gets. */
  function EndOf(w: Replies): Ending {
    if !w.mayReserve then Stopped
    else if w.reply.NoReply? then Unknown
    else if w.reply.Accepted? then Delivered
    else Undelivered
  }

  function Settling(reply: Reply): seq<Step> {
    if reply.NoReply? then [] else if reply.Accepted? then [Charge, MarkSent] else [Refund, MarkFailed]
  }

  /** The steps of a delivery. */
  function Delivery(w: Replies): seq<Step> {
    if w.mayReserve then [Reserve(w.cents, w.at), CallProvider(w.reply)] + Settling(w.reply) else [Stop]
  }

  /** Where the provider's reply leaves the call. */
  function Answered(m: nat, id: nat, reply: Reply): Pc {
    if reply.Refusal? then Refunding(m, id) else if reply.NoReply? then Done(Unknown) else Charging(m, id)
  }

  // ------------------------------------------------------------------ which steps a call has taken

  function StepOf(me: nat): Action -> Option<Step> {
    (a: Action) => if a.Take? && a.call == me then Some(a.step) else None
  }

  lemma {:induction false} OneStep(trace: seq<Action>, s: State, a: Action, me: nat)
    requires Run(trace) == Some(s) && Base(s) && Enabled(s, a)
    ensures Run(trace + [a]) == Some(Apply(s, a)) && Base(Apply(s, a))
    ensures Runs.Went(StepOf(me), trace, trace + [a], if a.Take? && a.call == me then [a.step] else [])
  {
    BaseStep(s, a);
    Runs.Extend(Next, Ledger.World([], Empty()), trace, a);
    Runs.WentOne(StepOf(me), trace, a);
  }

  /** The steps of a delivery, put together. */
  lemma {:induction false} DeliveryTook(me: nat, a: seq<Action>, b: seq<Action>, c: seq<Action>, d: seq<Action>,
      w: Replies)
    requires !w.mayReserve ==> Runs.Went(StepOf(me), a, d, [Stop])
    requires w.mayReserve ==>
      && Runs.Went(StepOf(me), a, b, [Reserve(w.cents, w.at)])
      && Runs.Went(StepOf(me), b, c, [CallProvider(w.reply)])
      && if w.reply.NoReply? then c == d else Runs.Went(StepOf(me), c, d, Settling(w.reply))
    ensures Runs.Went(StepOf(me), a, d, Delivery(w))
  {
    if w.mayReserve {
      if w.reply.NoReply? { Runs.WentNowhere(StepOf(me), c); }
      Runs.Further(StepOf(me), a, b, c, [Reserve(w.cents, w.at)], [CallProvider(w.reply)],
        [Reserve(w.cents, w.at), CallProvider(w.reply)]);
      Runs.Further(StepOf(me), a, c, d, [Reserve(w.cents, w.at), CallProvider(w.reply)], Settling(w.reply),
        Delivery(w));
    }
  }

  // ------------------------------------------------------------------ what the steps do

  lemma {:induction false} ReserveApplies(s: State, c: nat, amount: nat, at: Ledger.Moment)
    requires Base(s) && c in s.local.calls && s.local.calls[c].Reserving?
    ensures var m, a := s.local.calls[c].message, Take(c, Reserve(amount, at));
      && m < |s.local.messages| && Enabled(s, a)
      && var agent := s.local.messages[m].agent;
      && var found := Ledger.Find(s.entries, agent, Ledger.SmsKey(m));
      && var id := if found.Some? then found.value else |s.entries|;
      && var entry := Ledger.Entry(agent, Ledger.SmsMessage, amount, Ledger.SmsKey(m), Ledger.Reserved, at);
      Apply(s, a) == Ledger.World(if found.Some? then s.entries else s.entries + [entry],
                                  s.local.(paid := s.local.paid[m := id],
                                    calls := s.local.calls[c := Sending(m, id, amount)]))
  {
    assert CallTyped(s, s.local.calls[c]);
    var found := Ledger.Find(s.entries, s.local.messages[s.local.calls[c].message].agent,
      Ledger.SmsKey(s.local.calls[c].message));
    assert found.Some? ==> Ledger.Typed(s.entries[found.value]);
    hide Base;
  }

  lemma {:induction false} SendApplies(s: State, c: nat, reply: Reply)
    requires c in s.local.calls && s.local.calls[c].Sending?
    ensures var pc, d, a := s.local.calls[c], s.local, Take(c, CallProvider(reply));
      && Enabled(s, a)
      && Apply(s, a) == s.(local := d.(calls := d.calls[c := Answered(pc.message, pc.id, reply)],
           sends := d.sends[pc.message := Sends(d, pc.message) + 1],
           accepted := if reply.Accepted? || (reply.NoReply? && reply.accepted) then d.accepted[pc.message := pc.price]
             else d.accepted))
  {
  }

  /** With approvals one at a time the call that settles finds its entry reserved. */
  lemma {:induction false} EntryIsReserved(trace: seq<Action>, c: nat)
    requires Run(trace).Some? && OneApprovalThroughout(trace) && c in Run(trace).value.local.calls
    requires Run(trace).value.local.calls[c].Refunding? || Run(trace).value.local.calls[c].Charging?
    ensures var s := Run(trace).value;
      s.local.calls[c].id < |s.entries| && s.entries[s.local.calls[c].id].state == Ledger.Reserved
  {
    RunKeepsInv(trace);
    assert CallOk(Run(trace).value, Run(trace).value.local.calls[c]);
  }

  class SmsService {
    var entries: Ledger.Entries
    var messages: seq<Message>
    var calls: map<nat, Pc>
    var paid: map<nat, nat>
    var sends: map<nat, nat>
    var accepted: map<nat, nat>
    var pauses: nat
    /** All actions so far, of every call. */
    ghost var trace: seq<Action>

    constructor ()
      ensures Now() == Ledger.World([], Empty()) && Sound()
    {
      entries, messages, calls, paid, sends, accepted, pauses := [], [], map[], map[], map[], map[], 0;
      trace := [];
    }

    function Now(): State
      reads this
    {
      Ledger.World(entries, Desk(messages, calls, paid, sends, accepted))
    }

    /** The tables are those of a run of the protocol. */
    ghost predicate Sound()
      reads this
    {
      Run(trace) == Some(Now()) && Base(Now())
    }

    ghost predicate At(me: nat, pc: Pc)
      reads this
    {
      me in calls && calls[me] == pc && Sound()
    }

    /** The run goes on by one action; the code then brings the tables there. */
    ghost method Note(me: nat, a: Action) returns (after: State)
      requires Sound() && Enabled(Now(), a)
      modifies this`trace
      ensures after == Apply(Now(), a) && Run(trace) == Some(after) && Base(after) && trace == old(trace) + [a]
      ensures Runs.Went(StepOf(me), old(trace), trace, if a.Take? && a.call == me then [a.step] else [])
    {
      OneStep(trace, Now(), a, me);
      after := Apply(Now(), a);
      trace := trace + [a];
    }

    lemma HasRow(me: nat)
      requires me in calls && Sound() && !calls[me].Creating? && !calls[me].Done?
      ensures calls[me].message < |messages|
      ensures calls[me].Refunding? || calls[me].Charging? ==> calls[me].id < |entries|
    {
      assert CallTyped(Now(), calls[me]);
    }

    // ---------------------------------------------------------------- other calls

    method Follow(me: nat, a: Action)
      requires me in calls && Sound() && Enabled(Now(), a) && a.call != me
      modifies this
      ensures Now() == Apply(old(Now()), a) && pauses == old(pauses)
      ensures At(me, old(calls[me])) && Runs.Went(StepOf(me), old(trace), trace, [])
    {
      hide Apply, Base, Run, Runs.Went;
      OthersLeaveMe(Now(), a, me);
      ghost var noted := Note(me, a);
      var after := Apply(Now(), a);
      entries, messages, calls := after.entries, after.local.messages, after.local.calls;
      paid, sends, accepted := after.local.paid, after.local.sends, after.local.accepted;
    }

    /** Other calls move; this call has taken `steps` since `before`. */
    method Interfere(me: nat, others: nat -> seq<Action>, ghost before: seq<Action>, ghost steps: seq<Step>)
      requires me in calls && Sound() && Runs.Went(StepOf(me), before, trace, steps)
      modifies this
      ensures At(me, old(calls[me])) && Runs.Went(StepOf(me), before, trace, steps)
    {
      hide Runs.Went, Run, Base, Apply;
      var batch := others(pauses);
      pauses := pauses + 1;
      for k := 0 to |batch|
        invariant At(me, old(calls[me])) && Runs.Went(StepOf(me), before, trace, steps)
      {
        if Enabled(Now(), batch[k]) && batch[k].call != me {
          ghost var mid := trace;
          Follow(me, batch[k]);
          Runs.Further(StepOf(me), before, mid, trace, steps, [], steps);
        }
      }
    }

    // ---------------------------------------------------------------- one write each

    /** The insert of send_sms: an IntegrityError finds the row of the same (endpoint, key). */
    method CreateRow(me: nat, agent: string, endpoint: string, to: string, body: string, key: string, approval: bool)
      returns (m: nat, r: Option<Ending>)
      requires At(me, Creating(agent, endpoint, to, body, key, approval))
      modifies this`messages, this`calls, this`trace
      ensures Now() == Apply(old(Now()), Take(me, Create))
      ensures At(me, if r.Some? then Done(r.value) else Reserving(m))
      ensures m < |messages| && messages[m].endpoint == endpoint && messages[m].key == key
      ensures r == Some(KeyReused) || (messages[m].body == body && messages[m].to == to)
      ensures r.None? ==> m == |old(messages)| && !approval
      ensures old(Lookup(messages, endpoint, key)).None? ==>
        && r == (if approval then Some(Held(old(|messages|))) else None)
        && messages == old(messages)
          + [Message(agent, endpoint, to, body, key, if approval then PendingApproval else Queued)]
      ensures r.Some? && r.value != KeyReused ==> r.value == Found(m) || (approval && r.value == Held(m))
      ensures var found := old(Lookup(messages, endpoint, key)); found.Some? ==>
        m == found.value && messages == old(messages) && (r == Some(Found(m)) || r == Some(KeyReused))
        && (r == Some(KeyReused) <==> messages[m].body != body || messages[m].to != to)
      ensures Runs.Went(StepOf(me), old(trace), trace, [Create])
    {
      hide Base, Run, Runs.Went;
      ghost var noted := Note(me, Take(me, Create));
      var found := Lookup(messages, endpoint, key);
      if found.Some? {
        m := found.value;
        r := Some(if messages[m].body != body || messages[m].to != to then KeyReused else Found(m));
        calls := calls[me := Done(r.value)];
      } else {
        m := |messages|;
        messages := messages + [Message(agent, endpoint, to, body, key, if approval then PendingApproval else Queued)];
        r := if approval then Some(Held(m)) else None;
        calls := calls[me := if approval then Done(Held(m)) else Reserving(m)];
      }
      assert Now() == noted;
    }

    method SaveApproval(me: nat, m: nat, approve: bool)
      requires At(me, Approving(m, approve))
      modifies this`messages, this`calls, this`trace
      ensures Now() == Apply(old(Now()), Take(me, SaveDecision))
      ensures At(me, if approve then Reserving(m) else Done(Stopped))
      ensures m < |messages|
        && messages == old(messages)[m := old(messages)[m].(status := if approve then Queued else Rejected)]
      ensures Runs.Went(StepOf(me), old(trace), trace, [SaveDecision])
    {
      hide Base, Run, Runs.Went;
      HasRow(me);
      ghost var noted := Note(me, Take(me, SaveDecision));
      messages := messages[m := messages[m].(status := if approve then Queued else Rejected)];
      calls := calls[me := if approve then Reserving(m) else Done(Stopped)];
      assert Now() == noted;
    }

    /**
    policy.reserve under the key "sms:<row>", which returns the entry of an earlier delivery of the row if there is
    one.
    */
    method ReserveMoney(me: nat, m: nat, cents: nat, at: Ledger.Moment) returns (id: nat)
      requires At(me, Reserving(m))
      modifies this`entries, this`paid, this`calls, this`trace
      ensures Now() == Apply(old(Now()), Take(me, Reserve(cents, at)))
      ensures At(me, Sending(m, id, cents)) && m < |messages|
      ensures var found := Ledger.Find(old(entries), messages[m].agent, Ledger.SmsKey(m));
        var held := Ledger.Entry(messages[m].agent, Ledger.SmsMessage, cents, Ledger.SmsKey(m), Ledger.Reserved, at);
        if found.Some? then id == found.value && entries == old(entries)
        else id == |old(entries)| && entries == old(entries) + [held]
      ensures Runs.Went(StepOf(me), old(trace), trace, [Reserve(cents, at)])
    {
      hide Apply, Base, Run, Runs.Went, Enabled;
      ghost var was := Now();
      ReserveApplies(was, me, cents, at);
      ghost var noted := Note(me, Take(me, Reserve(cents, at)));
      var found := Ledger.Find(entries, messages[m].agent, Ledger.SmsKey(m));
      if found.Some? {
        id := found.value;
      } else {
        id := |entries|;
        entries := entries
          + [Ledger.Entry(messages[m].agent, Ledger.SmsMessage, cents, Ledger.SmsKey(m), Ledger.Reserved, at)];
      }
      paid := paid[m := id];
      calls := calls[me := Sending(m, id, cents)];
      assert entries == noted.entries && Now().local == noted.local;
    }

    method ProviderSend(me: nat, m: nat, id: nat, price: nat, reply: Reply)
      requires At(me, Sending(m, id, price))
      modifies this`sends, this`accepted, this`calls, this`trace
      ensures Now() == Apply(old(Now()), Take(me, CallProvider(reply)))
      ensures At(me, Answered(m, id, reply))
      ensures Sends(Now().local, m) == Sends(old(Now()).local, m) + 1
      ensures accepted == if reply.Accepted? || (reply.NoReply? && reply.accepted) then old(accepted)[m := price]
                          else old(accepted)
      ensures OneApprovalThroughout(trace) ==> Sends(Now().local, m) == 1
      ensures Runs.Went(StepOf(me), old(trace), trace, [CallProvider(reply)])
    {
      hide Apply, Base, Run, Runs.Went, Enabled, Answered, OneApprovalThroughout;
      ghost var was := Now();
      SendApplies(was, me, reply);
      ghost var noted := Note(me, Take(me, CallProvider(reply)));
      if OneApprovalThroughout(trace) { SentAtMostOnce(trace, m); }
      sends := sends[m := Sends(Now().local, m) + 1];
      if reply.Accepted? || (reply.NoReply? && reply.accepted) { accepted := accepted[m := price]; }
      calls := calls[me := Answered(m, id, reply)];
      assert Now().local == noted.local;
    }

    /** settle: the update only touches an entry that is still reserved, and it is if approvals do not overlap. */
    method SettleEntry(me: nat, m: nat, id: nat, charged: bool)
      requires At(me, if charged then Charging(m, id) else Refunding(m, id))
      modifies this`entries, this`calls, this`trace
      ensures Now() == Apply(old(Now()), Take(me, if charged then Charge else Refund))
      ensures At(me, if charged then MarkingSent(m) else MarkingFailed(m))
      ensures id < |old(entries)| && entries == Ledger.Settled(old(entries), id, charged)
      ensures OneApprovalThroughout(old(trace)) ==>
        id < |entries| && entries[id].state == if charged then Ledger.Charged else Ledger.Released
      ensures Runs.Went(StepOf(me), old(trace), trace, [if charged then Charge else Refund])
    {
      hide Base, Run, Runs.Went, OneApprovalThroughout;
      HasRow(me);
      if OneApprovalThroughout(trace) { EntryIsReserved(trace, me); }
      ghost var noted := Note(me, Take(me, if charged then Charge else Refund));
      if entries[id].state == Ledger.Reserved {
        entries := entries[id := entries[id].(state := if charged then Ledger.Charged else Ledger.Released)];
      }
      calls := calls[me := if charged then MarkingSent(m) else MarkingFailed(m)];
      assert Now() == noted;
    }

    method SaveOutcome(me: nat, m: nat, sent: bool)
      requires At(me, if sent then MarkingSent(m) else MarkingFailed(m))
      modifies this`messages, this`calls, this`trace
      ensures Now() == Apply(old(Now()), Take(me, if sent then MarkSent else MarkFailed))
      ensures At(me, Done(if sent then Delivered else Undelivered))
      ensures m < |messages| && messages[m].status == (if sent then Sent else Failed)
        && messages == old(messages)[m := old(messages)[m].(status := if sent then Sent else Failed)]
      ensures Runs.Went(StepOf(me), old(trace), trace, [if sent then MarkSent else MarkFailed])
    {
      hide Base, Run, Runs.Went;
      HasRow(me);
      ghost var noted := Note(me, Take(me, if sent then MarkSent else MarkFailed));
      messages := messages[m := messages[m].(status := if sent then Sent else Failed)];
      calls := calls[me := Done(if sent then Delivered else Undelivered)];
      assert Now() == noted;
    }

    method Abandon(me: nat)
      requires me in calls && Sound() && !calls[me].Done?
      modifies this`calls, this`trace
      ensures At(me, Done(Stopped)) && Now() == Apply(old(Now()), Take(me, Stop))
      ensures Runs.Went(StepOf(me), old(trace), trace, [Stop])
    {
      hide Base, Run, Runs.Went;
      ghost var noted := Note(me, Take(me, Stop));
      calls := calls[me := Done(Stopped)];
      assert Now() == noted;
    }

    // ---------------------------------------------------------------- the functions of the source

    /** The end of _deliver: settle what is known. */
    method SettleDelivery(me: nat, m: nat, id: nat, w: Replies)
      requires At(me, Answered(m, id, w.reply)) && !w.reply.NoReply?
      modifies this
      ensures At(me, Done(if w.reply.Accepted? then Delivered else Undelivered))
        && Runs.Went(StepOf(me), old(trace), trace, Settling(w.reply))
      ensures m < |messages| && messages[m].status == if w.reply.Accepted? then Sent else Failed
    {
      hide Sound, Apply, Enabled, Runs.Went, CanTake, EffectOf, After, Perform, OneApprovalThroughout;
      SettleEntry(me, m, id, w.reply.Accepted?);
      Interfere(me, w.others, old(trace), [if w.reply.Accepted? then Charge else Refund]);
      ghost var mid := trace;
      SaveOutcome(me, m, w.reply.Accepted?);
      Runs.Further(StepOf(me), old(trace), mid, trace, [if w.reply.Accepted? then Charge else Refund],
        [if w.reply.Accepted? then MarkSent else MarkFailed], Settling(w.reply));
    }

    /** _deliver: reserve, call the provider once, then settle what is known. */
    method Deliver(me: nat, m: nat, w: Replies) returns (r: Ending)
      requires At(me, Reserving(m))
      modifies this
      ensures At(me, Done(r)) && Runs.Went(StepOf(me), old(trace), trace, Delivery(w))
      ensures r == Delivered ==> w.reply.Accepted? && m < |messages| && messages[m].status == Sent
      ensures r == Undelivered ==> w.reply.Refusal? && m < |messages| && messages[m].status == Failed
      ensures r == Delivered <==> w.mayReserve && w.reply.Accepted?
      ensures r == Undelivered <==> w.mayReserve && w.reply.Refusal?
      ensures r == Unknown <==> w.mayReserve && w.reply.NoReply?
      ensures r == EndOf(w)
    {
      hide Sound, Apply, Enabled, Runs.Went, CanTake, EffectOf, After, Perform, OneApprovalThroughout, Settling,
        Delivery;
      ghost var mid, called := trace, trace;
      if w.mayReserve {
        var id := ReserveMoney(me, m, w.cents, w.at);
        Interfere(me, w.others, old(trace), [Reserve(w.cents, w.at)]);
        mid := trace;
        ProviderSend(me, m, id, w.cents, w.reply);
        called := trace;
        if !w.reply.NoReply? {
          Interfere(me, w.others, mid, [CallProvider(w.reply)]);
          called := trace;
          SettleDelivery(me, m, id, w);
        }
      } else {
        Abandon(me);
      }
      DeliveryTook(me, old(trace), mid, called, trace, w);
      r := EndOf(w);
    }

    method StartSend(me: nat, agent: string, endpoint: string, to: string, body: string, key: string, approval: bool)
      requires me !in calls && Sound()
      modifies this`calls, this`trace
      ensures At(me, Creating(agent, endpoint, to, body, key, approval))
      ensures Now() == Apply(old(Now()), Begin(me, Send(agent, endpoint, to, body, key, approval)))
      ensures trace == old(trace) + [Begin(me, Send(agent, endpoint, to, body, key, approval))]
    {
      hide Base, Run, Runs.Went;
      ghost var noted := Note(me, Begin(me, Send(agent, endpoint, to, body, key, approval)));
      calls := calls[me := Creating(agent, endpoint, to, body, key, approval)];
      assert Now() == noted;
    }

    /** The read of approve: it holds the pending message until it saves. */
    method StartApproval(me: nat, m: nat, approve: bool)
      requires me !in calls && Sound() && m < |messages| && messages[m].status == PendingApproval
      modifies this`calls, this`trace
      ensures At(me, Approving(m, approve)) && Now() == Apply(old(Now()), Begin(me, Decide(m, approve)))
      ensures trace == old(trace) + [Begin(me, Decide(m, approve))]
    {
      hide Base, Run, Runs.Went;
      ghost var noted := Note(me, Begin(me, Decide(m, approve)));
      calls := calls[me := Approving(m, approve)];
      assert Now() == noted;
    }

    /** send_sms. A replay of the key returns the first row and never sends. */
    method SendSms(me: nat, agent: string, endpoint: string, to: string, body: string, key: string, approval: bool,
        w: Replies)
      returns (r: Ending)
      requires me !in calls && Sound()
      modifies this
      ensures At(me, Done(r))
      ensures var found := old(Lookup(messages, endpoint, key)); found.Some? ==>
        && messages == old(messages) && sends == old(sends) && entries == old(entries)
        && r == if messages[found.value].body == body && messages[found.value].to == to then Found(found.value)
          else KeyReused
      ensures old(Lookup(messages, endpoint, key)).None? ==> r == if approval then Held(old(|messages|)) else EndOf(w)
      ensures Runs.Went(StepOf(me), old(trace) + [Begin(me, Send(agent, endpoint, to, body, key, approval))], trace,
        [Create] + if old(Lookup(messages, endpoint, key)).None? && !approval then Delivery(w) else [])
    {
      hide Sound, Apply, Enabled, Runs.Went, CanTake, EffectOf, After, Perform, Delivery, EndOf;
      StartSend(me, agent, endpoint, to, body, key, approval);
      ghost var begun := trace;
      var m, ended := CreateRow(me, agent, endpoint, to, body, key, approval);
      if ended.Some? {
        assert [Create] + [] == [Create];
        return ended.value;
      }
      Interfere(me, w.others, begun, [Create]);
      ghost var mid := trace;
      r := Deliver(me, m, w);
      Runs.Further(StepOf(me), begun, mid, trace, [Create], Delivery(w), [Create] + Delivery(w));
    }

    /** approve, for a text. */
    method Approve(me: nat, m: nat, approve: bool, w: Replies) returns (r: Ending)
      requires me !in calls && Sound()
      modifies this
      ensures r == NotFound <==> old(m >= |messages| || messages[m].status != PendingApproval)
      ensures if r == NotFound then Now() == old(Now()) && trace == old(trace)
        else At(me, Done(r)) && r == if approve then EndOf(w) else Stopped
      ensures r != NotFound ==>
        Runs.Went(StepOf(me), old(trace) + [Begin(me, Decide(m, approve))], trace,
          [SaveDecision] + if approve then Delivery(w) else [])
    {
      hide Sound, Apply, Enabled, Runs.Went, CanTake, EffectOf, After, Perform, Delivery;
      if m >= |messages| || messages[m].status != PendingApproval { return NotFound; }
      StartApproval(me, m, approve);
      ghost var begun := trace;
      Runs.WentNowhere(StepOf(me), begun);
      Interfere(me, w.others, begun, []);
      ghost var read := trace;
      SaveApproval(me, m, approve);
      Runs.Further(StepOf(me), begun, read, trace, [], [SaveDecision], [SaveDecision]);
      if !approve {
        assert [SaveDecision] + [] == [SaveDecision];
        return Stopped;
      }
      Interfere(me, w.others, begun, [SaveDecision]);
      ghost var mid := trace;
      r := Deliver(me, m, w);
      Runs.Further(StepOf(me), begun, mid, trace, [SaveDecision], Delivery(w), [SaveDecision] + Delivery(w));
    }
  }
}
