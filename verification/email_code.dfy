/**
The code of email.py's `send_email`, `_deliver` and `approve`. Every database write and
provider call is one method, which changes the rows in place and takes exactly one step
of the `Email` machine; between two steps other calls may take any number of theirs.
*/
module EmailCode {
  import opened Wrappers
  import Runs
  import opened Email

  /** How the provider answers this call, and what the others do at each of its pauses. */
  datatype World = World(reply: Reply, others: nat -> seq<Action>)

  function CallOf(a: Action): Option<nat> {
    match a
    case BeginSend(c, _, _) => Some(c)
    case BeginApproval(c, _, _) => Some(c)
    case Take(c, _) => Some(c)
    case Webhook(_, _) => None
  }

  lemma {:induction false} OthersLeaveMe(s: State, a: Action, c: nat)
    requires Enabled(s, a) && c in s.calls && CallOf(a) != Some(c)
    ensures c in Apply(s, a).calls && Apply(s, a).calls[c] == s.calls[c]
    ensures (c in Apply(s, a).asked <==> c in s.asked) && (c in s.asked ==> Apply(s, a).asked[c] == s.asked[c])
  {
  }

  /** How a delivery of row m ends, by the provider's reply. */
  function EndOf(m: nat, reply: Reply): Ending {
    match reply
    case Accepted => Returned(m)
    case Refusal => Undelivered(m)
    case Unreachable => Unreached(m)
    case NoReply(_) => Unknown(m)
  }

  /** Where the provider's reply leaves the call. */
  function Answered(m: nat, reply: Reply): Pc {
    if reply.Accepted? then MarkingSent(m) else if reply.Refusal? then MarkingFailed(m) else Done(EndOf(m, reply))
  }

  lemma {:induction false} SendApplies(s: State, c: nat, reply: Reply)
    requires c in s.calls && CanTake(s, s.calls[c], Send(reply))
    ensures var m := s.calls[c].message;
      var mail := MailOf(s.rows[m], m, s.calls[c].cc, s.calls[c].bcc);
      var mails := if reply.Accepted? || (reply.NoReply? && reply.accepted) then Accept(s.mails, mail) else s.mails;
      Apply(s, Take(c, Send(reply)))
        == State(s.rows, mails, s.calls[c := Answered(m, reply)], s.asked, s.called[c := m])
  {
  }

  /** The steps of a delivery. */
  function Delivery(reply: Reply): seq<Step> {
    [Send(reply)] + if reply.Accepted? then [MarkSent] else if reply.Refusal? then [MarkFailed] else []
  }

  function StepOf(me: nat): Action -> Option<Step> {
    (a: Action) => if a.Take? && a.call == me then Some(a.step) else None
  }

  lemma {:induction false} OneStep(trace: seq<Action>, s: State, a: Action, me: nat)
    requires Run(trace) == Some(s) && Inv(s) && Enabled(s, a)
    ensures Run(trace + [a]) == Some(Apply(s, a)) && Inv(Apply(s, a))
    ensures Runs.Went(StepOf(me), trace, trace + [a], if a.Take? && a.call == me then [a.step] else [])
  {
    StepKeepsInv(s, a);
    Runs.Extend(Next, Empty(), trace, a);
    Runs.WentOne(StepOf(me), trace, a);
  }

  class EmailService {
    var rows: seq<Row>
    var mails: seq<Mail>
    var calls: map<nat, Pc>
    var asked: map<nat, Request>
    var called: map<nat, nat>
    var pauses: nat
    /** All actions so far, of every call. */
    ghost var trace: seq<Action>

    constructor ()
      ensures Now() == Empty() && Sound()
    {
      rows, mails, calls, asked, called, pauses := [], [], map[], map[], map[], 0;
      trace := [];
    }

    function Now(): State
      reads this
    {
      State(rows, mails, calls, asked, called)
    }

    /** The tables are those of a run of the protocol. */
    ghost predicate Sound()
      reads this
    {
      Run(trace) == Some(Now()) && Inv(Now())
    }

    ghost predicate At(me: nat, pc: Pc)
      reads this
    {
      me in calls && calls[me] == pc && Sound()
    }

    lemma OwnRow(me: nat)
      requires me in calls && Sound() && me in asked && MessageOf(calls[me]).Some?
      ensures MessageOf(calls[me]).value < |rows| && Matches(rows[MessageOf(calls[me]).value], asked[me])
    {
      assert CallOk(Now(), me);
    }

    lemma HasRow(me: nat)
      requires me in calls && Sound()
        && (calls[me].Approving? || calls[me].Calling? || calls[me].MarkingSent? || calls[me].MarkingFailed?)
      ensures calls[me].message < |rows| && (calls[me].MarkingSent? ==> Mailed(mails, calls[me].message))
    {
      assert CallOk(Now(), me);
    }

    /** The run goes on by one action; the code then brings the tables there. */
    ghost method Note(me: nat, a: Action) returns (after: State)
      requires Sound() && Enabled(Now(), a)
      modifies this`trace
      ensures after == Apply(Now(), a) && Run(trace) == Some(after) && Inv(after) && trace == old(trace) + [a]
      ensures Runs.Went(StepOf(me), old(trace), trace, if a.Take? && a.call == me then [a.step] else [])
    {
      OneStep(trace, Now(), a, me);
      after := Apply(Now(), a);
      trace := trace + [a];
    }

    function AskedBy(me: nat): Option<Request>
      reads this`asked
    {
      if me in asked then Some(asked[me]) else None
    }

    // ---------------------------------------------------------------- other calls

    method Follow(me: nat, a: Action)
      requires me in calls && Sound() && Enabled(Now(), a) && CallOf(a) != Some(me)
      modifies this
      ensures Now() == Apply(old(Now()), a) && pauses == old(pauses)
      ensures At(me, old(calls[me])) && AskedBy(me) == old(AskedBy(me)) && Runs.Went(StepOf(me), old(trace), trace, [])
    {
      hide Apply, Inv, Run, Runs.Went;
      OthersLeaveMe(Now(), a, me);
      ghost var noted := Note(me, a);
      var after := Apply(Now(), a);
      rows, mails, calls, asked, called := after.rows, after.mails, after.calls, after.asked, after.called;
    }

    /** Other calls move; this call has taken `steps` since `before`. */
    method Interfere(me: nat, others: nat -> seq<Action>, ghost before: seq<Action>, ghost steps: seq<Step>)
      requires me in calls && Sound() && Runs.Went(StepOf(me), before, trace, steps)
      modifies this
      ensures At(me, old(calls[me])) && AskedBy(me) == old(AskedBy(me)) && Runs.Went(StepOf(me), before, trace, steps)
    {
      hide Runs.Went, Run, Inv, Apply;
      var batch := others(pauses);
      pauses := pauses + 1;
      for k := 0 to |batch|
        invariant At(me, old(calls[me])) && AskedBy(me) == old(AskedBy(me))
          && Runs.Went(StepOf(me), before, trace, steps)
      {
        if Enabled(Now(), batch[k]) && CallOf(batch[k]) != Some(me) {
          ghost var mid := trace;
          Follow(me, batch[k]);
          Runs.Further(StepOf(me), before, mid, trace, steps, [], steps);
        }
      }
    }

    // ---------------------------------------------------------------- one step each

    method StartSend(me: nat, r: Request, approval: bool)
      requires me !in calls && Sound()
      modifies this`calls, this`asked, this`trace
      ensures At(me, Creating(r, approval)) && AskedBy(me) == Some(r)
      ensures Now() == Apply(old(Now()), BeginSend(me, r, approval))
        && trace == old(trace) + [BeginSend(me, r, approval)]
    {
      hide Inv, Run, Runs.Went;
      ghost var after := Note(me, BeginSend(me, r, approval));
      calls, asked := calls[me := Creating(r, approval)], asked[me := r];
      assert Now() == after;
    }

    /** The read of approve. */
    method StartApproval(me: nat, m: nat, approve: bool)
      requires me !in calls && Sound() && m < |rows| && rows[m].status == PendingApproval
      modifies this`calls, this`trace
      ensures At(me, Approving(m, approve)) && Now() == Apply(old(Now()), BeginApproval(me, m, approve))
      ensures trace == old(trace) + [BeginApproval(me, m, approve)]
    {
      hide Inv, Run, Runs.Went;
      ghost var after := Note(me, BeginApproval(me, m, approve));
      calls := calls[me := Approving(m, approve)];
      assert Now() == after;
    }

    /**
    The insert of send_email: an IntegrityError finds the row of the same (endpoint, key), which is sent again only
    while QUEUED.
    */
    method CreateRow(me: nat, r: Request, approval: bool) returns (m: nat, ended: Option<Ending>)
      requires At(me, Creating(r, approval))
      modifies this`rows, this`calls, this`trace
      ensures Now() == Apply(old(Now()), Take(me, Create))
      ensures At(me, if ended.Some? then Done(ended.value) else Calling(m, r.cc, r.bcc))
      ensures m < |rows| && (ended == Some(KeyReused) || Matches(rows[m], r))
      ensures ended.None? ==> rows[m].status == Queued
      ensures ended.Some? ==> ended == Some(KeyReused) || ended == Some(Returned(m))
      ensures old(Lookup(rows, r.endpoint, r.key)).None? ==>
        && m == old(|rows|) && ended == (if approval then Some(Returned(m)) else None)
        && rows == old(rows) + [rows[m]] && Says(rows[m], r) && !rows[m].known
        && rows[m].status == if approval then PendingApproval else Queued
      ensures var found := old(Lookup(rows, r.endpoint, r.key)); found.Some? ==>
        && m == found.value && rows == old(rows)
        && (ended == Some(KeyReused) <==> rows[m].body != r.body || rows[m].subject != r.subject)
        && (ended.None? <==> Matches(rows[m], r) && rows[m].status == Queued)
      ensures Runs.Went(StepOf(me), old(trace), trace, [Create])
    {
      hide Inv, Run, Runs.Went;
      ghost var after := Note(me, Take(me, Create));
      var found := Lookup(rows, r.endpoint, r.key);
      if found.None? {
        m := |rows|;
        rows := rows + [Row(r.endpoint, r.key, r.subject, r.body, r.to + r.cc + r.bcc, r.parent,
          if approval then PendingApproval else Queued, false, r)];
        ended := if approval then Some(Returned(m)) else None;
      } else {
        m := found.value;
        if rows[m].body != r.body || rows[m].subject != r.subject { ended := Some(KeyReused); }
        else if rows[m].status != Queued { ended := Some(Returned(m)); }
        else { ended := None; }
      }
      calls := calls[me := if ended.Some? then Done(ended.value) else Calling(m, r.cc, r.bcc)];
      assert Now() == after;
    }

    method SaveDecision(me: nat, m: nat, approve: bool)
      requires At(me, Approving(m, approve))
      modifies this`rows, this`calls, this`trace
      ensures Now() == Apply(old(Now()), Take(me, Step.SaveDecision))
      ensures At(me, if approve then Calling(m, [], []) else Done(Decided(m)))
      ensures m < |rows| && rows == old(rows)[m := old(rows)[m].(status := if approve then Queued else Rejected)]
      ensures Runs.Went(StepOf(me), old(trace), trace, [Step.SaveDecision])
    {
      hide Inv, Run, Runs.Went;
      HasRow(me);
      ghost var after := Note(me, Take(me, Step.SaveDecision));
      rows := rows[m := rows[m].(status := if approve then Queued else Rejected)];
      calls := calls[me := if approve then Calling(m, [], []) else Done(Decided(m))];
      assert Now() == after;
    }

    /** provider.send or provider.reply under the key of the row. */
    method ProviderSend(me: nat, m: nat, cc: seq<string>, bcc: seq<string>, reply: Reply)
      requires At(me, Calling(m, cc, bcc))
      modifies this`mails, this`calls, this`called, this`trace
      ensures Now() == Apply(old(Now()), Take(me, Send(reply)))
      ensures At(me, Answered(m, reply))
      ensures m < |rows| && rows == old(rows)
      ensures var goesOut := (reply.Accepted? || (reply.NoReply? && reply.accepted)) && !Mailed(old(mails), m);
        if goesOut then |mails| == |old(mails)| + 1 && old(mails) <= mails && mails[|old(mails)|].row == m
        else mails == old(mails)
      ensures Runs.Went(StepOf(me), old(trace), trace, [Send(reply)])
    {
      hide Apply, Inv, Run, Runs.Went, Answered, ToHeader;
      HasRow(me);
      ghost var was := Now();
      SendApplies(was, me, reply);
      ghost var after := Note(me, Take(me, Send(reply)));
      if reply.Accepted? || (reply.NoReply? && reply.accepted) { mails := Accept(mails, MailOf(rows[m], m, cc, bcc)); }
      called := called[me := m];
      calls := calls[me := Answered(m, reply)];
      assert Now() == after;
    }

    method SaveOutcome(me: nat, m: nat, sent: bool)
      requires At(me, if sent then MarkingSent(m) else MarkingFailed(m))
      modifies this`rows, this`calls, this`trace
      ensures Now() == Apply(old(Now()), Take(me, if sent then MarkSent else MarkFailed))
      ensures At(me, Done(if sent then Returned(m) else Undelivered(m)))
      ensures m < |rows| && rows[m].status == (if sent then Sent else Failed) && (sent ==> Mailed(mails, m))
      ensures rows == old(rows)[m := rows[m]]
        && rows[m] == old(rows)[m].(status := rows[m].status, known := sent || old(rows)[m].known)
      ensures Runs.Went(StepOf(me), old(trace), trace, [if sent then MarkSent else MarkFailed])
    {
      hide Inv, Run, Runs.Went;
      HasRow(me);
      ghost var after := Note(me, Take(me, if sent then MarkSent else MarkFailed));
      rows := rows[m := if sent then rows[m].(status := Sent, known := true) else rows[m].(status := Failed)];
      calls := calls[me := Done(if sent then Returned(m) else Undelivered(m))];
      assert Now() == after;
    }

    // ---------------------------------------------------------------- the functions of the source

    /**
    _deliver: one provider call; an unknown outcome leaves the row QUEUED for a retry under the same provider key.
    */
    method Deliver(me: nat, m: nat, cc: seq<string>, bcc: seq<string>, w: World) returns (r: Ending)
      requires At(me, Calling(m, cc, bcc))
      modifies this
      ensures At(me, Done(r)) && AskedBy(me) == old(AskedBy(me))
      ensures r == EndOf(m, w.reply) && Runs.Went(StepOf(me), old(trace), trace, Delivery(w.reply))
      ensures match w.reply
        case Accepted => r == Returned(m)
        case Refusal => r == Undelivered(m)
        case Unreachable => r == Unreached(m)
        case NoReply(_) => r == Unknown(m)
      ensures m < |rows| && (w.reply.Accepted? ==> rows[m].status == Sent && Mailed(mails, m))
        && (w.reply.Refusal? ==> rows[m].status == Failed)
    {
      hide Sound, Apply, Enabled, CanTake, EffectOf, After, Perform, Runs.Went, Mailed;
      ProviderSend(me, m, cc, bcc, w.reply);
      if w.reply.Accepted? || w.reply.Refusal? {
        Interfere(me, w.others, old(trace), [Send(w.reply)]);
        ghost var mid := trace;
        SaveOutcome(me, m, w.reply.Accepted?);
        Runs.Further(StepOf(me), old(trace), mid, trace, [Send(w.reply)],
          [if w.reply.Accepted? then MarkSent else MarkFailed], Delivery(w.reply));
      } else {
        assert Delivery(w.reply) == [Send(w.reply)];
      }
      r := EndOf(m, w.reply);
    }

    /** The transaction of send_email. */
    method Record(me: nat, request: Request, approval: bool) returns (m: nat, ended: Option<Ending>)
      requires me !in calls && Sound()
      modifies this`rows, this`calls, this`asked, this`trace
      ensures At(me, if ended.Some? then Done(ended.value) else Calling(m, request.cc, request.bcc))
        && AskedBy(me) == Some(request)
      ensures ended.Some? && ended.value.Returned? ==>
        ended.value.message < |rows| && Matches(rows[ended.value.message], request)
      ensures var found := old(Lookup(rows, request.endpoint, request.key)); found.Some? ==>
        && rows == old(rows)
        && (ended.None? <==> Matches(rows[found.value], request) && rows[found.value].status == Queued)
        && (ended.Some? ==> ended.value == if Matches(rows[found.value], request) then Returned(found.value)
          else KeyReused)
      ensures old(Lookup(rows, request.endpoint, request.key)).None? ==>
        m == old(|rows|) && ended == if approval then Some(Returned(m)) else None
      ensures Runs.Went(StepOf(me), old(trace) + [BeginSend(me, request, approval)], trace, [Create])
      ensures ended.None? && old(Lookup(rows, request.endpoint, request.key)).Some? ==>
        m == old(Lookup(rows, request.endpoint, request.key)).value
    {
      hide Sound, Apply, Enabled, CanTake, EffectOf, After, Perform, Runs.Went, Mailed;
      StartSend(me, request, approval);
      m, ended := CreateRow(me, request, approval);
    }

    /**
    send_email, after its validation. A key that was used is refused for other text, and sends again only while
    QUEUED.
    */
    method SendEmail(me: nat, request: Request, approval: bool, w: World) returns (r: Ending)
      requires me !in calls && Sound()
      modifies this
      ensures At(me, Done(r))
      ensures var found := old(Lookup(rows, request.endpoint, request.key));
        var sends := if found.Some? then Matches(old(rows)[found.value], request)
          && old(rows)[found.value].status == Queued else !approval;
        Runs.Went(StepOf(me), old(trace) + [BeginSend(me, request, approval)], trace,
          [Create] + if sends then Delivery(w.reply) else [])
      ensures var found := old(Lookup(rows, request.endpoint, request.key));
        found.Some? && !(Matches(old(rows)[found.value], request) && old(rows)[found.value].status == Queued) ==>
          && rows == old(rows) && mails == old(mails)
          && r == if Matches(rows[found.value], request) then Returned(found.value) else KeyReused
      ensures var found := old(Lookup(rows, request.endpoint, request.key));
        match found
        case None => r == if approval then Returned(old(|rows|)) else EndOf(old(|rows|), w.reply)
        case Some(m) => Matches(old(rows)[m], request) && old(rows)[m].status == Queued ==> r == EndOf(m, w.reply)
      ensures r.Returned? ==> r.message < |rows| && Matches(rows[r.message], request)
    {
      hide Sound, Apply, Enabled, CanTake, EffectOf, After, Perform, Runs.Went, Mailed, Delivery, EndOf;
      ghost var begun := trace + [BeginSend(me, request, approval)];
      var m, ended := Record(me, request, approval);
      if ended.Some? {
        assert [Create] + [] == [Create];
        return ended.value;
      }
      Interfere(me, w.others, begun, [Create]);
      ghost var mid := trace;
      r := Deliver(me, m, request.cc, request.bcc, w);
      Runs.Further(StepOf(me), begun, mid, trace, [Create], Delivery(w.reply), [Create] + Delivery(w.reply));
      if r.Returned? { OwnRow(me); }
    }

    /** approve, for an email. */
    method Approve(me: nat, m: nat, approve: bool, w: World) returns (r: Option<Ending>)
      requires me !in calls && Sound()
      modifies this
      ensures r.None? <==> old(m >= |rows| || rows[m].status != PendingApproval)
      ensures r.Some? ==> r.value == if approve then EndOf(m, w.reply) else Decided(m)
      ensures if r.None? then Now() == old(Now()) && trace == old(trace) else At(me, Done(r.value))
      ensures r.Some? ==>
        Runs.Went(StepOf(me), old(trace) + [BeginApproval(me, m, approve)], trace,
          [Step.SaveDecision] + if approve then Delivery(w.reply) else [])
    {
      hide Sound, Apply, Enabled, CanTake, EffectOf, After, Perform, Runs.Went, Mailed, Delivery;
      if m >= |rows| || rows[m].status != PendingApproval { return None; }
      StartApproval(me, m, approve);
      ghost var begun := trace;
      Runs.WentNowhere(StepOf(me), begun);
      Interfere(me, w.others, begun, []);
      ghost var read := trace;
      SaveDecision(me, m, approve);
      Runs.Further(StepOf(me), begun, read, trace, [], [Step.SaveDecision], [Step.SaveDecision]);
      if !approve {
        assert [Step.SaveDecision] + [] == [Step.SaveDecision];
        return Some(Decided(m));
      }
      Interfere(me, w.others, begun, [Step.SaveDecision]);
      ghost var mid := trace;
      var ended := Deliver(me, m, [], [], w);
      Runs.Further(StepOf(me), begun, mid, trace, [Step.SaveDecision], Delivery(w.reply),
        [Step.SaveDecision] + Delivery(w.reply));
      r := Some(ended);
    }
  }
}
