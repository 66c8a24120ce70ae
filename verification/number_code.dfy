/**
The code of `buy_number` and `_record_number` (sms.py). Every database write and
provider call is one method and one step of the `Numbers` machine; other calls, for the
same key too, may take any number of steps at each pause.
*/
module NumberCode {
  import opened Wrappers
  import Runs
  import Ledger
  import opened Numbers

  /** What this call meets; `lookupFails` and `wanted` as in the source, `available` the first search result. */
  datatype Replies = Replies(cents: nat, mayReserve: bool, at: Ledger.Moment, lookupFails: bool, wanted: Option<string>,
                             available: Option<string>, reply: Reply, others: nat -> seq<Action>)

  /** Nobody else moves. */
  ghost predicate Quiet(others: nat -> seq<Action>) {
    forall n :: others(n) == []
  }

  /** How choosing and buying ends, by the replies it gets. */
  function EndOf(w: Replies): Ending {
    if (w.wanted.Some? || w.available.Some?) && w.reply.Bought? then Returned else Stopped
  }

  // ------------------------------------------------------------------ the steps of the functions

  function BuySteps(reply: Reply): seq<Step> {
    match reply
    case Refusal => [Buy(reply), Release]
    case NoReply(_) => [Buy(reply)]
    case Bought => [Buy(reply), Charge, Record]
  }

  function ChooseSteps(w: Replies): seq<Step> {
    if w.wanted.None? && w.available.None? then [NoneAvailable, Release]
    else [Choose(if w.wanted.Some? then w.wanted.value else w.available.value)] + BuySteps(w.reply)
  }

  function RecoverSteps(found: Option<string>, w: Replies): seq<Step> {
    if w.lookupFails then [Stop] else if found.Some? then [Step.Find(found), Charge, Record]
      else [Step.Find(None)] + ChooseSteps(w)
  }

  function AllSteps(replayed: bool, recorded: bool, found: Option<string>, w: Replies): seq<Step> {
    if !w.mayReserve then [Stop]
    else [Reserve(w.cents, w.at), SeeEndpoint] + if recorded then [] else if replayed then RecoverSteps(found, w)
      else ChooseSteps(w)
  }

  function StepOf(me: nat): Action -> Option<Step> {
    (a: Action) => if a.Take? && a.call == me then Some(a.step) else None
  }

  lemma {:induction false} OneStep(trace: seq<Action>, s: State, a: Action, me: nat)
    requires Run(trace) == Some(s) && Base(s) && Enabled(s, a)
    ensures Run(trace + [a]) == Some(Apply(s, a)) && Base(Apply(s, a)) && Ledger.Kept(s.entries, Apply(s, a).entries)
    ensures Runs.Went(StepOf(me), trace, trace + [a], if a.Take? && a.call == me then [a.step] else [])
  {
    BaseStep(s, a);
    Runs.Extend(Next, Ledger.World([], Empty()), trace, a);
    Runs.WentOne(StepOf(me), trace, a);
  }

  lemma {:induction false} OthersLeaveMe(s: State, a: Action, c: nat)
    requires Enabled(s, a) && c in s.local.calls && a.call != c
    ensures c in Apply(s, a).local.calls && Apply(s, a).local.calls[c] == s.local.calls[c]
  {
  }

  /** The step writes nothing and leads to `to`. */
  predicate Passes(s: State, pc: Pc, step: Step, to: Pc) {
    CanTake(s, pc, step) && EffectOf(s, pc, step) == Nothing && After(s, pc, step) == to
  }

  lemma {:induction false} StopPasses(s: State, pc: Pc)
    requires !pc.Done?
    ensures Passes(s, pc, Stop, Done(Stopped))
  {
  }

  lemma {:induction false} LookPasses(s: State, agent: string, key: string, id: nat, price: nat, replayed: bool)
    ensures Passes(s, Checking(agent, key, id, price, replayed), SeeEndpoint,
      if HasEndpoint(s.local, id) then Done(Returned) else if replayed then Finding(agent, key, id, price)
        else Choosing(agent, key, id, price, true))
  {
  }

  lemma {:induction false} FindPasses(s: State, agent: string, key: string, id: nat, price: nat, found: Option<string>)
    requires FindsTruly(s.local, id, found)
    ensures Passes(s, Finding(agent, key, id, price), Step.Find(found),
      if found.Some? then Charging(agent, key, id, found.value) else Choosing(agent, key, id, price, false))
  {
  }

  lemma {:induction false} ChoosePasses(s: State, agent: string, key: string, id: nat, price: nat, own: bool,
      number: string)
    ensures Passes(s, Choosing(agent, key, id, price, own), Choose(number), Buying(agent, key, id, price, own, number))
    ensures Passes(s, Choosing(agent, key, id, price, own), NoneAvailable, Releasing(agent, key, id))
  {
  }

  /** Where the provider's reply leaves the call. */
  function Answered(agent: string, key: string, id: nat, number: string, reply: Reply): Pc {
    if reply.Refusal? then Releasing(agent, key, id) else if reply.NoReply? then Done(Stopped)
      else Charging(agent, key, id, number)
  }

  /** As long as no two calls shop on one entry, one that gives its money back finds it not charged. */
  lemma {:induction false} NotCharged(trace: seq<Action>, c: nat)
    requires Run(trace).Some? && OneShopperThroughout(trace) && c in Run(trace).value.local.calls
      && Run(trace).value.local.calls[c].Releasing?
    ensures var s := Run(trace).value;
      s.local.calls[c].id < |s.entries| && s.entries[s.local.calls[c].id].state != Ledger.Charged
  {
    RunKeepsInv(trace);
    assert CallOk(Run(trace).value, Run(trace).value.local.calls[c]);
  }

  lemma {:induction false} ThroughoutPrefix(me: nat, before: seq<Action>, after: seq<Action>, steps: seq<Step>)
    requires Runs.Went(StepOf(me), before, after, steps) && OneShopperThroughout(after)
    ensures OneShopperThroughout(before)
  {
    forall k | 0 <= k < |before| && Run(before[..k]).Some?
      ensures OneShopper(Run(before[..k]).value)
    {
      assert before[..k] == after[..k];
    }
  }

  class NumberService {
    var entries: Ledger.Entries
    var calls: map<nat, Pc>
    var endpoints: map<string, nat>
    var purchases: seq<Purchase>
    var pauses: nat
    /** All actions so far, of every call. */
    ghost var trace: seq<Action>

    constructor ()
      ensures Now() == Ledger.World([], Empty()) && Sound()
    {
      entries, calls, endpoints, purchases, pauses := [], map[], map[], [], 0;
      trace := [];
    }

    function Now(): State
      reads this
    {
      Ledger.World(entries, Desk(calls, endpoints, purchases))
    }

    /** The tables are those of a run of the protocol. */
    ghost predicate Sound()
      reads this
    {
      Run(trace) == Some(Now()) && Base(Now())
    }

    ghost predicate At(me: nat, pc: Pc)
      reads this
    {
      me in calls && calls[me] == pc && Sound()
    }

    /** The (agent, key) has a ledger entry whose number was bought, or is recorded. */
    ghost predicate HasNumber(agent: string, key: string)
      reads this
    {
      exists id :: 0 <= id < |entries| && entries[id].agent == agent && entries[id].dedupe == Ledger.NumberKey(key)
        && (HasEndpoint(Now().local, id) || BoughtFor(Now().local, id))
    }

    /** The run goes on by one action; the code then brings the tables there. */
    ghost method Note(me: nat, a: Action) returns (after: State)
      requires Sound() && Enabled(Now(), a)
      modifies this`trace
      ensures after == Apply(Now(), a) && Run(trace) == Some(after) && Base(after) && trace == old(trace) + [a]
      ensures Runs.Went(StepOf(me), old(trace), trace, if a.Take? && a.call == me then [a.step] else [])
        && Ledger.Kept(entries, after.entries)
    {
      OneStep(trace, Now(), a, me);
      after := Apply(Now(), a);
      trace := trace + [a];
    }

    lemma HasEntry(me: nat)
      requires me in calls && Sound() && !calls[me].Done? && !calls[me].Reserving?
      ensures calls[me].id < |entries| && entries[calls[me].id].agent == calls[me].agent
        && entries[calls[me].id].dedupe == Ledger.NumberKey(calls[me].key)
      ensures calls[me].Charging? || calls[me].Recording? ==>
        BoughtFor(Now().local, calls[me].id) && HasNumber(calls[me].agent, calls[me].key)
    {
      assert CallTyped(Now(), calls[me]);
    }

    // ---------------------------------------------------------------- other calls

    method Follow(me: nat, a: Action)
      requires me in calls && Sound() && Enabled(Now(), a) && a.call != me
      modifies this
      ensures Now() == Apply(old(Now()), a) && pauses == old(pauses)
      ensures At(me, old(calls[me])) && Runs.Went(StepOf(me), old(trace), trace, [])
        && Ledger.Kept(old(entries), entries)
    {
      hide Apply, Base, Run, Runs.Went, Ledger.Kept;
      OthersLeaveMe(Now(), a, me);
      ghost var noted := Note(me, a);
      var after := Apply(Now(), a);
      entries, calls, endpoints, purchases := after.entries, after.local.calls, after.local.endpoints,
        after.local.purchases;
    }

    /** Other calls move; this call has taken `steps` since `before`. */
    method Interfere(me: nat, others: nat -> seq<Action>, ghost before: seq<Action>, ghost steps: seq<Step>)
      requires me in calls && Sound() && Runs.Went(StepOf(me), before, trace, steps)
      modifies this
      ensures At(me, old(calls[me])) && Runs.Went(StepOf(me), before, trace, steps)
        && Ledger.Kept(old(entries), entries)
      ensures Quiet(others) ==> Now() == old(Now())
    {
      hide Runs.Went, Run, Base, Apply;
      var batch := others(pauses);
      pauses := pauses + 1;
      for k := 0 to |batch|
        invariant At(me, old(calls[me])) && Runs.Went(StepOf(me), before, trace, steps)
          && Ledger.Kept(old(entries), entries)
        invariant batch == [] ==> Now() == old(Now())
      {
        if Enabled(Now(), batch[k]) && batch[k].call != me {
          ghost var mid := trace;
          Follow(me, batch[k]);
          Runs.Further(StepOf(me), before, mid, trace, steps, [], steps);
        }
      }
    }

    // ---------------------------------------------------------------- one write each

    /** A step that writes nothing. */
    method Move(me: nat, step: Step, to: Pc)
      requires me in calls && Sound() && Passes(Now(), calls[me], step, to)
      modifies this`calls, this`trace
      ensures At(me, to) && Now() == Apply(old(Now()), Take(me, step))
      ensures Runs.Went(StepOf(me), old(trace), trace, [step])
    {
      hide Base, Run, Runs.Went;
      ghost var noted := Note(me, Take(me, step));
      calls := calls[me := to];
      assert Now() == noted;
    }

    method ReserveMoney(me: nat, agent: string, key: string, cents: nat, at: Ledger.Moment)
      returns (id: nat, replayed: bool)
      requires At(me, Reserving(agent, key))
      modifies this`entries, this`calls, this`trace
      ensures Now() == Apply(old(Now()), Take(me, Reserve(cents, at)))
      ensures At(me, Checking(agent, key, id, cents, replayed))
      ensures replayed <==> Ledger.Find(old(entries), agent, Ledger.NumberKey(key)).Some?
      ensures var held := Ledger.Entry(agent, Ledger.SmsNumber, cents, Ledger.NumberKey(key), Ledger.Reserved, at);
        if replayed then entries == old(entries) else id == |old(entries)| && entries == old(entries) + [held]
      ensures Runs.Went(StepOf(me), old(trace), trace, [Reserve(cents, at)])
    {
      hide Run, Runs.Went;
      ghost var noted := Note(me, Take(me, Reserve(cents, at)));
      var found := Ledger.Find(entries, agent, Ledger.NumberKey(key));
      if found.Some? {
        assert Ledger.Typed(entries[found.value]);
        id, replayed := found.value, true;
      } else {
        id, replayed := |entries|, false;
        entries := entries + [Ledger.Entry(agent, Ledger.SmsNumber, cents, Ledger.NumberKey(key), Ledger.Reserved, at)];
      }
      calls := calls[me := Checking(agent, key, id, cents, replayed)];
      assert Now() == noted;
    }

    method ProviderBuy(me: nat, agent: string, key: string, id: nat, price: nat, own: bool, number: string,
        reply: Reply)
      requires At(me, Buying(agent, key, id, price, own, number))
      modifies this`purchases, this`calls, this`trace
      ensures Now() == Apply(old(Now()), Take(me, Buy(reply)))
      ensures At(me, Answered(agent, key, id, number, reply)) && id < |entries|
      ensures var bought := reply.Bought? || (reply.NoReply? && reply.bought);
        purchases == old(purchases)
          + if bought then [Purchase(id, number, price, old(entries)[id].state, own)] else []
      ensures Runs.Went(StepOf(me), old(trace), trace, [Buy(reply)])
    {
      hide Base, Run, Runs.Went;
      HasEntry(me);
      ghost var noted := Note(me, Take(me, Buy(reply)));
      if reply.Bought? || (reply.NoReply? && reply.bought) {
        purchases := purchases + [Purchase(id, number, price, entries[id].state, own)];
      }
      calls := calls[me := Answered(agent, key, id, number, reply)];
      assert Now() == noted;
    }

    /** settle: the update only touches an entry that is still reserved. */
    method SettleEntry(me: nat, step: Step, id: nat, to: Pc)
      requires me in calls && Sound() && CanTake(Now(), calls[me], step) && After(Now(), calls[me], step) == to
      requires (step.Release? || step.Charge?) && calls[me].id == id
      modifies this`entries, this`calls, this`trace
      ensures At(me, to) && Now() == Apply(old(Now()), Take(me, step))
      ensures id < |old(entries)| && entries == Ledger.Settled(old(entries), id, step.Charge?)
      ensures step.Release? && OneShopperThroughout(old(trace)) ==> entries[id].state == Ledger.Released
      ensures Runs.Went(StepOf(me), old(trace), trace, [step])
    {
      hide Base, Run, Runs.Went, OneShopperThroughout;
      if step.Release? && OneShopperThroughout(trace) { NotCharged(trace, me); }
      ghost var noted := Note(me, Take(me, step));
      if entries[id].state == Ledger.Reserved {
        entries := entries[id := entries[id].(state := if step.Charge? then Ledger.Charged else Ledger.Released)];
      }
      calls := calls[me := to];
      assert Now() == noted;
    }

    method ReleaseEntry(me: nat, agent: string, key: string, id: nat)
      requires At(me, Releasing(agent, key, id))
      modifies this`entries, this`calls, this`trace
      ensures At(me, Done(Stopped)) && Runs.Went(StepOf(me), old(trace), trace, [Release])
      ensures id < |old(entries)| && entries == Ledger.Settled(old(entries), id, false)
      ensures OneShopperThroughout(old(trace)) ==> entries[id].state == Ledger.Released
    {
      hide Sound, Apply, OneShopperThroughout, Runs.Went;
      HasEntry(me);
      SettleEntry(me, Release, id, Done(Stopped));
    }

    /** Endpoint.objects.get_or_create: a number already recorded is left alone. */
    method SaveEndpoint(me: nat, agent: string, key: string, id: nat, number: string)
      requires At(me, Recording(agent, key, id, number))
      modifies this`endpoints, this`calls, this`trace
      ensures At(me, Done(Returned)) && Now() == Apply(old(Now()), Take(me, Record))
      ensures endpoints == (if number in old(endpoints) then old(endpoints) else old(endpoints)[number := id])
        && HasNumber(agent, key)
      ensures Runs.Went(StepOf(me), old(trace), trace, [Record])
    {
      hide Base, Run, Runs.Went;
      HasEntry(me);
      ghost var noted := Note(me, Take(me, Record));
      if number !in endpoints { endpoints := endpoints[number := id]; }
      calls := calls[me := Done(Returned)];
      assert Now() == noted;
      assert BoughtFor(Now().local, id);
    }

    // ---------------------------------------------------------------- the functions of the source

    /** _record_number: charge the entry, unless it was settled before, and save the number. */
    method RecordNumber(me: nat, agent: string, key: string, id: nat, number: string, others: nat -> seq<Action>)
      requires At(me, Charging(agent, key, id, number))
      modifies this
      ensures At(me, Done(Returned)) && number in endpoints && HasNumber(agent, key)
      ensures id < |old(entries)| <= |entries| && entries[id] == Ledger.Settled(old(entries), id, true)[id]
      ensures Runs.Went(StepOf(me), old(trace), trace, [Charge, Record])
      ensures Quiet(others) ==> entries == Ledger.Settled(old(entries), id, true) && purchases == old(purchases)
    {
      hide Sound, Apply, Runs.Went, Quiet, OneShopperThroughout, HasNumber, BoughtFor;
      HasEntry(me);
      SettleEntry(me, Charge, id, Recording(agent, key, id, number));
      Interfere(me, others, old(trace), [Charge]);
      ghost var mid := trace;
      SaveEndpoint(me, agent, key, id, number);
      Runs.Further(StepOf(me), old(trace), mid, trace, [Charge], [Record], [Charge, Record]);
    }

    /** The provider call for a chosen number, and what its outcome means for the money. */
    method BuyChosen(me: nat, agent: string, key: string, id: nat, price: nat, own: bool, number: string, w: Replies)
      returns (r: Ending)
      requires At(me, Buying(agent, key, id, price, own, number))
      modifies this
      ensures At(me, Done(r)) && (r == Returned ==> HasNumber(agent, key))
      ensures r == if w.reply.Bought? then Returned else Stopped
      ensures Runs.Went(StepOf(me), old(trace), trace, BuySteps(w.reply)) && id < |old(entries)| <= |entries|
      ensures !w.reply.NoReply? ==> entries[id].state != Ledger.Reserved
      ensures w.reply.Refusal? && OneShopperThroughout(trace) ==> entries[id].state == Ledger.Released
      ensures Quiet(w.others) ==>
        entries == if w.reply.NoReply? then old(entries) else Ledger.Settled(old(entries), id, w.reply.Bought?)
      ensures Quiet(w.others) ==>
        purchases == old(purchases) + if w.reply.Bought? || (w.reply.NoReply? && w.reply.bought)
                                      then [Purchase(id, number, price, old(entries)[id].state, own)] else []
    {
      hide Sound, Apply, Runs.Went, Quiet, OneShopperThroughout, HasNumber, CanTake, EffectOf, After, BuySteps,
        Ledger.Kept;
      HasEntry(me);
      ProviderBuy(me, agent, key, id, price, own, number, w.reply);
      ghost var bought := trace;
      if !w.reply.NoReply? {
        Interfere(me, w.others, old(trace), [Buy(w.reply)]);
        KeptLonger(old(entries), entries);
        bought := trace;
        if w.reply.Refusal? {
          ReleaseEntry(me, agent, key, id);
          if OneShopperThroughout(trace) { ThroughoutPrefix(me, bought, trace, [Release]); }
        } else {
          RecordNumber(me, agent, key, id, number, w.others);
        }
      }
      BuyTook(me, old(trace), bought, trace, w.reply);
      r := if w.reply.Bought? then Returned else Stopped;
    }

    /** The end of buy_number: nothing bought yet under this label. */
    method ChooseAndBuy(me: nat, agent: string, key: string, id: nat, price: nat, own: bool, w: Replies)
      returns (r: Ending)
      requires At(me, Choosing(agent, key, id, price, own))
      modifies this
      ensures At(me, Done(r)) && (r == Returned ==> HasNumber(agent, key))
      ensures r == EndOf(w) && Runs.Went(StepOf(me), old(trace), trace, ChooseSteps(w))
        && id < |old(entries)| <= |entries|
      ensures (w.wanted.None? && w.available.None?) || !w.reply.NoReply? ==> entries[id].state != Ledger.Reserved
      ensures (w.wanted.None? && w.available.None?) || w.reply.Refusal? ==>
        OneShopperThroughout(trace) ==> entries[id].state == Ledger.Released
      ensures Quiet(w.others) ==>
        entries == if (w.wanted.Some? || w.available.Some?) && w.reply.NoReply? then old(entries)
          else Ledger.Settled(old(entries), id, r == Returned)
      ensures Quiet(w.others) ==>
        var chosen := if w.wanted.Some? then w.wanted else w.available;
        var bought := chosen.Some? && (w.reply.Bought? || (w.reply.NoReply? && w.reply.bought));
        purchases == old(purchases)
          + if bought then [Purchase(id, chosen.value, price, old(entries)[id].state, own)] else []
    {
      hide Sound, Apply, Runs.Went, Quiet, OneShopperThroughout, HasNumber, CanTake, EffectOf, After, Passes, BuySteps,
        ChooseSteps, Ledger.Kept;
      HasEntry(me);
      var number := if w.wanted.Some? then w.wanted.value else if w.available.Some? then w.available.value else "";
      ChoosePasses(Now(), agent, key, id, price, own, number);
      ghost var first := if w.wanted.None? && w.available.None? then NoneAvailable else Choose(number);
      ghost var mid: seq<Action>;
      if w.wanted.None? && w.available.None? {
        Move(me, NoneAvailable, Releasing(agent, key, id));
        Interfere(me, w.others, old(trace), [first]);
        KeptLonger(old(entries), entries);
        mid := trace;
        ReleaseEntry(me, agent, key, id);
        if OneShopperThroughout(trace) { ThroughoutPrefix(me, mid, trace, [Release]); }
        r := Stopped;
      } else {
        Move(me, Choose(number), Buying(agent, key, id, price, own, number));
        Interfere(me, w.others, old(trace), [first]);
        KeptLonger(old(entries), entries);
        mid := trace;
        r := BuyChosen(me, agent, key, id, price, own, number, w);
      }
      ChooseTook(me, old(trace), mid, trace, first, w);
    }

    /**
    The replay branch of buy_number: a purchase whose response was lost is recovered, and nothing is bought again.
    */
    method Recover(me: nat, agent: string, key: string, id: nat, price: nat, w: Replies)
      returns (r: Ending, ghost found: Option<string>)
      requires At(me, Finding(agent, key, id, price))
      modifies this
      ensures At(me, Done(r)) && (r == Returned ==> HasNumber(agent, key))
      ensures Runs.Went(StepOf(me), old(trace), trace, RecoverSteps(found, w))
      ensures !w.lookupFails ==>
        FindsTruly(old(Now()).local, id, found) && r == if found.Some? then Returned else EndOf(w)
      ensures !w.lookupFails && found.Some? ==>
        found.value in endpoints && id < |entries| && entries[id].state != Ledger.Reserved
      ensures Quiet(w.others) && !w.lookupFails && BoughtFor(old(Now()).local, id) ==>
        purchases == old(purchases) && id < |old(entries)| && entries == Ledger.Settled(old(entries), id, true)
    {
      hide Sound, Apply, Runs.Went, Quiet, OneShopperThroughout, HasNumber, CanTake, EffectOf, After, Passes,
        ChooseSteps, RecoverSteps, Ledger.Kept, EndOf;
      found := None;
      ghost var mid := trace;
      HasEntry(me);
      StopPasses(Now(), calls[me]);
      if w.lookupFails {
        Move(me, Stop, Done(Stopped));
        r := Stopped;
      } else if p :| 0 <= p < |purchases| && purchases[p].entry == id {
        var number := purchases[p].number;
        found := Some(number);
        FindPasses(Now(), agent, key, id, price, found);
        Move(me, Step.Find(Some(number)), Charging(agent, key, id, number));
        Interfere(me, w.others, old(trace), [Step.Find(found)]);
        mid := trace;
        RecordNumber(me, agent, key, id, number, w.others);
        r := Returned;
      } else {
        FindPasses(Now(), agent, key, id, price, None);
        Move(me, Step.Find(None), Choosing(agent, key, id, price, false));
        Interfere(me, w.others, old(trace), [Step.Find(found)]);
        mid := trace;
        r := ChooseAndBuy(me, agent, key, id, price, false, w);
      }
      RecoverTook(me, old(trace), mid, trace, found, w);
    }

    method Start(me: nat, agent: string, key: string)
      requires me !in calls && Sound()
      modifies this`calls, this`trace
      ensures At(me, Reserving(agent, key)) && Now() == Apply(old(Now()), Begin(me, agent, key))
      ensures trace == old(trace) + [Begin(me, agent, key)]
    {
      hide Base, Run, Runs.Went;
      ghost var noted := Note(me, Begin(me, agent, key));
      calls := calls[me := Reserving(agent, key)];
      assert Now() == noted;
    }

    /** The reservation of buy_number, and the look for a number already recorded. */
    method Open(me: nat, agent: string, key: string, w: Replies) returns (id: nat, replayed: bool, recorded: bool)
      requires At(me, Reserving(agent, key))
      modifies this
      ensures replayed <==> Ledger.Find(old(entries), agent, Ledger.NumberKey(key)).Some?
      ensures At(me, if recorded then Done(Returned) else if replayed then Finding(agent, key, id, w.cents)
        else Choosing(agent, key, id, w.cents, true))
      ensures recorded ==> HasNumber(agent, key)
      ensures Quiet(w.others) ==>
        && purchases == old(purchases) && endpoints == old(endpoints)
        && (!replayed ==> id == old(|entries|) < |entries| && entries[id].state == Ledger.Reserved)
      ensures Runs.Went(StepOf(me), old(trace), trace, [Reserve(w.cents, w.at), SeeEndpoint])
    {
      hide Sound, Apply, Runs.Went, Quiet, OneShopperThroughout, CanTake, EffectOf, After, Passes, Ledger.Kept,
        Ledger.Find;
      id, replayed := ReserveMoney(me, agent, key, w.cents, w.at);
      Interfere(me, w.others, old(trace), [Reserve(w.cents, w.at)]);
      ghost var mid := trace;
      HasEntry(me);
      LookPasses(Now(), agent, key, id, w.cents, replayed);
      recorded := HasEndpoint(Now().local, id);
      ghost var was := Now();
      Move(me, SeeEndpoint,
        if recorded then Done(Returned) else if replayed then Finding(agent, key, id, w.cents)
          else Choosing(agent, key, id, w.cents, true));
      assert recorded ==> HasEndpoint(Now().local, id);
      Runs.Further(StepOf(me), old(trace), mid, trace, [Reserve(w.cents, w.at)], [SeeEndpoint],
        [Reserve(w.cents, w.at), SeeEndpoint]);
    }

    /** buy_number. */
    method BuyNumber(me: nat, agent: string, key: string, w: Replies)
      returns (r: Ending, ghost recorded: bool, ghost found: Option<string>)
      requires me !in calls && Sound()
      modifies this
      ensures At(me, Done(r)) && (r == Returned ==> HasNumber(agent, key))
      ensures Runs.Went(StepOf(me), old(trace) + [Begin(me, agent, key)], trace,
        AllSteps(Ledger.Find(old(entries), agent, Ledger.NumberKey(key)).Some?, recorded, found, w))
      ensures w.mayReserve && recorded ==> r == Returned
      ensures var found := Ledger.Find(old(entries), agent, Ledger.NumberKey(key));
        Quiet(w.others) && w.mayReserve && !recorded && found.None? ==>
        var chosen := if w.wanted.Some? then w.wanted else w.available;
        var bought := chosen.Some? && (w.reply.Bought? || (w.reply.NoReply? && w.reply.bought));
        purchases == old(purchases)
          + if bought then [Purchase(old(|entries|), chosen.value, w.cents, Ledger.Reserved, true)] else []
      ensures Quiet(w.others) && recorded ==> purchases == old(purchases)
    {
      hide Sound, Apply, Runs.Went, Quiet, OneShopperThroughout, HasNumber, CanTake, EffectOf, After, Passes,
        ChooseSteps, RecoverSteps, Ledger.Kept, EndOf, Ledger.Find,
        FindsTruly, BoughtFor, AllSteps;
      recorded, found := false, None;
      Start(me, agent, key);
      ghost var begun, mid := trace, trace;
      var replayed := Ledger.Find(entries, agent, Ledger.NumberKey(key)).Some?;
      if w.mayReserve {
        var id, again, seen := Open(me, agent, key, w);
        recorded := seen;
        mid := trace;
        if seen {
          r := Returned;
        } else {
          Interfere(me, w.others, begun, [Reserve(w.cents, w.at), SeeEndpoint]);
          mid := trace;
          if replayed { r, found := Recover(me, agent, key, id, w.cents, w); }
          else { r := ChooseAndBuy(me, agent, key, id, w.cents, true, w); }
        }
      } else {
        StopPasses(Now(), calls[me]);
        Move(me, Stop, Done(Stopped));
        r := Stopped;
      }
      AllTook(me, begun, mid, trace, replayed, recorded, found, w);
    }
  }

  // ------------------------------------------------------------------ the steps, put together

  lemma {:induction false} KeptLonger(before: Ledger.Entries, after: Ledger.Entries)
    requires Ledger.Kept(before, after)
    ensures |before| <= |after|
  {
  }

  lemma {:induction false} BuyTook(me: nat, a: seq<Action>, b: seq<Action>, c: seq<Action>, reply: Reply)
    requires Runs.Went(StepOf(me), a, b, [Buy(reply)])
    requires if reply.NoReply? then b == c
      else Runs.Went(StepOf(me), b, c, if reply.Refusal? then [Release] else [Charge, Record])
    ensures Runs.Went(StepOf(me), a, c, BuySteps(reply))
  {
    if !reply.NoReply? {
      Runs.Further(StepOf(me), a, b, c, [Buy(reply)], if reply.Refusal? then [Release]
        else [Charge, Record], BuySteps(reply));
    }
  }

  lemma {:induction false} ChooseTook(me: nat, a: seq<Action>, b: seq<Action>, c: seq<Action>, first: Step, w: Replies)
    requires first == if w.wanted.Some? then Choose(w.wanted.value)
      else if w.available.Some? then Choose(w.available.value) else NoneAvailable
    requires Runs.Went(StepOf(me), a, b, [first])
      && Runs.Went(StepOf(me), b, c, if first.NoneAvailable? then [Release] else BuySteps(w.reply))
    ensures Runs.Went(StepOf(me), a, c, ChooseSteps(w))
  {
    Runs.Further(StepOf(me), a, b, c, [first], if first.NoneAvailable? then [Release] else BuySteps(w.reply),
      ChooseSteps(w));
  }

  lemma {:induction false} RecoverTook(me: nat, a: seq<Action>, b: seq<Action>, c: seq<Action>, found: Option<string>,
      w: Replies)
    requires w.lookupFails ==> Runs.Went(StepOf(me), a, c, [Stop])
    requires !w.lookupFails ==>
      && Runs.Went(StepOf(me), a, b, [Step.Find(found)])
      && Runs.Went(StepOf(me), b, c, if found.Some? then [Charge, Record] else ChooseSteps(w))
    ensures Runs.Went(StepOf(me), a, c, RecoverSteps(found, w))
  {
    if !w.lookupFails {
      Runs.Further(StepOf(me), a, b, c, [Step.Find(found)], if found.Some? then [Charge, Record] else ChooseSteps(w),
        RecoverSteps(found, w));
    }
  }

  lemma {:induction false} AllTook(me: nat, a: seq<Action>, b: seq<Action>, c: seq<Action>, replayed: bool,
      recorded: bool, found: Option<string>, w: Replies)
    requires if !w.mayReserve then Runs.Went(StepOf(me), a, c, [Stop])
             else Runs.Went(StepOf(me), a, b, [Reserve(w.cents, w.at), SeeEndpoint])
                  && if recorded then b == c
                    else Runs.Went(StepOf(me), b, c, if replayed then RecoverSteps(found, w) else ChooseSteps(w))
    ensures Runs.Went(StepOf(me), a, c, AllSteps(replayed, recorded, found, w))
  {
    if w.mayReserve {
      if recorded { Runs.WentNowhere(StepOf(me), b); }
      Runs.Further(StepOf(me), a, b, c, [Reserve(w.cents, w.at), SeeEndpoint],
        if recorded then [] else if replayed then RecoverSteps(found, w)
          else ChooseSteps(w), AllSteps(replayed, recorded, found, w));
    }
  }
}
