/**
The calls of the workspace message bus as code (messaging.py and services.py): one object
holds the tables, and each method ties what it does to the steps of `Bus`. Between the
checks of a transaction and its writes other transactions may commit.
*/
module BusCode {
  import opened Wrappers
  import opened Bus

  datatype Outcome =
    | Made(id: nat) | Replayed(id: nat) | Read(cursor: nat)
    | InvalidRequest | NotFound | Conflict | Blocked | DatabaseError

  const MAX_KEY := 128
  const MAX_BODY := 20000

  predicate Blank(s: string) {
    forall c :: c in s ==> c == ' ' || c == '\t' || c == '\n' || c == '\r'
  }

  predicate GoodKey(key: string) {
    !Blank(key) && |key| <= MAX_KEY
  }

  predicate GoodBody(body: string) {
    !Blank(body) && |body| <= MAX_BODY
  }

  function TxOf(a: Action): Option<nat> {
    match a
    case BeginPost(tx, _, _, _, _, _) => Some(tx)
    case CommitPost(tx, _, _) => Some(tx)
    case BeginCreate(tx, _, _, _) => Some(tx)
    case CommitCreate(tx) => Some(tx)
    case BeginRead(tx, _, _, _) => Some(tx)
    case CommitRead(tx) => Some(tx)
    case Rollback(tx) => Some(tx)
    case _ => None
  }

  lemma {:induction false} OthersLeaveMine(s: Board, a: Action, tx: nat)
    requires Enabled(s, a) && tx in s.pending && TxOf(a) != Some(tx)
    ensures tx in Apply(s, a).pending && Apply(s, a).pending[tx] == s.pending[tx] && s.now <= Apply(s, a).now
  {
    if a.CommitCreate? { CreateLeavesMine(s, a.tx, tx); }
  }

  lemma {:induction false} CreateLeavesMine(s: Board, other: nat, tx: nat)
    requires Enabled(s, CommitCreate(other)) && tx in s.pending && other != tx
    ensures tx in Apply(s, CommitCreate(other)).pending && Apply(s, CommitCreate(other)).pending[tx] == s.pending[tx]
    ensures s.now == Apply(s, CommitCreate(other)).now
  {
    hide NameTaken, Locked, GuardsPass, RootOf;
    assert Apply(s, CommitCreate(other)).pending == s.pending - {other};
  }

  /** What a message must pass: its own form, access, the key, the pause, its thread and the agent guards. */
  predicate MayPost(s: Board, tx: nat, actor: Principal, channel: nat, body: string, thread: Option<nat>, key: string,
      granted: bool, paused: bool) {
    && GoodBody(body) && granted && GoodKey(key) && !(actor.Agent? && paused)
    && Enabled(s, BeginPost(tx, actor, key, channel, body, thread))
  }

  predicate HasText(s: string) {
    exists c :: c in s && c != ' ' && c != '\t' && c != '\n' && c != '\r'
  }

  /** The newest `limit` messages of the thread exist and are all by agents. */
  ghost predicate AgentsOnly(ms: seq<Message>, channel: nat, root: Option<nat>, limit: nat) {
    exists from {:trigger ThreadSince(ms, channel, root, from)} :: 0 <= from <= |ms|
      && |ThreadSince(ms, channel, root, from)| == limit && AllByAgents(ms, ThreadSince(ms, channel, root, from))
  }

  /** In plain terms: form, access, a new key, a thread of this channel, and for agents the pause and the limits. */
  ghost predicate Postable(s: Board, actor: Principal, channel: nat, body: string, thread: Option<nat>, key: string,
      granted: bool, paused: bool) {
    && HasText(body) && |body| <= 20000 && HasText(key) && |key| <= 128
    && granted && channel < |s.channels| && (actor, key) !in s.receipts
    && (thread.Some? ==> thread.value < |s.messages| && s.messages[thread.value].channel == channel)
    && (actor.Agent? ==>
      && !paused && |PostedWithin(s.messages, actor, s.now - 3600, None)| < s.limits.hourly
      && forall root :: JoinsThread(s.messages, thread, root) ==>
        !AgentsOnly(s.messages, channel, root, s.limits.streak))
  }

  lemma {:induction false} MayPostIff(s: Board, tx: nat, actor: Principal, channel: nat, body: string,
      thread: Option<nat>, key: string, granted: bool, paused: bool)
    requires tx !in s.pending && !Locked(s, channel)
    ensures MayPost(s, tx, actor, channel, body, thread, key, granted, paused) <==>
      Postable(s, actor, channel, body, thread, key, granted, paused)
  {
    hide Locked, GuardsPass, AgentsOnly, PostedWithin, Blank, HasText;
    TextIff(body);
    TextIff(key);
    if thread.Some? ==> thread.value < |s.messages| { GuardsIff(s, actor, channel, thread); }
  }

  lemma {:induction false} TextIff(s: string)
    ensures HasText(s) <==> !Blank(s)
  {
  }

  lemma {:induction false} GuardsIff(s: Board, actor: Principal, channel: nat, thread: Option<nat>)
    requires thread.Some? ==> thread.value < |s.messages|
    ensures GuardsPass(s, actor, channel, RootOf(s.messages, thread)) <==> (actor.Agent? ==>
      && |PostedWithin(s.messages, actor, s.now - 3600, None)| < s.limits.hourly
      && forall root :: JoinsThread(s.messages, thread, root) ==>
        !AgentsOnly(s.messages, channel, root, s.limits.streak))
  {
    hide StreakReached, Posted, PostedWithin;
    var root := RootOf(s.messages, thread);
    PostedIsWithin(s.messages, actor, s.now - HOUR, None);
    StreakIff(s.messages, channel, root, s.limits.streak);
    assert JoinsThread(s.messages, thread, root);
  }

  /** The reason for which a post is refused, in the order of the checks; a key in use is a replay, or a conflict. */
  ghost function RefusedFor(s: Board, actor: Principal, channel: nat, body: string, thread: Option<nat>, key: string,
      granted: bool, paused: bool): Option<Outcome> {
    if !GoodBody(body) then Some(InvalidRequest)
    else if channel >= |s.channels| || !granted then Some(NotFound)
    else if !GoodKey(key) then Some(InvalidRequest)
    else if (actor, key) in s.receipts then
      (if s.receipts[(actor, key)].request == PostRequest(channel, body, thread) then None else Some(Conflict))
    else if thread.Some? && (thread.value >= |s.messages| || s.messages[thread.value].channel != channel) then
      Some(NotFound)
    else if actor.Agent? && (paused || !GuardsPass(s, actor, channel, RootOf(s.messages, thread))) then Some(Blocked)
    else None
  }

  class MessageBus {
    const limits: Limits
    var now: int
    var workspaces: seq<Workspace>
    var channels: seq<Channel>
    var messages: seq<Message>
    var replyCounts: seq<nat>
    var members: map<(nat, Principal), Member>
    var nextRow: nat
    var items: map<(nat, Principal), Item>
    var receipts: map<(Principal, string), Receipt>
    var pending: map<nat, Tx>
    var answers: seq<Return>

    constructor (limits: Limits)
      ensures Now() == Empty(limits) && Inv(Now())
    {
      this.limits := limits;
      now, workspaces, channels, messages, replyCounts := 0, [], [], [], [];
      members, nextRow, items, receipts, pending, answers := map[], 0, map[], map[], map[], [];
      new;
      EmptyInv(limits);
    }

    function Now(): Board
      reads this
    {
      Board(limits, now, workspaces, channels, messages, replyCounts, members, nextRow, items, receipts, pending,
        answers)
    }

    ghost predicate At(tx: nat, t: Tx)
      reads this
    {
      tx in pending && pending[tx] == t && Inv(Now())
    }

    /** Put back, or take over, a whole state of the tables. */
    method Become(b: Board)
      requires b.limits == limits
      modifies this
      ensures Now() == b
    {
      now, workspaces, channels, messages := b.now, b.workspaces, b.channels, b.messages;
      replyCounts, members, nextRow, items := b.replyCounts, b.members, b.nextRow, b.items;
      receipts, pending, answers := b.receipts, b.pending, b.answers;
    }

    method Follow(tx: nat, a: Action)
      requires tx in pending && Inv(Now()) && Enabled(Now(), a) && TxOf(a) != Some(tx)
      modifies this
      ensures Now() == Apply(old(Now()), a) && At(tx, old(pending[tx])) && old(now) <= now
    {
      StepKeepsInv(Now(), a);
      OthersLeaveMine(Now(), a, tx);
      LimitsAreFixed(Now(), a);
      ghost var after := Apply(Now(), a);
      Become(Apply(Now(), a));
      assert now == after.now && pending == after.pending;
    }

    /** Whatever other transactions do meanwhile. */
    method Interfere(tx: nat, others: seq<Action>)
      requires tx in pending && Inv(Now())
      modifies this
      ensures At(tx, old(pending[tx])) && old(now) <= now
      ensures others == [] ==> Now() == old(Now())
    {
      for k := 0 to |others|
        invariant At(tx, old(pending[tx])) && old(now) <= now
        invariant others == [] ==> Now() == old(Now())
      {
        if Enabled(Now(), others[k]) && TxOf(others[k]) != Some(tx) { Follow(tx, others[k]); }
      }
    }

    // ---------------------------------------------------------------- receipts

    /** check_receipt: the earlier result, a refusal, or nothing for a new key. */
    method CheckReceipt(actor: Principal, key: string, request: Request) returns (r: Option<Outcome>)
      requires Inv(Now())
      modifies this`answers
      ensures Inv(Now())
      ensures r.None? <==> GoodKey(key) && (actor, key) !in receipts
      ensures r == Some(InvalidRequest) <==> !GoodKey(key)
      ensures r == Some(Conflict) <==>
        GoodKey(key) && (actor, key) in receipts && receipts[(actor, key)].request != request
      ensures r.Some? && r.value.Replayed? ==>
        Enabled(old(Now()), Replay(actor, key, request)) && r.value.id == receipts[(actor, key)].result
      ensures Now() == if r.Some? && r.value.Replayed? then Apply(old(Now()), Replay(actor, key, request))
        else old(Now())
      ensures r.Some? ==> r.value in {InvalidRequest, Conflict} || r.value.Replayed?
    {
      if !GoodKey(key) { return Some(InvalidRequest); }
      if (actor, key) !in receipts { return None; }
      if receipts[(actor, key)].request != request { return Some(Conflict); }
      StepKeepsInv(Now(), Replay(actor, key, request));
      var result := receipts[(actor, key)].result;
      answers := answers + [Return(actor, key, request, result)];
      r := Some(Replayed(result));
    }

    /** store_receipt: the unique constraint refuses a second receipt of one actor and key. */
    method StoreReceipt(actor: Principal, key: string, request: Request, result: nat) returns (ok: bool)
      modifies this`receipts, this`answers
      ensures ok <==> (actor, key) !in old(receipts)
      ensures Now() == if ok then Recorded(old(Now()), actor, key, request, result) else old(Now())
    {
      if (actor, key) in receipts { return false; }
      receipts := receipts[(actor, key) := Receipt(request, result)];
      answers := answers + [Return(actor, key, request, result)];
      ok := true;
    }

    // ---------------------------------------------------------------- inbox fan-out

    /** The bulk_create of _deliver: one unread item per active recipient. */
    static function RowsOf(reasons: map<Principal, Reason>, active: set<Principal>,
        message: nat): map<(nat, Principal), Item> {
      map p | p in reasons && p in active :: (message, p) := Item(reasons[p], true)
    }

    lemma {:induction false} RowsAreNew(reasons: map<Principal, Reason>, message: nat, kind: Kind,
        thread: set<Principal>, author: Principal, a: Audience)
      requires forall p :: p in reasons <==>
        p != author && p in a.readers && (a.readers[p] in a.mentions || kind.Direct? || p in thread)
      requires forall p :: p in reasons ==>
        reasons[p] == if a.readers[p] in a.mentions then Mention else if kind.Direct? then DirectMessage else Reply
      ensures RowsOf(reasons, a.active, message) == NewItems(a, kind, thread, author, message)
    {
      forall p ensures ReasonFor(a, kind, thread, author, p) == if p in reasons && p in a.active then Some(reasons[p])
        else None { }
    }

    /** One loop of _deliver: everyone in `who` without a reason gets this one. */
    method SetDefaults(reasons: map<Principal, Reason>, who: set<Principal>, reason: Reason)
      returns (r: map<Principal, Reason>)
      ensures r.Keys == reasons.Keys + who
      ensures forall p :: p in r ==> r[p] == if p in reasons then reasons[p] else reason
    {
      r := reasons;
      var left := who;
      while left != {}
        invariant left <= who && r.Keys == reasons.Keys + (who - left)
        invariant forall p :: p in r ==> r[p] == if p in reasons then reasons[p] else reason
      {
        var p :| p in left;
        if p !in r { r := r[p := reason]; }
        left := left - {p};
      }
    }

    /**
    The reasons dict of _deliver: mentions, then the other side of a direct channel, then the thread; never the
    author.
    */
    method Reasons(kind: Kind, thread: Option<set<Principal>>, author: Principal, a: Audience)
      returns (reasons: map<Principal, Reason>)
      ensures forall p :: p in reasons <==>
        p != author && p in a.readers
          && (a.readers[p] in a.mentions || kind.Direct? || (thread.Some? && p in thread.value))
      ensures forall p :: p in reasons ==>
        reasons[p] == if a.readers[p] in a.mentions then Mention else if kind.Direct? then DirectMessage else Reply
    {
      reasons := SetDefaults(map[], (set p | p in a.readers && a.readers[p] in a.mentions), Mention);
      if kind.Direct? { reasons := SetDefaults(reasons, a.readers.Keys, DirectMessage); }
      assert forall p :: p in reasons <==> p in a.readers && (a.readers[p] in a.mentions || kind.Direct?);
      if thread.Some? { reasons := SetDefaults(reasons, a.readers.Keys * thread.value, Reply); }
      reasons := reasons - {author};
    }

    /** _deliver */
    method Deliver(message: nat, kind: Kind, root: Option<nat>, author: Principal, a: Audience)
      modifies this`items
      ensures items == old(items) + NewItems(a, kind, Participants(messages, root), author, message)
    {
      var participants := Participants(messages, root);
      var reasons := Reasons(kind, if root.Some? then Some(participants) else None, author, a);
      RowsAreNew(reasons, message, kind, participants, author, a);
      items := items + RowsOf(reasons, a.active, message);
    }

    // ---------------------------------------------------------------- post_message

    /** get_or_create of a ChannelMember. */
    method GetOrCreateMember(channel: nat, p: Principal)
      modifies this`members, this`nextRow
      ensures Now() == Joined(old(Now()), channel, p) && (channel, p) in members
    {
      if (channel, p) !in members {
        members := members[(channel, p) := Member(nextRow, 0)];
        nextRow := nextRow + 1;
      }
    }

    /**
    The checks of post_message, under the channel lock, which select_for_update has waited for.
    `granted` is the answer of the access checks and `paused` the flag of the workspace.
    */
    method CheckPost(tx: nat, actor: Principal, channel: nat, body: string, thread: Option<nat>, key: string,
        granted: bool, paused: bool)
      returns (r: Option<Outcome>)
      requires tx !in pending && Inv(Now()) && !Locked(Now(), channel)
      modifies this`answers, this`pending
      ensures Inv(Now())
      ensures r.None? <==> MayPost(old(Now()), tx, actor, channel, body, thread, key, granted, paused)
      ensures r.None? ==> Now() == Apply(old(Now()), BeginPost(tx, actor, key, channel, body, thread))
      ensures r.Some? && r.value.Replayed? ==>
        && Enabled(old(Now()), Replay(actor, key, PostRequest(channel, body, thread)))
        && Now() == Apply(old(Now()), Replay(actor, key, PostRequest(channel, body, thread)))
        && r.value.id == receipts[(actor, key)].result
      ensures r.Some? && !r.value.Replayed? ==>
        && Now() == old(Now()) && r.value in {InvalidRequest, NotFound, Conflict, Blocked}
        && r == RefusedFor(old(Now()), actor, channel, body, thread, key, granted, paused)
      ensures r.None? || r.value.Replayed? ==>
        RefusedFor(old(Now()), actor, channel, body, thread, key, granted, paused).None?
    {
      if !GoodBody(body) { return Some(InvalidRequest); }
      if channel >= |channels| || !granted { return Some(NotFound); }
      var replay := CheckReceipt(actor, key, PostRequest(channel, body, thread));
      if replay.Some? { return replay; }
      var root: Option<nat> := None;
      if thread.Some? {
        if thread.value >= |messages| || messages[thread.value].channel != channel { return Some(NotFound); }
        root := thread;
        if messages[thread.value].root.Some? { root := messages[thread.value].root; }
      }
      if actor.Agent? {
        if paused { return Some(Blocked); }
        if Posted(messages, actor, now - HOUR, None) >= limits.hourly { return Some(Blocked); }
        if StreakReached(Flags(messages, channel, root), limits.streak) { return Some(Blocked); }
      }
      StepKeepsInv(Now(), BeginPost(tx, actor, key, channel, body, thread));
      pending := pending[tx := Posting(actor, key, channel, body, thread, root, now)];
      r := None;
    }

    /** The bump of last_seq, the insert, and the reply count of the root. */
    method InsertRow(t: Tx, at: int) returns (id: nat)
      requires t.Posting? && t.channel < |channels|
      modifies this`channels, this`messages, this`replyCounts
      ensures id == |old(messages)|
      ensures var next := old(channels)[t.channel].lastSeq + 1;
        && channels == old(channels)[t.channel := old(channels)[t.channel].(lastSeq := next)]
        && messages == old(messages) + [Message(t.channel, next, t.actor, t.root, t.body, at, t.key)]
      ensures replyCounts == (if t.root.Some? && t.root.value < |old(replyCounts)|
        then old(replyCounts)[t.root.value := old(replyCounts)[t.root.value] + 1] else old(replyCounts)) + [0]
    {
      id := |messages|;
      channels := channels[t.channel := channels[t.channel].(lastSeq := channels[t.channel].lastSeq + 1)];
      messages := messages + [Message(t.channel, channels[t.channel].lastSeq, t.actor, t.root, t.body, at, t.key)];
      if t.root.Some? && t.root.value < |replyCounts| {
        replyCounts := replyCounts[t.root.value := replyCounts[t.root.value] + 1];
      }
      replyCounts := replyCounts + [0];
    }

    /** The author has read its own message; returns who may read the channel now. */
    method MoveOwnCursor(channel: nat, p: Principal, audience: Audience) returns (readers: Audience)
      requires channel < |channels|
      modifies this`members, this`nextRow
      ensures var j := Joined(old(Now()), channel, p);
        && (channel, p) in j.members
        && members == j.members[(channel, p) := j.members[(channel, p)].(read := channels[channel].lastSeq)]
        && nextRow == j.nextRow && readers == ReadersOf(audience, channels[channel].kind, j.members, channel)
    {
      GetOrCreateMember(channel, p);
      readers := ReadersOf(audience, channels[channel].kind, members, channel);
      members := members[(channel, p) := members[(channel, p)].(read := channels[channel].lastSeq)];
    }

    lemma {:induction false} JoinedAlike(s: Board, u: Board, c: nat, p: Principal)
      requires s.members == u.members && s.nextRow == u.nextRow
      ensures var j := Joined(s, c, p);
        j.members == Joined(u, c, p).members && j.nextRow == Joined(u, c, p).nextRow && (c, p) in j.members
      ensures var j := Joined(s, c, p); s == j.(members := s.members, nextRow := s.nextRow)
    {
    }

    /** The writes up to the inbox items. */
    method InsertMessage(t: Tx, at: int, audience: Audience) returns (id: nat)
      requires t.Posting? && t.channel < |channels|
      modifies this`channels, this`messages, this`replyCounts, this`members, this`nextRow, this`items
      ensures id == |old(messages)| && Now() == Inserted(old(Now()), t, at, audience)
    {
      hide NewItems, ReadersOf, Participants, Joined;
      id := InsertRow(t, at);
      JoinedAlike(old(Now()), Now(), t.channel, t.actor);
      var readers := MoveOwnCursor(t.channel, t.actor, audience);
      Deliver(id, channels[t.channel].kind, t.root, t.actor, readers);
    }

    /** The message is the newest of its channel, read by its author, and under its receipt. */
    predicate MessageStands(id: nat, actor: Principal, channel: nat, body: string, thread: Option<nat>, key: string)
      reads this
    {
      && id < |messages| && channel < |channels| && messages[id].author == actor && messages[id].channel == channel
      && messages[id].body == body && messages[id].seqNo == channels[channel].lastSeq
      && (channel, actor) in members && members[(channel, actor)].read == messages[id].seqNo
      && (actor, key) in receipts && receipts[(actor, key)] == Receipt(PostRequest(channel, body, thread), id)
    }

    /** Write the message, then its receipt; if another transaction took the key first, nothing remains. */
    method WritePost(tx: nat, t: Tx, at: int, audience: Audience) returns (r: Outcome)
      requires At(tx, t) && t.Posting? && t.checkedAt <= at <= now
      modifies this
      ensures Enabled(old(Now()), CommitPost(tx, at, audience))
        && Now() == Apply(old(Now()), CommitPost(tx, at, audience))
      ensures Inv(Now())
      ensures r == if (t.actor, t.key) in old(receipts) then Conflict else Made(old(|messages|))
      ensures r.Made? ==> MessageStands(r.id, t.actor, t.channel, t.body, t.thread, t.key)
    {
      assert TxOk(Now(), tx);
      ghost var before := Now();
      StepKeepsInv(before, CommitPost(tx, at, audience));
      var saved := Now();
      var id := InsertMessage(t, at, audience);
      var ok := StoreReceipt(t.actor, t.key, PostRequest(t.channel, t.body, t.thread), id);
      if !ok {
        Become(saved.(pending := saved.pending - {tx}));
        return Conflict;
      }
      pending := pending - {tx};
      r := Made(id);
    }

    /**
    post_message. `others` is what other transactions do between its checks and its writes; if
    one of them stores a receipt under the same actor and key, the message is rolled back.
    */
    method PostMessage(tx: nat, actor: Principal, channel: nat, body: string, thread: Option<nat>, key: string,
                       granted: bool, paused: bool, audience: Audience, others: seq<Action>) returns (r: Outcome)
      requires tx !in pending && Inv(Now()) && !Locked(Now(), channel)
      modifies this
      ensures Inv(Now())
      ensures r.Made? ==>
        Postable(old(Now()), actor, channel, body, thread, key, granted, paused)
        && MessageStands(r.id, actor, channel, body, thread, key)
      ensures others == [] && Postable(old(Now()), actor, channel, body, thread, key, granted, paused) ==>
        r == Made(old(|messages|))
      ensures r.Replayed? ==> messages == old(messages) && items == old(items) && receipts == old(receipts)
      ensures var refused := RefusedFor(old(Now()), actor, channel, body, thread, key, granted, paused);
        if refused.Some? then r == refused.value && Now() == old(Now()) else r.Made? || r.Replayed? || r == Conflict
    {
      hide Inv, Postable, RefusedFor;
      MayPostIff(Now(), tx, actor, channel, body, thread, key, granted, paused);
      var refused := CheckPost(tx, actor, channel, body, thread, key, granted, paused);
      if refused.Some? { return refused.value; }
      Interfere(tx, others);
      r := WritePost(tx, pending[tx], now, audience);
    }

    // ---------------------------------------------------------------- create_workspace, create_channel

    /**
    The checks of both commands: `allowed` is the answer of validation and access; only then comes a replay, and then
    the pause.
    */
    method CheckCreate(tx: nat, actor: Principal, request: Request, key: string, allowed: bool, paused: bool)
      returns (r: Option<Outcome>)
      requires tx !in pending && Inv(Now()) && !request.PostRequest?
      modifies this`answers, this`pending
      ensures Inv(Now())
      ensures r.None? <==>
        allowed && GoodKey(key) && !(actor.Agent? && paused)
        && Enabled(old(Now()), BeginCreate(tx, actor, key, request))
      ensures r.None? ==> Now() == Apply(old(Now()), BeginCreate(tx, actor, key, request))
      ensures r.Some? && r.value.Replayed? ==>
        && Enabled(old(Now()), Replay(actor, key, request)) && Now() == Apply(old(Now()), Replay(actor, key, request))
        && r.value.id == receipts[(actor, key)].result
      ensures r.Some? && !r.value.Replayed? ==>
        && Now() == old(Now())
        && r.value == if !allowed then NotFound else if !GoodKey(key) then InvalidRequest
                      else if (actor, key) in old(receipts) then Conflict else Blocked
      ensures r == Some(Blocked) ==> actor.Agent? && paused
    {
      if !allowed { return Some(NotFound); }
      r := CheckReceipt(actor, key, request);
      if r.Some? { return; }
      if actor.Agent? && paused { return Some(Blocked); }
      StepKeepsInv(Now(), BeginCreate(tx, actor, key, request));
      pending := pending[tx := Creating(actor, key, request)];
    }

    method WriteWorkspace(tx: nat, t: Tx) returns (r: Outcome)
      requires At(tx, t) && t.Creating? && t.request.WorkspaceRequest?
      modifies this
      ensures Enabled(old(Now()), CommitCreate(tx)) && Now() == Apply(old(Now()), CommitCreate(tx)) && Inv(Now())
      ensures r == if (t.actor, t.key) in old(receipts) then Conflict else Made(old(|workspaces|))
    {
      StepKeepsInv(Now(), CommitCreate(tx));
      var saved := Now();
      r := Made(|workspaces|);
      workspaces := workspaces + [Workspace(t.request.name, t.request.description, t.actor, t.key)];
      var ok := StoreReceipt(t.actor, t.key, t.request, r.id);
      if !ok {
        Become(saved.(pending := saved.pending - {tx}));
        return Conflict;
      }
      pending := pending - {tx};
    }

    /** The channel is as requested, empty, joined by its creator, and under its receipt. */
    predicate ChannelStands(id: nat, actor: Principal, request: Request, key: string)
      requires request.ChannelRequest?
      reads this
    {
      && id < |channels|
      && channels[id] == Channel(request.workspace, request.kind, request.name, 0, Some((actor, key)))
      && (id, actor) in members && (actor, key) in receipts && receipts[(actor, key)] == Receipt(request, id)
    }

    method InsertChannel(request: Request, actor: Principal, key: string) returns (id: nat)
      requires request.ChannelRequest?
      modifies this`channels, this`members, this`nextRow
      ensures id == |old(channels)| && (id, actor) in members
      ensures var ch := Channel(request.workspace, request.kind, request.name, 0, Some((actor, key)));
        Now() == Joined(old(Now()).(channels := old(channels) + [ch]), id, actor)
    {
      id := |channels|;
      channels := channels + [Channel(request.workspace, request.kind, request.name, 0, Some((actor, key)))];
      GetOrCreateMember(id, actor);
    }

    /** The unique constraint on channel names, then the creator's own membership, then the receipt. */
    method WriteChannel(tx: nat, t: Tx) returns (r: Outcome)
      requires At(tx, t) && t.Creating? && t.request.ChannelRequest? && !t.request.kind.Direct?
      modifies this
      ensures Enabled(old(Now()), CommitCreate(tx)) && Now() == Apply(old(Now()), CommitCreate(tx)) && Inv(Now())
      ensures r == if (t.actor, t.key) in old(receipts)
        || NameTaken(old(Now()), t.request.workspace, t.request.name) then Conflict else Made(old(|channels|))
      ensures r.Made? ==> ChannelStands(r.id, t.actor, t.request, t.key)
    {
      StepKeepsInv(Now(), CommitCreate(tx));
      if NameTaken(Now(), t.request.workspace, t.request.name) {
        pending := pending - {tx};
        return Conflict;
      }
      var saved := Now();
      var id := InsertChannel(t.request, t.actor, t.key);
      r := Made(id);
      var ok := StoreReceipt(t.actor, t.key, t.request, r.id);
      if !ok {
        Become(saved.(pending := saved.pending - {tx}));
        return Conflict;
      }
      pending := pending - {tx};
    }

    /** create_workspace */
    method CreateWorkspace(tx: nat, actor: Principal, name: string, description: string, key: string, allowed: bool,
        others: seq<Action>)
      returns (r: Outcome)
      requires tx !in pending && Inv(Now())
      modifies this
      ensures Inv(Now())
      ensures r.Made? ==>
        && r.id < |workspaces| && workspaces[r.id] == Workspace(name, description, actor, key)
        && (actor, key) in receipts && receipts[(actor, key)] == Receipt(WorkspaceRequest(name, description), r.id)
      ensures r.Replayed? ==> workspaces == old(workspaces) && receipts == old(receipts)
      ensures others == [] && allowed && GoodKey(key) && (actor, key) !in old(receipts) ==> r == Made(old(|workspaces|))
    {
      var refused := CheckCreate(tx, actor, WorkspaceRequest(name, description), key, allowed, false);
      if refused.Some? { return refused.value; }
      Interfere(tx, others);
      r := WriteWorkspace(tx, pending[tx]);
    }

    /** create_channel */
    method CreateChannel(tx: nat, actor: Principal, workspace: nat, name: string, kind: Kind, topic: string,
        key: string, allowed: bool, paused: bool, others: seq<Action>)
      returns (r: Outcome)
      requires tx !in pending && Inv(Now())
      modifies this
      ensures Inv(Now())
      ensures r.Made? ==>
        !kind.Direct? && ChannelStands(r.id, actor, ChannelRequest(workspace, name, kind, topic), key)
      ensures r.Replayed? ==> channels == old(channels) && receipts == old(receipts)
      ensures (&& others == [] && allowed && !kind.Direct? && GoodKey(key) && !(actor.Agent? && paused)
               && (actor, key) !in old(receipts) && !NameTaken(old(Now()), workspace, name))
        ==> r == Made(old(|channels|))
    {
      if kind.Direct? { return InvalidRequest; }
      var refused := CheckCreate(tx, actor, ChannelRequest(workspace, name, kind, topic), key, allowed, paused);
      if refused.Some? { return refused.value; }
      Interfere(tx, others);
      r := WriteChannel(tx, pending[tx]);
    }

    // ---------------------------------------------------------------- mark_read

    /** The reads of mark_read: the sequence number is cut to what the channel has. */
    method StartRead(tx: nat, actor: Principal, channel: nat, upTo: int)
      requires tx !in pending && Inv(Now()) && channel < |channels|
      modifies this`pending
      ensures Now() == Apply(old(Now()), BeginRead(tx, actor, channel, upTo)) && Inv(Now()) && tx in pending
    {
      StepKeepsInv(Now(), BeginRead(tx, actor, channel, upTo));
      var k := (channel, actor);
      var cut := if upTo < 0 then 0 else if upTo <= channels[channel].lastSeq then upTo else channels[channel].lastSeq;
      pending := pending[tx := if k in members then Reading(actor, channel, cut, Some(members[k].row), members[k].read)
                               else Reading(actor, channel, cut, None, 0)];
    }

    /** The save of the cursor, which fails if the row was deleted meanwhile, then the inbox items up to it. */
    method SaveCursor(t: Tx) returns (r: Outcome)
      requires t.Reading?
      modifies this`members, this`nextRow, this`items
      ensures r == DatabaseError <==> RowGone(old(Now()), t)
      ensures r == DatabaseError || (r.Read? && t.upTo <= r.cursor)
      ensures r.Read? ==>
        if t.row.Some? && t.upTo <= t.seen then r.cursor == t.seen
        else (t.channel, t.actor) in members && r.cursor == members[(t.channel, t.actor)].read
      ensures Now() == if r == DatabaseError then old(Now()) else ReadUpTo(old(Now()), t)
    {
      var k := (t.channel, t.actor);
      if t.row.None? {
        GetOrCreateMember(t.channel, t.actor);
        r := Read(Max(members[k].read, t.upTo));
        members := members[k := members[k].(read := r.cursor)];
      } else if t.seen < t.upTo {
        if k !in members || members[k].row != t.row.value { return DatabaseError; }
        members := members[k := members[k].(read := t.upTo)];
        r := Read(t.upTo);
      } else {
        r := Read(t.seen);
      }
      items := MarkSeen(items, messages, t.actor, t.channel, t.upTo);
    }

    method FinishRead(tx: nat, t: Tx) returns (r: Outcome)
      requires At(tx, t) && t.Reading?
      modifies this`members, this`nextRow, this`items, this`pending
      ensures Enabled(old(Now()), CommitRead(tx)) && Now() == Apply(old(Now()), CommitRead(tx)) && Inv(Now())
      ensures r == DatabaseError <==> RowGone(old(Now()), t)
      ensures r == DatabaseError || (r.Read? && t.upTo <= r.cursor)
      ensures r.Read? ==>
        if t.row.Some? && t.upTo <= t.seen then r.cursor == t.seen
        else (t.channel, t.actor) in members && r.cursor == members[(t.channel, t.actor)].read
    {
      StepKeepsInv(Now(), CommitRead(tx));
      r := SaveCursor(t);
      pending := pending - {tx};
    }

    /** mark_read */
    method MarkRead(tx: nat, actor: Principal, channel: nat, upTo: int, granted: bool, others: seq<Action>)
      returns (r: Outcome)
      requires tx !in pending && Inv(Now())
      modifies this
      ensures Inv(Now())
      ensures r == NotFound <==> !granted || channel >= old(|channels|)
      ensures r == NotFound ==> Now() == old(Now())
      ensures others == [] && r != NotFound ==>
        var begun := Apply(old(Now()), BeginRead(tx, actor, channel, upTo));
        Enabled(begun, CommitRead(tx)) && Now() == Apply(begun, CommitRead(tx))
      ensures others == [] && r != NotFound ==> (channel, actor) in members && r == Read(members[(channel, actor)].read)
    {
      if channel >= |channels| || !granted { return NotFound; }
      StartRead(tx, actor, channel, upTo);
      Interfere(tx, others);
      r := FinishRead(tx, pending[tx]);
    }
  }
}
