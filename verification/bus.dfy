/**
The workspace message bus (messaging.py, and the receipts of services.py) as a state
machine of transactions. A transaction first checks its idempotency receipt; a message
also locks its channel and passes the agent guards. Later it commits all its writes,
or rolls all of them back. Between the two, transactions on other channels go on.
The code of one call is in `BusCode`.
*/
module Bus {
  import opened Wrappers
  import Runs

  datatype Principal = Agent(id: string) | User(id: string)

  datatype Kind = Public | Private | Direct

  /** `origin` remembers the actor and key of create_channel; a direct channel has none. */
  datatype Channel = Channel(workspace: nat, kind: Kind, name: string, lastSeq: nat,
    origin: Option<(Principal, string)>)

  /** A message; its primary key is its index. `key` remembers the idempotency key it was posted under. */
  datatype Message = Message(channel: nat, seqNo: nat, author: Principal, root: Option<nat>, body: string, at: int,
    key: string)

  datatype Workspace = Workspace(name: string, description: string, createdBy: Principal, key: string)

  datatype Reason = Mention | DirectMessage | Reply

  datatype Item = Item(reason: Reason, unread: bool)

  /** A ChannelMember row with its primary key: a member who left and came back has a new row. */
  datatype Member = Member(row: nat, read: nat)

  /** The command of a request with its payload; digests are taken to be injective. */
  datatype Request =
    | PostRequest(channel: nat, body: string, thread: Option<nat>)
    | WorkspaceRequest(name: string, description: string)
    | ChannelRequest(workspace: nat, name: string, kind: Kind, topic: string)

  datatype Receipt = Receipt(request: Request, result: nat)

  /** A successful return to a caller, of the first call or of a replay. */
  datatype Return = Return(actor: Principal, key: string, request: Request, result: nat)

  /** The handles of the principals who may read, the handles a body mentions, and the active principals. */
  datatype Audience = Audience(readers: map<Principal, string>, mentions: set<string>, active: set<Principal>)

  /** A transaction that has read but not yet written. `checkedAt` is the clock its guards read. */
  datatype Tx =
    | Posting(actor: Principal, key: string, channel: nat, body: string, thread: Option<nat>, root: Option<nat>,
      checkedAt: int)
    | Creating(actor: Principal, key: string, request: Request)
    | Reading(actor: Principal, channel: nat, upTo: nat, row: Option<nat>, seen: nat)

  /** WORKSPACE_AGENT_MESSAGES_PER_HOUR and WORKSPACE_MAX_AGENT_STREAK. */
  datatype Limits = Limits(hourly: nat, streak: nat)

  /**
  The tables. `replyCounts` is a column of the messages. `answers` is history: every successful return.
  */
  datatype Board = Board(
    limits: Limits, now: int, workspaces: seq<Workspace>, channels: seq<Channel>,
    messages: seq<Message>, replyCounts: seq<nat>,
    members: map<(nat, Principal), Member>, nextRow: nat, items: map<(nat, Principal), Item>,
    receipts: map<(Principal, string), Receipt>, pending: map<nat, Tx>, answers: seq<Return>)

  const HOUR := 3600

  // ------------------------------------------------------------------ queries

  /** The messages of one thread, or of the top level of a channel, in order: true where the author is an agent. */
  function Flags(ms: seq<Message>, channel: nat, root: Option<nat>): seq<bool> {
    if ms == [] then [] else
      var last := ms[|ms| - 1];
      Flags(ms[..|ms| - 1], channel, root) + if last.channel == channel && last.root == root then [last.author.Agent?]
        else []
  }

  function Seqs(ms: seq<Message>, channel: nat): seq<nat> {
    if ms == [] then [] else
      var last := ms[|ms| - 1];
      Seqs(ms[..|ms| - 1], channel) + if last.channel == channel then [last.seqNo] else []
  }

  function CountUp(n: nat): seq<nat> {
    seq(n, i requires 0 <= i < n => i + 1)
  }

  function Replies(ms: seq<Message>, root: nat): nat {
    if ms == [] then 0 else Replies(ms[..|ms| - 1], root) + if ms[|ms| - 1].root == Some(root) then 1 else 0
  }

  /** The messages of one author since `from`, up to `to` if there is such a bound. */
  function Posted(ms: seq<Message>, author: Principal, from: int, to: Option<int>): nat {
    if ms == [] then 0 else
      var last := ms[|ms| - 1];
      Posted(ms[..|ms| - 1], author, from, to)
        + if last.author == author && from <= last.at && (to.None? || last.at <= to.value) then 1 else 0
  }

  /** The newest `limit` messages exist and are all by agents. */
  predicate StreakReached(flags: seq<bool>, limit: nat) {
    |flags| >= limit && forall i :: |flags| - limit <= i < |flags| ==> flags[i]
  }

  /** _check_agent_guards: people are never limited. */
  predicate GuardsPass(s: Board, actor: Principal, channel: nat, root: Option<nat>) {
    actor.Agent? ==>
      && Posted(s.messages, actor, s.now - HOUR, None) < s.limits.hourly
      && !StreakReached(Flags(s.messages, channel, root), s.limits.streak)
  }

  /** Replies to replies join the same thread. */
  function RootOf(ms: seq<Message>, thread: Option<nat>): Option<nat>
    requires thread.Some? ==> thread.value < |ms|
  {
    if thread.Some? && ms[thread.value].root.Some? then ms[thread.value].root else thread
  }

  function Authors(ms: seq<Message>, root: nat): set<Principal> {
    if ms == [] then {}
    else Authors(ms[..|ms| - 1], root) + if ms[|ms| - 1].root == Some(root) then {ms[|ms| - 1].author} else {}
  }

  /** Everyone who wrote in a thread, with the author of its root. */
  function Participants(ms: seq<Message>, root: Option<nat>): set<Principal> {
    match root
    case None => {}
    case Some(r) => Authors(ms, r) + if r < |ms| then {ms[r].author} else {}
  }

  /** Why a principal hears of a message, if it does: a mention before a direct message before a thread reply. */
  function ReasonFor(a: Audience, kind: Kind, participants: set<Principal>, author: Principal,
      p: Principal): Option<Reason> {
    if p == author || p !in a.readers || p !in a.active then None
    else if a.readers[p] in a.mentions then Some(Mention)
    else if kind.Direct? then Some(DirectMessage)
    else if p in participants then Some(Reply)
    else None
  }

  function NewItems(a: Audience, kind: Kind, participants: set<Principal>, author: Principal,
      message: nat): map<(nat, Principal), Item> {
    map p | p in a.readers && ReasonFor(a, kind, participants, author, p).Some?
      :: (message, p) := Item(ReasonFor(a, kind, participants, author, p).value, true)
  }

  /** A private or direct channel is read by its members only. */
  function ReadersOf(a: Audience, kind: Kind, members: map<(nat, Principal), Member>, channel: nat): Audience {
    if kind.Public? then a else a.(readers := map p | p in a.readers && (channel, p) in members :: a.readers[p])
  }

  function MarkSeen(items: map<(nat, Principal), Item>, ms: seq<Message>, p: Principal, channel: nat,
      upTo: nat): map<(nat, Principal), Item> {
    map k | k in items :: items[k].(unread := items[k].unread
      && !(k.1 == p && k.0 < |ms| && ms[k.0].channel == channel && ms[k.0].seqNo <= upTo))
  }

  // ------------------------------------------------------------------ the machine

  /** Refused calls change nothing, and are no actions. `Replay` is the return of an earlier result by check_receipt. */
  datatype Action =
    | Tick(to: int)
    | Replay(actor: Principal, key: string, request: Request)
    | BeginPost(tx: nat, actor: Principal, key: string, channel: nat, body: string, thread: Option<nat>)
    | CommitPost(tx: nat, at: int, audience: Audience)
    | BeginCreate(tx: nat, actor: Principal, key: string, request: Request)
    | CommitCreate(tx: nat)
    | BeginRead(tx: nat, actor: Principal, channel: nat, upTo: int)
    | CommitRead(tx: nat)
    | Rollback(tx: nat)
    | OpenDirect(workspace: nat, one: Principal, other: Principal)
    | Join(channel: nat, principal: Principal)
    | Leave(channel: nat, principal: Principal)

  predicate Locked(s: Board, channel: nat) {
    exists tx :: tx in s.pending && s.pending[tx].Posting? && s.pending[tx].channel == channel
  }

  predicate Enabled(s: Board, a: Action) {
    match a
    case Tick(to) => s.now <= to
    case Replay(actor, key, request) => (actor, key) in s.receipts && s.receipts[(actor, key)].request == request
    case BeginPost(tx, actor, key, channel, _, thread) =>
      && tx !in s.pending && channel < |s.channels| && !Locked(s, channel) && (actor, key) !in s.receipts
      && (thread.Some? ==> thread.value < |s.messages| && s.messages[thread.value].channel == channel)
      && GuardsPass(s, actor, channel, RootOf(s.messages, thread))
    case CommitPost(tx, at, _) =>
      && tx in s.pending && s.pending[tx].Posting? && s.pending[tx].channel < |s.channels|
      && s.pending[tx].checkedAt <= at <= s.now
    case BeginCreate(tx, actor, key, request) =>
      tx !in s.pending && (actor, key) !in s.receipts && !request.PostRequest?
    case CommitCreate(tx) => tx in s.pending && s.pending[tx].Creating?
    case BeginRead(tx, _, channel, _) => tx !in s.pending && channel < |s.channels|
    case CommitRead(tx) => tx in s.pending && s.pending[tx].Reading?
    case Rollback(tx) => tx in s.pending
    case OpenDirect(_, _, _) => true
    case Join(channel, _) => channel < |s.channels|
    case Leave(_, _) => true
  }

  /** get_or_create of a ChannelMember, with the cursor it is given if it is new. */
  function Joined(s: Board, channel: nat, p: Principal): Board {
    if (channel, p) in s.members then s
    else s.(members := s.members[(channel, p) := Member(s.nextRow, 0)], nextRow := s.nextRow + 1)
  }

  function Ended(s: Board, tx: nat): Board {
    s.(pending := s.pending - {tx})
  }

  /** store_receipt, and the return to the caller. */
  function Recorded(s: Board, actor: Principal, key: string, request: Request, result: nat): Board {
    s.(receipts := s.receipts[(actor, key) := Receipt(request, result)],
      answers := s.answers + [Return(actor, key, request, result)])
  }

  /** All the writes of a message, from the bump of last_seq to the inbox items. */
  function Inserted(s: Board, t: Tx, at: int, audience: Audience): Board
    requires t.Posting? && t.channel < |s.channels|
  {
    var c, id := t.channel, |s.messages|;
    var next := s.channels[c].lastSeq + 1;
    var j := Joined(s, c, t.actor);
    var readers := ReadersOf(audience, s.channels[c].kind, j.members, c);
    var messages := s.messages + [Message(c, next, t.actor, t.root, t.body, at, t.key)];
    j.(channels := s.channels[c := s.channels[c].(lastSeq := next)],
       messages := messages,
       replyCounts := (if t.root.Some? && t.root.value < |s.replyCounts|
                       then s.replyCounts[t.root.value := s.replyCounts[t.root.value] + 1] else s.replyCounts) + [0],
       members := j.members[(c, t.actor) := j.members[(c, t.actor)].(read := next)],
       items := s.items + NewItems(readers, s.channels[c].kind, Participants(messages, t.root), t.actor, id))
  }

  /** The row that mark_read compared its sequence number with is deleted by the time it saves. */
  predicate RowGone(s: Board, t: Tx)
    requires t.Reading?
  {
    t.row.Some? && t.seen < t.upTo
      && ((t.channel, t.actor) !in s.members || s.members[(t.channel, t.actor)].row != t.row.value)
  }

  /** The writes of mark_read: a row it saw is overwritten, a row it did not see is created or compared on the spot. */
  function ReadUpTo(s: Board, t: Tx): Board
    requires t.Reading? && !RowGone(s, t)
  {
    var k := (t.channel, t.actor);
    var j := if t.row.None? then Joined(s, t.channel, t.actor) else s;
    j.(members := if t.row.None? then j.members[k := j.members[k].(read := Max(j.members[k].read, t.upTo))]
                  else if t.seen < t.upTo then j.members[k := j.members[k].(read := t.upTo)]
                  else j.members,
       items := MarkSeen(s.items, s.messages, t.actor, t.channel, t.upTo))
  }

  predicate NameTaken(s: Board, workspace: nat, name: string) {
    exists c :: 0 <= c < |s.channels| && s.channels[c].workspace == workspace && !s.channels[c].kind.Direct?
      && s.channels[c].name == name
  }

  function Max0(x: int): nat {
    if x < 0 then 0 else x
  }

  function Max(x: nat, y: nat): nat {
    if x <= y then y else x
  }

  function Min(x: nat, y: nat): nat {
    if x <= y then x else y
  }

  function Apply(s: Board, a: Action): Board
    requires Enabled(s, a)
  {
    match a
    case Tick(to) => s.(now := to)
    case Replay(actor, key, request) =>
      s.(answers := s.answers + [Return(actor, key, request, s.receipts[(actor, key)].result)])
    case BeginPost(tx, actor, key, channel, body, thread) =>
      s.(pending := s.pending[tx := Posting(actor, key, channel, body, thread, RootOf(s.messages, thread), s.now)])
    case CommitPost(tx, at, audience) =>
      var t := s.pending[tx];
      if (t.actor, t.key) in s.receipts then Ended(s, tx)
      else Ended(Recorded(Inserted(s, t, at, audience), t.actor, t.key, PostRequest(t.channel, t.body, t.thread),
        |s.messages|), tx)
    case BeginCreate(tx, actor, key, request) => s.(pending := s.pending[tx := Creating(actor, key, request)])
    case CommitCreate(tx) =>
      var t := s.pending[tx];
      if (t.actor, t.key) in s.receipts then Ended(s, tx)
      else
        (match t.request
         case PostRequest(_, _, _) => Ended(s, tx)
         case WorkspaceRequest(name, description) =>
           Ended(Recorded(s.(workspaces := s.workspaces + [Workspace(name, description, t.actor, t.key)]), t.actor,
             t.key, t.request, |s.workspaces|), tx)
         case ChannelRequest(workspace, name, kind, _) =>
           if NameTaken(s, workspace, name) || kind.Direct? then Ended(s, tx)
           else
             var made := s.(channels := s.channels + [Channel(workspace, kind, name, 0, Some((t.actor, t.key)))]);
             Ended(Recorded(Joined(made, |s.channels|, t.actor), t.actor, t.key, t.request, |s.channels|), tx))
    case BeginRead(tx, actor, channel, upTo) =>
      var k := (channel, actor);
      s.(pending := s.pending[tx := Reading(actor, channel, Min(Max0(upTo), s.channels[channel].lastSeq),
                                            if k in s.members then Some(s.members[k].row) else None,
                                            if k in s.members then s.members[k].read else 0)])
    case CommitRead(tx) =>
      var t := s.pending[tx];
      if RowGone(s, t) then Ended(s, tx) else Ended(ReadUpTo(s, t), tx)
    case Rollback(tx) => Ended(s, tx)
    case OpenDirect(workspace, one, other) =>
      var made := s.(channels := s.channels + [Channel(workspace, Direct, "", 0, None)]);
      Joined(Joined(made, |s.channels|, one), |s.channels|, other)
    case Join(channel, p) => Joined(s, channel, p)
    case Leave(channel, p) => s.(members := s.members - {(channel, p)})
  }

  function Next(s: Board, a: Action): Option<Board> {
    if Enabled(s, a) then Some(Apply(s, a)) else None
  }

  function Empty(limits: Limits): Board {
    Board(limits, 0, [], [], [], [], map[], 0, map[], map[], map[], [])
  }

  function Run(limits: Limits, actions: seq<Action>): Option<Board> {
    Runs.Exec(Next, Empty(limits), actions)
  }

  // ------------------------------------------------------------------ the invariant

  predicate RootFits(s: Board, channel: nat, root: Option<nat>, below: nat)
    requires below <= |s.messages|
  {
    root.Some? ==> root.value < below && s.messages[root.value].root.None? && s.messages[root.value].channel == channel
  }

  predicate ThreadOk(s: Board, i: nat)
    requires i < |s.messages| == |s.replyCounts|
  {
    && s.messages[i].channel < |s.channels|
    && RootFits(s, s.messages[i].channel, s.messages[i].root, i)
    && s.replyCounts[i] == Replies(s.messages, i)
  }

  predicate SeqsOk(s: Board, c: nat)
    requires c < |s.channels|
  {
    Seqs(s.messages, c) == CountUp(s.channels[c].lastSeq)
  }

  predicate MemberOk(s: Board, k: (nat, Principal))
    requires k in s.members
  {
    k.0 < |s.channels| && s.members[k].read <= s.channels[k.0].lastSeq
  }

  ghost predicate Rows(s: Board) {
    && |s.replyCounts| == |s.messages|
    && (forall i :: 0 <= i < |s.messages| ==> ThreadOk(s, i))
    && (forall c :: 0 <= c < |s.channels| ==> SeqsOk(s, c))
    && (forall k :: k in s.members ==> MemberOk(s, k))
  }

  /** A message without thread is top level; a reply joins the thread of the message it answers, or starts it. */
  predicate JoinsThread(ms: seq<Message>, thread: Option<nat>, root: Option<nat>) {
    match thread
    case None => root == None
    case Some(m) => m < |ms| && root == if ms[m].root.Some? then ms[m].root else Some(m)
  }

  predicate TxOk(s: Board, tx: nat)
    requires tx in s.pending
  {
    var t := s.pending[tx];
    match t
    case Posting(actor, _, channel, _, thread, root, _) =>
      && channel < |s.channels| && RootFits(s, channel, root, |s.messages|) && JoinsThread(s.messages, thread, root)
      && (actor.Agent? ==> !StreakReached(Flags(s.messages, channel, root), s.limits.streak))
    case Creating(_, _, request) => !request.PostRequest?
    case Reading(_, channel, upTo, _, _) => channel < |s.channels| && upTo <= s.channels[channel].lastSeq
  }

  /** The row lock of a channel has one holder. */
  ghost predicate OneWriter(s: Board) {
    forall a, b :: a in s.pending && b in s.pending && a != b && s.pending[a].Posting? && s.pending[b].Posting?
      ==> s.pending[a].channel != s.pending[b].channel
  }

  ghost predicate Transactions(s: Board) {
    (forall tx :: tx in s.pending ==> TxOk(s, tx)) && OneWriter(s)
  }

  /** One of the limit + 1 messages from an index on is by a person. */
  predicate HasPerson(flags: seq<bool>, from: nat, limit: nat)
    requires from + limit < |flags|
  {
    exists j :: from <= j <= from + limit && !flags[j]
  }

  /** Among any limit + 1 messages in a row, one is by a person. */
  ghost predicate Calm(flags: seq<bool>, limit: nat) {
    forall i :: 0 <= i < |flags| - limit ==> HasPerson(flags, i, limit)
  }

  ghost predicate Streaks(s: Board) {
    forall c, root :: Calm(Flags(s.messages, c, root), s.limits.streak)
  }

  datatype Effect = MessageMade(id: nat) | WorkspaceMade(id: nat) | ChannelMade(id: nat)

  predicate Exists(s: Board, e: Effect) {
    match e
    case MessageMade(i) => i < |s.messages|
    case WorkspaceMade(i) => i < |s.workspaces|
    case ChannelMade(i) => i < |s.channels|
  }

  /** The actor and key of the command that made a row. */
  function OriginOf(s: Board, e: Effect): Option<(Principal, string)>
    requires Exists(s, e)
  {
    match e
    case MessageMade(i) => Some((s.messages[i].author, s.messages[i].key))
    case WorkspaceMade(i) => Some((s.workspaces[i].createdBy, s.workspaces[i].key))
    case ChannelMade(i) => s.channels[i].origin
  }

  function MadeBy(r: Receipt): Effect {
    match r.request
    case PostRequest(_, _, _) => MessageMade(r.result)
    case WorkspaceRequest(_, _) => WorkspaceMade(r.result)
    case ChannelRequest(_, _, _, _) => ChannelMade(r.result)
  }

  /** The row holds what the request asked for. */
  predicate Fulfils(s: Board, request: Request, id: nat) {
    match request
    case PostRequest(channel, body, thread) =>
      && id < |s.messages| && s.messages[id].channel == channel && s.messages[id].body == body
      && JoinsThread(s.messages, thread, s.messages[id].root)
    case WorkspaceRequest(name, description) =>
      id < |s.workspaces| && s.workspaces[id].name == name && s.workspaces[id].description == description
    case ChannelRequest(workspace, name, kind, _) =>
      id < |s.channels| && s.channels[id].workspace == workspace && s.channels[id].name == name
        && s.channels[id].kind == kind
  }

  predicate EffectOk(s: Board, e: Effect) {
    && Exists(s, e)
    && (OriginOf(s, e).Some? ==> OriginOf(s, e).value in s.receipts && MadeBy(s.receipts[OriginOf(s, e).value]) == e)
  }

  predicate ReceiptOk(s: Board, k: (Principal, string))
    requires k in s.receipts
  {
    var r := s.receipts[k];
    Fulfils(s, r.request, r.result) && Exists(s, MadeBy(r)) && OriginOf(s, MadeBy(r)) == Some(k)
  }

  predicate AnswerOk(s: Board, i: nat)
    requires i < |s.answers|
  {
    var a := s.answers[i];
    (a.actor, a.key) in s.receipts && s.receipts[(a.actor, a.key)] == Receipt(a.request, a.result)
  }

  ghost predicate Books(s: Board) {
    && (forall e :: Exists(s, e) ==> EffectOk(s, e))
    && (forall k :: k in s.receipts ==> ReceiptOk(s, k))
    && (forall i :: 0 <= i < |s.answers| ==> AnswerOk(s, i))
  }

  /** Every item is about a message. */
  ghost predicate Inboxes(s: Board) {
    forall k :: k in s.items ==> k.0 < |s.messages|
  }

  ghost predicate Inv(s: Board) {
    Rows(s) && Transactions(s) && Streaks(s) && Books(s) && Inboxes(s)
  }

  // ------------------------------------------------------------------ one more message

  lemma {:induction false} Appended(ms: seq<Message>, m: Message, c: nat, root: Option<nat>)
    ensures Flags(ms + [m], c, root) == if m.channel == c && m.root == root then Flags(ms, c, root) + [m.author.Agent?]
      else Flags(ms, c, root)
    ensures Seqs(ms + [m], c) == if m.channel == c then Seqs(ms, c) + [m.seqNo] else Seqs(ms, c)
  {
    assert (ms + [m])[..|ms|] == ms;
  }

  lemma {:induction false} RepliesAppended(ms: seq<Message>, m: Message, root: nat)
    ensures Replies(ms + [m], root) == Replies(ms, root) + if m.root == Some(root) then 1 else 0
  {
    assert (ms + [m])[..|ms|] == ms;
  }

  lemma {:induction false} PostedAppended(ms: seq<Message>, m: Message, a: Principal, from: int, to: Option<int>)
    ensures Posted(ms + [m], a, from, to)
         == Posted(ms, a, from, to) + if m.author == a && from <= m.at && (to.None? || m.at <= to.value) then 1 else 0
  {
    assert (ms + [m])[..|ms|] == ms;
  }

  lemma {:induction false} NoRepliesYet(ms: seq<Message>, root: nat)
    requires forall i :: 0 <= i < |ms| ==> ms[i].root != Some(root)
    ensures Replies(ms, root) == 0
  {
    if ms != [] { NoRepliesYet(ms[..|ms| - 1], root); }
  }

  lemma {:induction false} NothingInChannel(ms: seq<Message>, c: nat)
    requires forall i :: 0 <= i < |ms| ==> ms[i].channel != c
    ensures Seqs(ms, c) == []
  {
    if ms != [] { NothingInChannel(ms[..|ms| - 1], c); }
  }

  lemma {:induction false} CalmGrows(flags: seq<bool>, agent: bool, limit: nat)
    requires Calm(flags, limit)
    requires agent ==> !StreakReached(flags, limit)
    ensures Calm(flags + [agent], limit)
  {
    var more := flags + [agent];
    forall i | 0 <= i < |more| - limit ensures HasPerson(more, i, limit) {
      if i + limit < |flags| {
        assert HasPerson(flags, i, limit);
        var j :| i <= j <= i + limit && !flags[j];
        assert !more[j];
      } else if !agent {
        assert !more[|flags|];
      } else {
        var j :| |flags| - limit <= j < |flags| && !flags[j];
        assert !more[j];
      }
    }
  }

  /** The writes of a post, on tables where its transaction may commit. */
  ghost predicate MayInsert(s: Board, tx: nat) {
    Inv(s) && tx in s.pending && s.pending[tx].Posting? && s.pending[tx].channel < |s.channels|
  }

  lemma {:induction false} InsertKeepsThreads(s: Board, tx: nat, at: int, audience: Audience)
    requires MayInsert(s, tx)
    ensures var u := Inserted(s, s.pending[tx], at, audience);
      |u.replyCounts| == |u.messages| && forall i :: 0 <= i < |u.messages| ==> ThreadOk(u, i)
  {
    var t := s.pending[tx];
    var u := Inserted(s, t, at, audience);
    var m := u.messages[|s.messages|];
    assert TxOk(s, tx);
    forall i | 0 <= i < |u.messages| ensures ThreadOk(u, i) {
      RepliesAppended(s.messages, m, i);
      if i < |s.messages| {
        assert ThreadOk(s, i);
      } else {
        forall j | 0 <= j < |s.messages| ensures s.messages[j].root != Some(i) { assert ThreadOk(s, j); }
        NoRepliesYet(s.messages, i);
      }
    }
  }

  lemma {:induction false} InsertKeepsSeqs(s: Board, tx: nat, at: int, audience: Audience)
    requires MayInsert(s, tx)
    ensures var u := Inserted(s, s.pending[tx], at, audience); forall c :: 0 <= c < |u.channels| ==> SeqsOk(u, c)
  {
    var u := Inserted(s, s.pending[tx], at, audience);
    forall c | 0 <= c < |u.channels| ensures SeqsOk(u, c) {
      assert SeqsOk(s, c);
      SeqsGrow(s, s.pending[tx], at, audience, c);
    }
  }

  lemma {:induction false} SeqsGrow(s: Board, t: Tx, at: int, audience: Audience, c: nat)
    requires t.Posting? && t.channel < |s.channels| && c < |s.channels| && SeqsOk(s, c)
    ensures c < |Inserted(s, t, at, audience).channels| && SeqsOk(Inserted(s, t, at, audience), c)
  {
    hide Seqs, Flags, NewItems, ReadersOf, Participants, Joined;
    Appended(s.messages, Inserted(s, t, at, audience).messages[|s.messages|], c, None);
  }

  lemma {:induction false} InsertKeepsMembers(s: Board, tx: nat, at: int, audience: Audience)
    requires MayInsert(s, tx)
    ensures var u := Inserted(s, s.pending[tx], at, audience); forall k :: k in u.members ==> MemberOk(u, k)
  {
    var u := Inserted(s, s.pending[tx], at, audience);
    forall k | k in u.members ensures MemberOk(u, k) {
      if k in s.members { assert MemberOk(s, k); }
    }
  }

  lemma {:induction false} InsertKeepsStreaks(s: Board, tx: nat, at: int, audience: Audience)
    requires MayInsert(s, tx)
    ensures Streaks(Inserted(s, s.pending[tx], at, audience))
  {
    var t := s.pending[tx];
    var u := Inserted(s, t, at, audience);
    var m := u.messages[|s.messages|];
    assert TxOk(s, tx);
    forall c, root ensures Calm(Flags(u.messages, c, root), u.limits.streak) {
      Appended(s.messages, m, c, root);
      assert Calm(Flags(s.messages, c, root), s.limits.streak);
      if m.channel == c && m.root == root {
        CalmGrows(Flags(s.messages, c, root), m.author.Agent?, s.limits.streak);
      }
    }
  }

  /** Transactions on other channels do not notice. */
  lemma {:induction false} InsertKeepsTransactions(s: Board, tx: nat, at: int, audience: Audience)
    requires MayInsert(s, tx)
    ensures Transactions(Ended(Inserted(s, s.pending[tx], at, audience), tx))
  {
    var t := s.pending[tx];
    var u := Ended(Inserted(s, t, at, audience), tx);
    var m := u.messages[|s.messages|];
    forall x | x in u.pending ensures TxOk(u, x) {
      assert TxOk(s, x) && x != tx;
      match s.pending[x]
      case Posting(_, _, channel, _, _, root, _) => Appended(s.messages, m, channel, root);
      case Creating(_, _, _) =>
      case Reading(_, _, _, _, _) =>
    }
  }

  function PostRecorded(s: Board, t: Tx, at: int, audience: Audience): Board
    requires t.Posting? && t.channel < |s.channels|
  {
    Recorded(Inserted(s, t, at, audience), t.actor, t.key, PostRequest(t.channel, t.body, t.thread), |s.messages|)
  }

  /** A message, its receipt and the return to the caller appear together. */
  lemma {:induction false} PostKeepsBooks(s: Board, tx: nat, at: int, audience: Audience)
    requires MayInsert(s, tx) && (s.pending[tx].actor, s.pending[tx].key) !in s.receipts
    ensures Books(PostRecorded(s, s.pending[tx], at, audience))
  {
    var t := s.pending[tx];
    assert TxOk(s, tx);
    PostGrows(s, t, at, audience);
    BooksGrow(s, PostRecorded(s, t, at, audience), t.actor, t.key,
      Receipt(PostRequest(t.channel, t.body, t.thread), |s.messages|));
  }

  /** u is s with one more receipt, one more return, and the row the receipt points to. */
  ghost predicate Grown(s: Board, u: Board, actor: Principal, key: string, r: Receipt) {
    && |s.messages| <= |u.messages| && |s.workspaces| <= |u.workspaces| && |s.channels| <= |u.channels|
    && (forall i :: 0 <= i < |s.messages| ==> u.messages[i] == s.messages[i])
    && (forall i :: 0 <= i < |s.workspaces| ==> u.workspaces[i] == s.workspaces[i])
    && (forall i :: 0 <= i < |s.channels| ==> u.channels[i] == s.channels[i].(lastSeq := u.channels[i].lastSeq))
    && u.receipts == s.receipts[(actor, key) := r] && u.answers == s.answers + [Return(actor, key, r.request, r.result)]
    && (forall e :: Exists(u, e) && !Exists(s, e) ==> e == MadeBy(r))
    && Fulfils(u, r.request, r.result) && Exists(u, MadeBy(r)) && OriginOf(u, MadeBy(r)) == Some((actor, key))
  }

  lemma {:induction false} PostGrows(s: Board, t: Tx, at: int, audience: Audience)
    requires t.Posting? && t.channel < |s.channels| && JoinsThread(s.messages, t.thread, t.root)
    ensures Grown(s, PostRecorded(s, t, at, audience), t.actor, t.key,
      Receipt(PostRequest(t.channel, t.body, t.thread), |s.messages|))
  {
    hide NewItems, ReadersOf, Participants;
    var u := PostRecorded(s, t, at, audience);
    forall e | Exists(u, e) && !Exists(s, e)
      ensures e == MadeBy(Receipt(PostRequest(t.channel, t.body, t.thread), |s.messages|))
    {
    }
  }

  lemma {:induction false} BooksGrow(s: Board, u: Board, actor: Principal, key: string, r: Receipt)
    requires Books(s) && (actor, key) !in s.receipts && Grown(s, u, actor, key, r)
    ensures Books(u)
  {
    forall e | Exists(u, e) ensures EffectOk(u, e) {
      if Exists(s, e) { assert EffectOk(s, e) && OriginOf(u, e) == OriginOf(s, e); }
    }
    forall k | k in u.receipts ensures ReceiptOk(u, k) {
      if k in s.receipts { assert ReceiptOk(s, k); }
    }
    forall i | 0 <= i < |u.answers| ensures AnswerOk(u, i) {
      if i < |s.answers| { assert AnswerOk(s, i); }
    }
  }

  /** The invariant reads the tables only: not the clock, and not which row number comes next. */
  lemma {:induction false} CommitPostKeepsInv(s: Board, tx: nat, at: int, audience: Audience)
    requires MayInsert(s, tx) && (s.pending[tx].actor, s.pending[tx].key) !in s.receipts
    ensures Inv(Ended(PostRecorded(s, s.pending[tx], at, audience), tx))
  {
    var i := Inserted(s, s.pending[tx], at, audience);
    var r := PostRecorded(s, s.pending[tx], at, audience);
    var u := Ended(r, tx);
    InsertKeepsThreads(s, tx, at, audience);
    InsertKeepsSeqs(s, tx, at, audience);
    InsertKeepsMembers(s, tx, at, audience);
    InsertKeepsStreaks(s, tx, at, audience);
    InsertKeepsTransactions(s, tx, at, audience);
    PostKeepsBooks(s, tx, at, audience);
    SameTables(i, u);
    SameBooks(r, u);
    forall x | x in u.pending ensures TxOk(u, x) { assert TxOk(Ended(i, tx), x); }
  }

  lemma {:induction false} SameTables(s: Board, u: Board)
    requires u == s.(now := u.now, workspaces := u.workspaces, nextRow := u.nextRow, receipts := u.receipts,
      pending := u.pending, answers := u.answers)
    ensures Rows(s) ==> Rows(u)
    ensures Streaks(s) ==> Streaks(u)
    ensures Inboxes(s) ==> Inboxes(u)
  {
    if Rows(s) {
      forall i | 0 <= i < |u.messages| ensures ThreadOk(u, i) { assert ThreadOk(s, i); }
      forall c | 0 <= c < |u.channels| ensures SeqsOk(u, c) { assert SeqsOk(s, c); }
      forall k | k in u.members ensures MemberOk(u, k) { assert MemberOk(s, k); }
    }
  }

  lemma {:induction false} SameBooks(s: Board, u: Board)
    requires Books(s)
    requires u.messages == s.messages && u.workspaces == s.workspaces && u.channels == s.channels
    requires u.receipts == s.receipts && u.answers == s.answers
    ensures Books(u)
  {
    forall e | Exists(u, e) ensures EffectOk(u, e) { assert EffectOk(s, e); }
    forall k | k in u.receipts ensures ReceiptOk(u, k) { assert ReceiptOk(s, k); }
    forall i | 0 <= i < |u.answers| ensures AnswerOk(u, i) { assert AnswerOk(s, i); }
  }

  // ------------------------------------------------------------------ the other transactions

  lemma {:induction false} BeginPostKeepsInv(s: Board, a: Action)
    requires Inv(s) && Enabled(s, a) && a.BeginPost?
    ensures Inv(Apply(s, a))
  {
    var u := Apply(s, a);
    if a.thread.Some? { assert ThreadOk(s, a.thread.value); }
    SameTables(s, u);
    SameBooks(s, u);
    forall x | x in u.pending ensures TxOk(u, x) {
      if x != a.tx { assert TxOk(s, x); }
    }
  }

  lemma {:induction false} BeginOthersKeepInv(s: Board, a: Action)
    requires Inv(s) && Enabled(s, a) && (a.BeginCreate? || a.BeginRead? || a.Rollback? || a.Tick?)
    ensures Inv(Apply(s, a))
  {
    var u := Apply(s, a);
    SameTables(s, u);
    SameBooks(s, u);
    forall x | x in u.pending ensures TxOk(u, x) {
      if x in s.pending { assert TxOk(s, x); }
    }
  }

  lemma {:induction false} EndedKeepsInv(s: Board, tx: nat)
    requires Inv(s)
    ensures Inv(Ended(s, tx))
  {
    var u := Ended(s, tx);
    SameTables(s, u);
    SameBooks(s, u);
    forall x | x in u.pending ensures TxOk(u, x) { assert TxOk(s, x); }
  }

  lemma {:induction false} ReplayKeepsInv(s: Board, a: Action)
    requires Inv(s) && Enabled(s, a) && a.Replay?
    ensures Inv(Apply(s, a))
  {
    var u := Apply(s, a);
    SameTables(s, u);
    forall x | x in u.pending ensures TxOk(u, x) { assert TxOk(s, x); }
    forall e | Exists(u, e) ensures EffectOk(u, e) { assert EffectOk(s, e); }
    forall k | k in u.receipts ensures ReceiptOk(u, k) { assert ReceiptOk(s, k); }
    forall i | 0 <= i < |u.answers| ensures AnswerOk(u, i) {
      if i < |s.answers| { assert AnswerOk(s, i); }
    }
  }

  /** Member rows and the unread flags of items may change; cursors stay inside their channels. */
  lemma {:induction false} NewMembersKeepInv(s: Board, u: Board)
    requires Inv(s) && u == s.(members := u.members, nextRow := u.nextRow, items := u.items)
    requires forall k :: k in u.members ==> MemberOk(u, k)
    requires u.items.Keys == s.items.Keys
    ensures Inv(u)
  {
    forall i | 0 <= i < |u.messages| ensures ThreadOk(u, i) { assert ThreadOk(s, i); }
    forall c | 0 <= c < |u.channels| ensures SeqsOk(u, c) { assert SeqsOk(s, c); }
    forall x | x in u.pending ensures TxOk(u, x) { assert TxOk(s, x); }
    SameBooks(s, u);
  }

  lemma {:induction false} JoinedKeepsInv(s: Board, channel: nat, p: Principal)
    requires Inv(s) && channel < |s.channels|
    ensures Inv(Joined(s, channel, p))
  {
    var u := Joined(s, channel, p);
    forall k | k in u.members ensures MemberOk(u, k) {
      if k in s.members { assert MemberOk(s, k); }
    }
    NewMembersKeepInv(s, u);
  }

  lemma {:induction false} ReadKeepsInv(s: Board, tx: nat)
    requires Inv(s) && tx in s.pending && s.pending[tx].Reading? && !RowGone(s, s.pending[tx])
    ensures Inv(ReadUpTo(s, s.pending[tx]))
  {
    var u := ReadUpTo(s, s.pending[tx]);
    assert TxOk(s, tx);
    forall k | k in u.members ensures MemberOk(u, k) {
      if k in s.members { assert MemberOk(s, k); }
    }
    NewMembersKeepInv(s, u);
  }

  lemma {:induction false} LeaveKeepsInv(s: Board, channel: nat, p: Principal)
    requires Inv(s)
    ensures Inv(s.(members := s.members - {(channel, p)}))
  {
    var u := s.(members := s.members - {(channel, p)});
    forall k | k in u.members ensures MemberOk(u, k) { assert MemberOk(s, k); }
    NewMembersKeepInv(s, u);
  }

  /** An empty channel changes no message, and no inbox. */
  lemma {:induction false} NewChannelKeepsRows(s: Board, u: Board, ch: Channel)
    requires Inv(s) && ch.lastSeq == 0
    requires u == s.(channels := s.channels + [ch], receipts := u.receipts, answers := u.answers)
    ensures Rows(u) && Transactions(u) && Streaks(u) && Inboxes(u)
  {
    forall i | 0 <= i < |u.messages| ensures ThreadOk(u, i) { assert ThreadOk(s, i); }
    forall i | 0 <= i < |s.messages| ensures s.messages[i].channel != |s.channels| { assert ThreadOk(s, i); }
    NothingInChannel(s.messages, |s.channels|);
    forall c | 0 <= c < |u.channels| ensures SeqsOk(u, c) {
      if c < |s.channels| { assert SeqsOk(s, c); }
    }
    forall k | k in u.members ensures MemberOk(u, k) { assert MemberOk(s, k); }
    forall x | x in u.pending ensures TxOk(u, x) { assert TxOk(s, x); }
  }

  lemma {:induction false} OpenDirectKeepsInv(s: Board, a: Action)
    requires Inv(s) && Enabled(s, a) && a.OpenDirect?
    ensures Inv(Apply(s, a))
  {
    var made := s.(channels := s.channels + [Channel(a.workspace, Direct, "", 0, None)]);
    NewChannelKeepsRows(s, made, Channel(a.workspace, Direct, "", 0, None));
    forall e | Exists(made, e) ensures EffectOk(made, e) {
      if Exists(s, e) { assert EffectOk(s, e); }
    }
    forall k | k in made.receipts ensures ReceiptOk(made, k) { assert ReceiptOk(s, k); }
    forall i | 0 <= i < |made.answers| ensures AnswerOk(made, i) { assert AnswerOk(s, i); }
    JoinedKeepsInv(made, |s.channels|, a.one);
    JoinedKeepsInv(Joined(made, |s.channels|, a.one), |s.channels|, a.other);
  }

  lemma {:induction false} NewWorkspaceKeepsInv(s: Board, actor: Principal, key: string, request: Request)
    requires Inv(s) && (actor, key) !in s.receipts && request.WorkspaceRequest?
    ensures Inv(Recorded(s.(workspaces := s.workspaces + [Workspace(request.name, request.description, actor, key)]),
      actor, key, request, |s.workspaces|))
  {
    var u := Recorded(s.(workspaces := s.workspaces + [Workspace(request.name, request.description, actor, key)]),
      actor, key, request, |s.workspaces|);
    SameTables(s, u);
    forall x | x in u.pending ensures TxOk(u, x) { assert TxOk(s, x); }
    BooksGrow(s, u, actor, key, Receipt(request, |s.workspaces|));
  }

  lemma {:induction false} NewChannelAlone(s: Board, actor: Principal, key: string, request: Request)
    requires Inv(s) && (actor, key) !in s.receipts && request.ChannelRequest? && !request.kind.Direct?
    ensures var made := s.(channels := s.channels + [Channel(request.workspace, request.kind, request.name, 0,
      Some((actor, key)))]);
      Inv(Recorded(made, actor, key, request, |s.channels|))
  {
    var ch := Channel(request.workspace, request.kind, request.name, 0, Some((actor, key)));
    var u := Recorded(s.(channels := s.channels + [ch]), actor, key, request, |s.channels|);
    NewChannelKeepsRows(s, u, ch);
    BooksGrow(s, u, actor, key, Receipt(request, |s.channels|));
  }

  lemma {:induction false} NewChannelKeepsInv(s: Board, actor: Principal, key: string, request: Request)
    requires Inv(s) && (actor, key) !in s.receipts && request.ChannelRequest? && !request.kind.Direct?
    ensures var made := s.(channels := s.channels + [Channel(request.workspace, request.kind, request.name, 0,
      Some((actor, key)))]);
      Inv(Recorded(Joined(made, |s.channels|, actor), actor, key, request, |s.channels|))
  {
    var ch := Channel(request.workspace, request.kind, request.name, 0, Some((actor, key)));
    var u := Recorded(s.(channels := s.channels + [ch]), actor, key, request, |s.channels|);
    NewChannelAlone(s, actor, key, request);
    JoinedKeepsInv(u, |s.channels|, actor);
    var v := Recorded(Joined(s.(channels := s.channels + [ch]), |s.channels|, actor), actor, key, request,
      |s.channels|);
    assert v == Joined(u, |s.channels|, actor);
  }

  /** Every step of every transaction keeps the invariant. */
  lemma {:induction false} StepKeepsInv(s: Board, a: Action)
    requires Inv(s) && Enabled(s, a)
    ensures Inv(Apply(s, a))
  {
    match a
    case Tick(_) => BeginOthersKeepInv(s, a);
    case Replay(_, _, _) => ReplayKeepsInv(s, a);
    case BeginPost(_, _, _, _, _, _) => BeginPostKeepsInv(s, a);
    case CommitPost(tx, at, audience) =>
      if (s.pending[tx].actor, s.pending[tx].key) in s.receipts { EndedKeepsInv(s, tx); }
      else { CommitPostKeepsInv(s, tx, at, audience); }
    case BeginCreate(_, _, _, _) => BeginOthersKeepInv(s, a);
    case CommitCreate(tx) => CommitCreateKeepsInv(s, tx);
    case BeginRead(_, _, _, _) => BeginOthersKeepInv(s, a);
    case CommitRead(tx) =>
      if RowGone(s, s.pending[tx]) { EndedKeepsInv(s, tx); }
      else { ReadKeepsInv(s, tx); EndedKeepsInv(ReadUpTo(s, s.pending[tx]), tx); }
    case Rollback(_) => BeginOthersKeepInv(s, a);
    case OpenDirect(_, _, _) => OpenDirectKeepsInv(s, a);
    case Join(channel, p) => JoinedKeepsInv(s, channel, p);
    case Leave(channel, p) => LeaveKeepsInv(s, channel, p);
  }

  lemma {:induction false} CommitCreateKeepsInv(s: Board, tx: nat)
    requires Inv(s) && Enabled(s, CommitCreate(tx))
    ensures Inv(Apply(s, CommitCreate(tx)))
  {
    var t := s.pending[tx];
    EndedKeepsInv(s, tx);
    if (t.actor, t.key) !in s.receipts {
      match t.request
      case PostRequest(_, _, _) =>
      case WorkspaceRequest(name, description) =>
        NewWorkspaceKeepsInv(s, t.actor, t.key, t.request);
        EndedKeepsInv(Recorded(s.(workspaces := s.workspaces + [Workspace(name, description, t.actor, t.key)]), t.actor,
          t.key, t.request, |s.workspaces|), tx);
      case ChannelRequest(workspace, name, kind, _) =>
        if !kind.Direct? {
          NewChannelKeepsInv(s, t.actor, t.key, t.request);
          var made := s.(channels := s.channels + [Channel(workspace, kind, name, 0, Some((t.actor, t.key)))]);
          EndedKeepsInv(Recorded(Joined(made, |s.channels|, t.actor), t.actor, t.key, t.request, |s.channels|), tx);
        }
    }
  }

  lemma {:induction false} EmptyInv(limits: Limits)
    ensures Inv(Empty(limits))
  {
    var s := Empty(limits);
    forall c, root ensures Calm(Flags(s.messages, c, root), s.limits.streak) { }
    forall e ensures !Exists(s, e) { }
  }

  lemma {:induction false} LimitsAreFixed(s: Board, a: Action)
    requires Enabled(s, a)
    ensures Apply(s, a).limits == s.limits
  {
  }

  lemma {:induction false} RunKeepsInv(limits: Limits, actions: seq<Action>)
    requires Run(limits, actions).Some?
    ensures Inv(Run(limits, actions).value) && Run(limits, actions).value.limits == limits
  {
    if actions == [] { EmptyInv(limits); }
    else {
      var before := Run(limits, actions[..|actions| - 1]).value;
      RunKeepsInv(limits, actions[..|actions| - 1]);
      StepKeepsInv(before, actions[|actions| - 1]);
      LimitsAreFixed(before, actions[|actions| - 1]);
    }
  }

  // ------------------------------------------------------------------ main results

  predicate HasSeq(ms: seq<Message>, c: nat, k: nat) {
    exists i :: 0 <= i < |ms| && ms[i].channel == c && ms[i].seqNo == k
  }

  /** Seen channel by channel, the messages are numbered 1, 2, 3, ... in the order they were posted. */
  lemma {:induction false} SeqsNumber(ms: seq<Message>, c: nat, n: nat)
    requires Seqs(ms, c) == CountUp(n)
    ensures forall i :: 0 <= i < |ms| && ms[i].channel == c ==> 1 <= ms[i].seqNo <= n
    ensures forall i, j :: 0 <= i < j < |ms| && ms[i].channel == c && ms[j].channel == c ==> ms[i].seqNo < ms[j].seqNo
    ensures forall k :: 1 <= k <= n ==> HasSeq(ms, c, k)
  {
    if ms != [] {
      var rest, last := ms[..|ms| - 1], ms[|ms| - 1];
      if last.channel == c {
        assert Seqs(rest, c) == CountUp(n)[..n - 1] == CountUp(n - 1);
        assert last.seqNo == CountUp(n)[n - 1];
        SeqsNumber(rest, c, n - 1);
        assert forall i :: 0 <= i < |rest| && rest[i].channel == c ==> ms[i] == rest[i] && ms[i].seqNo < last.seqNo;
        forall k | 1 <= k <= n ensures HasSeq(ms, c, k) {
          if k < n {
            assert HasSeq(rest, c, k);
            var i :| 0 <= i < |rest| && rest[i].channel == c && rest[i].seqNo == k;
            assert ms[i].channel == c;
          } else {
            assert ms[|ms| - 1].channel == c;
          }
        }
      } else {
        SeqsNumber(rest, c, n);
        forall k | 1 <= k <= n ensures HasSeq(ms, c, k) {
          assert HasSeq(rest, c, k);
            var i :| 0 <= i < |rest| && rest[i].channel == c && rest[i].seqNo == k;
          assert ms[i].channel == c;
        }
      }
    }
  }

  /** Sequence numbers of a channel are exactly 1 to last_seq, without gap or repeat, in posting order. */
  lemma {:induction false} SeqsHaveNoGaps(limits: Limits, actions: seq<Action>, c: nat)
    requires Run(limits, actions).Some? && c < |Run(limits, actions).value.channels|
    ensures var s := Run(limits, actions).value;
      && (forall i :: 0 <= i < |s.messages| && s.messages[i].channel == c ==>
        1 <= s.messages[i].seqNo <= s.channels[c].lastSeq)
      && (forall i, j :: 0 <= i < j < |s.messages| && s.messages[i].channel == c && s.messages[j].channel == c
            ==> s.messages[i].seqNo < s.messages[j].seqNo)
      && (forall k :: 1 <= k <= s.channels[c].lastSeq ==> HasSeq(s.messages, c, k))
  {
    RunKeepsInv(limits, actions);
    var s := Run(limits, actions).value;
    assert SeqsOk(s, c);
    SeqsNumber(s.messages, c, s.channels[c].lastSeq);
  }

  /** A thread root is an earlier top-level message of the same channel, and reply_count is the number of replies. */
  lemma {:induction false} ThreadsAreOneLevel(limits: Limits, actions: seq<Action>, i: nat)
    requires Run(limits, actions).Some? && i < |Run(limits, actions).value.messages|
    ensures var s := Run(limits, actions).value;
      && |s.replyCounts| == |s.messages| && s.replyCounts[i] == Replies(s.messages, i)
      && (s.messages[i].root.Some? ==>
            var r := s.messages[i].root.value;
            r < i && s.messages[r].root.None? && s.messages[r].channel == s.messages[i].channel)
  {
    RunKeepsInv(limits, actions);
    assert ThreadOk(Run(limits, actions).value, i);
  }

  /** No thread, and no top level, holds more agent messages in a row than the limit, between any two points. */
  lemma {:induction false} NoLongAgentStreak(limits: Limits, actions: seq<Action>, c: nat, root: Option<nat>, from: nat,
      to: nat)
    requires Run(limits, actions).Some? && from <= to <= |Run(limits, actions).value.messages|
    ensures var ms := Run(limits, actions).value.messages[..to];
      AllByAgents(ms, ThreadSince(ms, c, root, from)) ==> |ThreadSince(ms, c, root, from)| <= limits.streak
  {
    RunKeepsInv(limits, actions);
    var all := Run(limits, actions).value.messages;
    var ms := all[..to];
    var flags, before := Flags(ms, c, root), Flags(ms[..from], c, root);
    SuffixFlags(ms, c, root, from);
    SuffixFlags(all, c, root, to);
    SomebodyBetween(Flags(all, c, root), |before|, |flags|, limits.streak);
  }

  lemma {:induction false} SomebodyBetween(flags: seq<bool>, from: nat, to: nat, limit: nat)
    requires Calm(flags, limit) && from <= to <= |flags|
    ensures from + limit < to ==> exists q :: from <= q < to && !flags[q]
  {
    if from + limit < to {
      assert HasPerson(flags, from, limit);
      var j :| from <= j <= from + limit && !flags[j];
    }
  }

  /**
  Across create_workspace, create_channel and post_message, an actor's key makes at most one
  row, and every successful return under it, first or replayed, is for the same request and
  names that row, which holds what was asked for.
  */
  lemma {:induction false} OneEffectPerKey(limits: Limits, actions: seq<Action>, e: Effect, f: Effect, a: Return,
      b: Return)
    requires Run(limits, actions).Some?
    ensures var s := Run(limits, actions).value;
      && (Exists(s, e) && Exists(s, f) && OriginOf(s, e).Some? && OriginOf(s, e) == OriginOf(s, f) ==> e == f)
      && (a in s.answers && b in s.answers && a.actor == b.actor && a.key == b.key ==> a == b)
      && (a in s.answers ==>
            && Fulfils(s, a.request, a.result)
            && Exists(s, MadeBy(Receipt(a.request, a.result)))
            && OriginOf(s, MadeBy(Receipt(a.request, a.result))) == Some((a.actor, a.key)))
  {
    RunKeepsInv(limits, actions);
    var s := Run(limits, actions).value;
    if Exists(s, e) && Exists(s, f) { assert EffectOk(s, e) && EffectOk(s, f); }
    forall x | x in s.answers
      ensures (x.actor, x.key) in s.receipts && s.receipts[(x.actor, x.key)] == Receipt(x.request, x.result)
    {
      var i :| 0 <= i < |s.answers| && s.answers[i] == x;
      assert AnswerOk(s, i);
    }
    if a in s.answers { assert ReceiptOk(s, (a.actor, a.key)); }
  }

  // ------------------------------------------------------------------ channel names

  /** No two channels of a workspace share a name; direct channels have none. */
  ghost predicate UniqueNames(channels: seq<Channel>) {
    forall i, j :: 0 <= i < j < |channels| && channels[i].kind != Direct && channels[j].kind != Direct ==>
      channels[i].workspace != channels[j].workspace || channels[i].name != channels[j].name
  }

  lemma {:induction false} StepKeepsNames(s: Board, a: Action)
    requires UniqueNames(s.channels) && Enabled(s, a)
    ensures UniqueNames(Apply(s, a).channels)
  {
    hide NewItems, ReadersOf, Participants, GuardsPass, Locked, MarkSeen, RootOf;
    if a.CommitCreate? { CreateKeepsNames(s, a.tx); }
    else if a.CommitPost? { PostKeepsNames(s, a.tx, a.at, a.audience); }
  }

  lemma {:induction false} PostKeepsNames(s: Board, tx: nat, at: int, audience: Audience)
    requires UniqueNames(s.channels) && Enabled(s, CommitPost(tx, at, audience))
    ensures UniqueNames(Apply(s, CommitPost(tx, at, audience)).channels)
  {
    hide NewItems, ReadersOf, Participants, GuardsPass, Locked, RootOf;
  }

  lemma {:induction false} CreateKeepsNames(s: Board, tx: nat)
    requires UniqueNames(s.channels) && Enabled(s, CommitCreate(tx))
    ensures UniqueNames(Apply(s, CommitCreate(tx)).channels)
  {
    hide GuardsPass, Locked, RootOf;
  }

  lemma {:induction false} NamesAreUnique(limits: Limits, actions: seq<Action>)
    requires Run(limits, actions).Some?
    ensures UniqueNames(Run(limits, actions).value.channels)
  {
    if actions != [] {
      NamesAreUnique(limits, actions[..|actions| - 1]);
      StepKeepsNames(Run(limits, actions[..|actions| - 1]).value, actions[|actions| - 1]);
    }
  }

  // ------------------------------------------------------------------ the guards in plain terms

  /** The messages of one thread, or of the top level of a channel, from one message on. */
  function ThreadSince(ms: seq<Message>, channel: nat, root: Option<nat>, from: nat): set<nat> {
    set j | from <= j < |ms| && ms[j].channel == channel && ms[j].root == root
  }

  predicate AllByAgents(ms: seq<Message>, which: set<nat>) {
    forall j :: j in which ==> j < |ms| && ms[j].author.Agent?
  }

  /** The messages of one author from one moment on, up to another if there is one. */
  function PostedWithin(ms: seq<Message>, author: Principal, from: int, to: Option<int>): set<nat> {
    set j | 0 <= j < |ms| && ms[j].author == author && from <= ms[j].at && (to.Some? ==> ms[j].at <= to.value)
  }

  lemma {:induction false} PostedIsWithin(ms: seq<Message>, author: Principal, from: int, to: Option<int>)
    ensures Posted(ms, author, from, to) == |PostedWithin(ms, author, from, to)|
  {
    if ms != [] {
      var fewer, last := ms[..|ms| - 1], |ms| - 1;
      PostedIsWithin(fewer, author, from, to);
      WithinAppended(fewer, ms[last], author, from, to);
      assert ms == fewer + [ms[last]];
      hide PostedWithin;
    }
  }

  lemma {:induction false} WithinAppended(ms: seq<Message>, m: Message, author: Principal, from: int, to: Option<int>)
    ensures |PostedWithin(ms + [m], author, from, to)| == |PostedWithin(ms, author, from, to)|
      + if m.author == author && from <= m.at && (to.None? || m.at <= to.value) then 1 else 0
  {
    var before, after := PostedWithin(ms, author, from, to), PostedWithin(ms + [m], author, from, to);
    assert after == if |ms| in after then before + {|ms|} else before;
  }

  predicate AllFrom(flags: seq<bool>, from: nat) {
    forall q :: from <= q < |flags| ==> flags[q]
  }

  lemma {:induction false} AllFromMore(flags: seq<bool>, last: bool, from: nat)
    requires from <= |flags|
    ensures AllFrom(flags + [last], from) <==> AllFrom(flags, from) && last
  {
    var more := flags + [last];
    if AllFrom(more, from) {
      assert more[|flags|] == last;
      forall q | from <= q < |flags| ensures flags[q] { assert more[q]; }
    }
  }

  /** The flags of a thread from one message on are those of its messages from there on. */
  lemma {:induction false} SuffixFlags(ms: seq<Message>, channel: nat, root: Option<nat>, from: nat)
    requires from <= |ms|
    ensures var flags, before := Flags(ms, channel, root), Flags(ms[..from], channel, root);
      var since := ThreadSince(ms, channel, root, from);
      && before <= flags && |since| == |flags| - |before|
      && (AllByAgents(ms, since) <==> AllFrom(flags, |before|))
  {
    if from == |ms| {
      assert ms[..from] == ms;
      assert ThreadSince(ms, channel, root, from) == {};
    } else {
      var fewer := ms[..|ms| - 1];
      SuffixFlags(fewer, channel, root, from);
      assert fewer[..from] == ms[..from];
      hide Flags;
      assert ms == fewer + [ms[|ms| - 1]];
      Appended(fewer, ms[|ms| - 1], channel, root);
      SinceAppended(fewer, ms[|ms| - 1], channel, root, from);
      AllFromMore(Flags(fewer, channel, root), ms[|ms| - 1].author.Agent?, |Flags(fewer[..from], channel, root)|);
      hide AllByAgents, ThreadSince, AllFrom;
    }
  }

  lemma {:induction false} SinceAppended(ms: seq<Message>, m: Message, channel: nat, root: Option<nat>, from: nat)
    requires from <= |ms|
    ensures var early, since := ThreadSince(ms, channel, root, from), ThreadSince(ms + [m], channel, root, from);
      if m.channel == channel && m.root == root then
        |since| == |early| + 1 && (AllByAgents(ms + [m], since) <==> AllByAgents(ms, early) && m.author.Agent?)
      else |since| == |early| && (AllByAgents(ms + [m], since) <==> AllByAgents(ms, early))
  {
    var more := ms + [m];
    var early, since := ThreadSince(ms, channel, root, from), ThreadSince(more, channel, root, from);
    assert since == if m.channel == channel && m.root == root then early + {|ms|} else early;
    forall j | j in early ensures more[j] == ms[j] { }
    if m.channel == channel && m.root == root { assert more[|ms|] == m && |ms| in since; }
  }

  /** From any number of messages of a thread down to none, the table has a point with that many after it. */
  lemma {:induction false} SplitFlags(ms: seq<Message>, channel: nat, root: Option<nat>, wanted: nat)
    returns (from: nat)
    requires wanted <= |Flags(ms, channel, root)|
    ensures from <= |ms| && |Flags(ms[..from], channel, root)| == wanted
  {
    if wanted == |Flags(ms, channel, root)| {
      from := |ms|;
      assert ms[..from] == ms;
    } else {
      from := SplitFlags(ms[..|ms| - 1], channel, root, wanted);
      assert ms[..|ms| - 1][..from] == ms[..from];
    }
  }

  /** The guard against streaks stops a post exactly when the newest `limit` messages of its thread are by agents. */
  lemma {:induction false} StreakIff(ms: seq<Message>, channel: nat, root: Option<nat>, limit: nat)
    ensures StreakReached(Flags(ms, channel, root), limit) <==>
      exists from {:trigger ThreadSince(ms, channel, root, from)} :: 0 <= from <= |ms|
        && |ThreadSince(ms, channel, root, from)| == limit && AllByAgents(ms, ThreadSince(ms, channel, root, from))
  {
    var flags := Flags(ms, channel, root);
    if StreakReached(flags, limit) {
      var from := SplitFlags(ms, channel, root, |flags| - limit);
      SuffixFlags(ms, channel, root, from);
    }
    forall from | 0 <= from <= |ms| && |ThreadSince(ms, channel, root, from)| == limit
      && AllByAgents(ms, ThreadSince(ms, channel, root, from)) ensures StreakReached(flags, limit)
    {
      SuffixFlags(ms, channel, root, from);
    }
  }

  // ------------------------------------------------------------------ inboxes

  /** p wrote the root of a thread, or a reply in it. */
  predicate WroteIn(ms: seq<Message>, root: Option<nat>, p: Principal) {
    && root.Some?
    && ((root.value < |ms| && ms[root.value].author == p)
        || exists j :: 0 <= j < |ms| && ms[j].root == root && ms[j].author == p)
  }

  /**
  What p hears of a message that is about to be posted, by the tables of that moment: nothing
  unless p is an active member of the workspace, other than the author, and of the channel if
  that is not public; then of a mention before a direct message before a reply.
  */
  function Heard(s: Board, t: Tx, audience: Audience, p: Principal): Option<Reason>
    requires t.Posting? && t.channel < |s.channels|
  {
    var kind := s.channels[t.channel].kind;
    if p == t.actor || p !in audience.readers || p !in audience.active then None
    else if kind != Public && (t.channel, p) !in s.members then None
    else if audience.readers[p] in audience.mentions then Some(Mention)
    else if kind == Direct then Some(DirectMessage)
    else if WroteIn(s.messages, t.root, p) then Some(Reply)
    else None
  }

  lemma {:induction false} AuthorsAre(ms: seq<Message>, root: nat, p: Principal)
    ensures p in Authors(ms, root) <==> exists j :: 0 <= j < |ms| && ms[j].root == Some(root) && ms[j].author == p
  {
    if ms != [] {
      var fewer, last := ms[..|ms| - 1], |ms| - 1;
      AuthorsAre(fewer, root, p);
      if p in Authors(fewer, root) {
        var j :| 0 <= j < |fewer| && fewer[j].root == Some(root) && fewer[j].author == p;
        assert ms[j].root == Some(root);
      } else if exists j :: 0 <= j < |ms| && ms[j].root == Some(root) && ms[j].author == p {
        var j :| 0 <= j < |ms| && ms[j].root == Some(root) && ms[j].author == p;
        assert j < |fewer| ==> fewer[j].root == Some(root);
      }
    }
  }

  /** The new message makes nobody but its author a participant. */
  lemma {:induction false} ParticipantsWrote(ms: seq<Message>, m: Message, p: Principal)
    requires p != m.author && (m.root.Some? ==> m.root.value < |ms|)
    ensures p in Participants(ms + [m], m.root) <==> WroteIn(ms, m.root, p)
  {
    if m.root.Some? {
      var more := ms + [m];
      AuthorsAre(more, m.root.value, p);
      assert forall j :: 0 <= j < |ms| ==> more[j] == ms[j];
    }
  }

  lemma {:induction false} PostIsHeard(s: Board, tx: nat, at: int, audience: Audience, p: Principal)
    requires MayInsert(s, tx)
    ensures var t, id := s.pending[tx], |s.messages|;
      var u := Inserted(s, t, at, audience);
      && ((id, p) in u.items <==> Heard(s, t, audience, p).Some?)
      && ((id, p) in u.items ==> u.items[(id, p)] == Item(Heard(s, t, audience, p).value, true))
  {
    var t, id := s.pending[tx], |s.messages|;
    var m := Message(t.channel, s.channels[t.channel].lastSeq + 1, t.actor, t.root, t.body, at, t.key);
    assert TxOk(s, tx);
    assert (id, p) !in s.items;
    hide Inv, TxOk, Participants, WroteIn, NewItems, ReasonFor, Joined, ReadersOf;
    if p != t.actor { ParticipantsWrote(s.messages, m, p); }
    ItemIsHeard(s, t, audience, Participants(s.messages + [m], t.root), id, p);
  }

  lemma {:induction false} ItemIsHeard(s: Board, t: Tx, audience: Audience, thread: set<Principal>, id: nat,
      p: Principal)
    requires t.Posting? && t.channel < |s.channels|
    requires p != t.actor ==> (p in thread <==> WroteIn(s.messages, t.root, p))
    ensures var kind := s.channels[t.channel].kind;
      var items := NewItems(ReadersOf(audience, kind, Joined(s, t.channel, t.actor).members, t.channel), kind, thread,
        t.actor, id);
      && ((id, p) in items <==> Heard(s, t, audience, p).Some?)
      && ((id, p) in items ==> items[(id, p)] == Item(Heard(s, t, audience, p).value, true))
  {
    hide WroteIn;
  }

  /** The items of a message that is there keep their owners and reasons. */
  lemma {:induction false} ItemsStay(s: Board, a: Action, k: (nat, Principal))
    requires Inv(s) && Enabled(s, a) && k.0 < |s.messages|
    ensures var u := Apply(s, a);
      && |s.messages| <= |u.messages| && (k in s.items <==> k in u.items)
      && (k in s.items ==> u.items[k].reason == s.items[k].reason)
  {
    hide Inv, ReadersOf, NewItems, Participants;
    if a.CommitPost? {
      var t := s.pending[a.tx];
      if (t.actor, t.key) !in s.receipts { OldItemsStay(s, t, a.at, a.audience, k); }
    }
  }

  lemma {:induction false} OldItemsStay(s: Board, t: Tx, at: int, audience: Audience, k: (nat, Principal))
    requires t.Posting? && t.channel < |s.channels| && k.0 < |s.messages|
    ensures var u := Inserted(s, t, at, audience);
      (k in s.items <==> k in u.items) && (k in s.items ==> u.items[k] == s.items[k])
  {
    hide ReadersOf, Participants;
  }

  /**
  The inbox items of a message, at any time after its post: exactly those who heard of it
  then, each with the reason it had then.
  */
  lemma {:induction false} InboxIsExact(limits: Limits, actions: seq<Action>, n: nat, p: Principal)
    requires Run(limits, actions).Some? && n < |actions| && actions[n].CommitPost?
    ensures Run(limits, actions[..n]).Some?
    ensures var s, now := Run(limits, actions[..n]).value, Run(limits, actions).value;
      var id, tx := |s.messages|, actions[n].tx;
      && tx in s.pending && s.pending[tx].Posting? && s.pending[tx].channel < |s.channels|
      && ((s.pending[tx].actor, s.pending[tx].key) !in s.receipts ==>
        && id < |now.messages|
        && ((id, p) in now.items <==> Heard(s, s.pending[tx], actions[n].audience, p).Some?)
        && ((id, p) in now.items ==>
          Some(now.items[(id, p)].reason) == Heard(s, s.pending[tx], actions[n].audience, p)))
    decreases |actions|
  {
    var last := |actions| - 1;
    var fewer := actions[..last];
    RunKeepsInv(limits, fewer);
    if n == last {
      var s, a := Run(limits, fewer).value, actions[last];
      if (s.pending[a.tx].actor, s.pending[a.tx].key) !in s.receipts { PostIsHeard(s, a.tx, a.at, a.audience, p); }
    } else {
      InboxIsExact(limits, fewer, n, p);
      assert fewer[..n] == actions[..n];
      var s := Run(limits, actions[..n]).value;
      if |s.messages| < |Run(limits, fewer).value.messages| {
        ItemsStay(Run(limits, fewer).value, actions[last], (|s.messages|, p));
      }
    }
  }

  // ------------------------------------------------------------------ read cursors

  /** A cursor stays inside its channel. */
  lemma {:induction false} CursorsStayInside(limits: Limits, actions: seq<Action>, k: (nat, Principal))
    requires Run(limits, actions).Some? && k in Run(limits, actions).value.members
    ensures var s := Run(limits, actions).value; k.0 < |s.channels| && s.members[k].read <= s.channels[k.0].lastSeq
  {
    RunKeepsInv(limits, actions);
    assert MemberOk(Run(limits, actions).value, k);
  }

  /** The step saves a cursor that mark_read compared with an older value than the row now holds. */
  predicate StaleSave(s: Board, a: Action, k: (nat, Principal)) {
    && a.CommitRead? && a.tx in s.pending && s.pending[a.tx].Reading?
    && (s.pending[a.tx].channel, s.pending[a.tx].actor) == k && k in s.members
    && s.pending[a.tx].row == Some(s.members[k].row)
    && s.pending[a.tx].seen < s.pending[a.tx].upTo < s.members[k].read
  }

  /** While its row exists a cursor moves back exactly when mark_read saves over a newer value. */
  lemma {:induction false} CursorMovesBackIff(s: Board, a: Action, k: (nat, Principal))
    requires Inv(s) && Enabled(s, a)
    requires k in s.members && k in Apply(s, a).members
    ensures Apply(s, a).members[k].read < s.members[k].read <==> StaleSave(s, a, k)
  {
    assert MemberOk(s, k);
    match a
    case CommitPost(tx, at, audience) => PostMovesForward(s, tx, at, audience, k);
    case CommitRead(tx) => ReadMovesBackIff(s, tx, k);
    case _ => OthersKeepCursors(s, a, k);
  }

  lemma {:induction false} PostMovesForward(s: Board, tx: nat, at: int, audience: Audience, k: (nat, Principal))
    requires Enabled(s, CommitPost(tx, at, audience)) && k in s.members && MemberOk(s, k)
    ensures k in Apply(s, CommitPost(tx, at, audience)).members
      && s.members[k].read <= Apply(s, CommitPost(tx, at, audience)).members[k].read
  {
    var t := s.pending[tx];
    assert Joined(s, t.channel, t.actor).members[k] == s.members[k];
  }

  lemma {:induction false} ReadMovesBackIff(s: Board, tx: nat, k: (nat, Principal))
    requires Enabled(s, CommitRead(tx)) && k in s.members && k in Apply(s, CommitRead(tx)).members
    ensures Apply(s, CommitRead(tx)).members[k].read < s.members[k].read <==> StaleSave(s, CommitRead(tx), k)
  {
    var t := s.pending[tx];
    assert t.row.None? ==> Joined(s, t.channel, t.actor).members[k] == s.members[k];
  }

  lemma {:induction false} OthersKeepCursors(s: Board, a: Action, k: (nat, Principal))
    requires Enabled(s, a) && !a.CommitPost? && !a.CommitRead? && k in s.members && k in Apply(s, a).members
    ensures Apply(s, a).members[k].read == s.members[k].read
  {
  }

  /** Every mark_read under way on the row of k saw the cursor as it still is: nothing has moved it in between. */
  ghost predicate ReadsUndisturbed(s: Board, k: (nat, Principal)) {
    k in s.members ==>
      forall tx :: tx in s.pending && s.pending[tx].Reading? ==>
        ((s.pending[tx].channel, s.pending[tx].actor) == k && s.pending[tx].row == Some(s.members[k].row) ==>
          s.pending[tx].seen == s.members[k].read)
  }

  /** From some point on, the member stays and its cursor moves only outside of its own mark_read calls. */
  ghost predicate StaysUndisturbed(limits: Limits, actions: seq<Action>, from: nat, k: (nat, Principal)) {
    forall n :: from <= n <= |actions| ==>
      && Run(limits, actions[..n]).Some?
      && k in Run(limits, actions[..n]).value.members && ReadsUndisturbed(Run(limits, actions[..n]).value, k)
  }

  /** If nothing else moves a cursor between the read and the save of a mark_read, it never falls along a run. */
  lemma {:induction false} CursorNeverFalls(limits: Limits, actions: seq<Action>, from: nat, k: (nat, Principal))
    requires Run(limits, actions).Some? && from <= |actions| && StaysUndisturbed(limits, actions, from, k)
    ensures Run(limits, actions[..from]).Some? && k in Run(limits, actions[..from]).value.members
      && k in Run(limits, actions).value.members
    ensures Run(limits, actions[..from]).value.members[k].read <= Run(limits, actions).value.members[k].read
  {
    assert actions[..|actions|] == actions;
    if from < |actions| {
      var last := |actions| - 1;
      var fewer := actions[..last];
      assert forall n :: 0 <= n <= last ==> fewer[..n] == actions[..n];
      CursorNeverFalls(limits, fewer, from, k);
      RunKeepsInv(limits, fewer);
      CursorMovesBackIff(Run(limits, fewer).value, actions[last], k);
      assert ReadsUndisturbed(Run(limits, fewer).value, k);
    }
  }

  /** mark_read alone: the cursor becomes the larger of its old value and the wanted one, and what it covers is read. */
  lemma {:induction false} UndisturbedRead(s: Board, tx: nat, p: Principal, c: nat, upTo: int)
    requires Inv(s) && Enabled(s, BeginRead(tx, p, c, upTo))
    ensures var mid := Apply(s, BeginRead(tx, p, c, upTo));
      && Enabled(mid, CommitRead(tx))
      && var u := Apply(mid, CommitRead(tx));
         var wanted := Min(Max0(upTo), s.channels[c].lastSeq);
         && (c, p) in u.members
         && u.members[(c, p)].read == Max(wanted, if (c, p) in s.members then s.members[(c, p)].read else 0)
         && (forall k :: k != (c, p) ==>
           (k in u.members <==> k in s.members) && (k in s.members ==> u.members[k] == s.members[k]))
         && (forall i :: (i, p) in u.items && i < |s.messages| ==>
           (s.messages[i].channel == c && s.messages[i].seqNo <= wanted ==> !u.items[(i, p)].unread))
         && u.items.Keys == s.items.Keys
         && (forall k :: k in s.items ==>
           (k.1 != p || k.0 >= |s.messages| || s.messages[k.0].channel != c || s.messages[k.0].seqNo > wanted ==>
             u.items[k] == s.items[k]))
  {
    var mid := Apply(s, BeginRead(tx, p, c, upTo));
    var t := mid.pending[tx];
    assert !RowGone(mid, t);
    assert (c, p) in Joined(s, c, p).members;
  }

  // ------------------------------------------------------------------ the hourly limit

  ghost function PostsOf(s: Board, p: Principal): set<nat> {
    set tx | tx in s.pending && s.pending[tx].Posting? && s.pending[tx].actor == p
  }

  /** Those that may still put a message into the hour that starts at t. */
  ghost function EarlyPosts(s: Board, p: Principal, t: int): set<nat> {
    set tx | tx in PostsOf(s, p) && s.pending[tx].checkedAt <= t + HOUR
  }

  /** In every state of the run, an agent has at most k posts under way. */
  ghost predicate AtMostPosts(limits: Limits, actions: seq<Action>, p: Principal, k: nat) {
    forall n {:trigger actions[..n]} :: 0 <= n <= |actions| && Run(limits, actions[..n]).Some?
      ==> |PostsOf(Run(limits, actions[..n]).value, p)| <= k
  }

  lemma {:induction false} PostedNarrows(ms: seq<Message>, p: Principal, from: int, t: int)
    requires from <= t
    ensures Posted(ms, p, t, Some(t + HOUR)) <= Posted(ms, p, from, None)
  {
    if ms != [] { PostedNarrows(ms[..|ms| - 1], p, from, t); }
  }

  lemma {:induction false} FewerSets(a: set<nat>, b: set<nat>)
    requires a <= b
    ensures |a| <= |b|
  {
    if a != {} {
      var x :| x in a;
      FewerSets(a - {x}, b - {x});
    }
  }

  ghost predicate HourOk(s: Board, p: Principal, k: nat, t: int) {
    Posted(s.messages, p, t, Some(t + HOUR)) + |EarlyPosts(s, p, t)| <= s.limits.hourly + k - 1
  }

  lemma {:induction false} HourStep(s: Board, a: Action, p: Principal, k: nat, t: int)
    requires p.Agent? && k >= 1 && Enabled(s, a) && HourOk(s, p, k, t) && |PostsOf(Apply(s, a), p)| <= k
    ensures HourOk(Apply(s, a), p, k, t)
  {
    var u := Apply(s, a);
    match a
    case BeginPost(tx, actor, _, _, _, _) =>
      if actor == p && s.now <= t + HOUR {
        PostedNarrows(s.messages, p, s.now - HOUR, t);
        FewerSets(EarlyPosts(u, p, t), PostsOf(u, p));
      } else {
        assert EarlyPosts(u, p, t) == EarlyPosts(s, p, t);
      }
    case CommitPost(tx, at, audience) => HourCommit(s, tx, at, audience, p, k, t);
    case _ =>
      OthersPostNothing(s, a);
      FewerEarlyPosts(s, u, p, t);
  }

  lemma {:induction false} OneLessPost(s: Board, u: Board, tx: nat, p: Principal, t: int)
    requires tx in s.pending && u.pending == s.pending - {tx}
    ensures |EarlyPosts(u, p, t)| == |EarlyPosts(s, p, t)| - if tx in EarlyPosts(s, p, t) then 1 else 0
  {
    assert EarlyPosts(u, p, t) == EarlyPosts(s, p, t) - {tx};
  }

  lemma {:induction false} HourCommit(s: Board, tx: nat, at: int, audience: Audience, p: Principal, k: nat, t: int)
    requires Enabled(s, CommitPost(tx, at, audience)) && HourOk(s, p, k, t)
    ensures HourOk(Apply(s, CommitPost(tx, at, audience)), p, k, t)
  {
    var u := Apply(s, CommitPost(tx, at, audience));
    OneLessPost(s, u, tx, p, t);
    var early := EarlyPosts(s, p, t);
    assert tx in early <==> s.pending[tx].actor == p && s.pending[tx].checkedAt <= t + HOUR;
    if (s.pending[tx].actor, s.pending[tx].key) !in s.receipts {
      var m := Message(s.pending[tx].channel, s.channels[s.pending[tx].channel].lastSeq + 1, s.pending[tx].actor,
                       s.pending[tx].root, s.pending[tx].body, at, s.pending[tx].key);
      assert u.messages == s.messages + [m];
      PostedAppended(s.messages, m, p, t, Some(t + HOUR));
    }
  }

  /** Only a begin adds a post, and only a commit adds a message. */
  ghost predicate NoNewPost(s: Board, u: Board) {
    && u.messages == s.messages && u.limits == s.limits
    && (forall x :: x in u.pending && u.pending[x].Posting? ==> x in s.pending && u.pending[x] == s.pending[x])
  }

  lemma {:induction false} OthersPostNothing(s: Board, a: Action)
    requires Enabled(s, a) && !a.BeginPost? && !a.CommitPost?
    ensures NoNewPost(s, Apply(s, a))
  {
    if a.CommitCreate? { CreatePostsNothing(s, a.tx); }
  }

  lemma {:induction false} CreatePostsNothing(s: Board, tx: nat)
    requires Enabled(s, CommitCreate(tx))
    ensures NoNewPost(s, Apply(s, CommitCreate(tx)))
  {
  }

  lemma {:induction false} FewerEarlyPosts(s: Board, u: Board, p: Principal, t: int)
    requires NoNewPost(s, u)
    ensures |EarlyPosts(u, p, t)| <= |EarlyPosts(s, p, t)|
  {
    FewerSets(EarlyPosts(u, p, t), EarlyPosts(s, p, t));
  }

  /**
  An agent that never has more than k posts under way at once has at most hourly + k - 1
  messages in any closed hour, over all channels. One post at a time keeps the promised limit.
  */
  lemma {:induction false} HourlyLimit(limits: Limits, actions: seq<Action>, p: Principal, k: nat, t: int)
    requires p.Agent? && k >= 1 && Run(limits, actions).Some? && AtMostPosts(limits, actions, p, k)
    ensures |PostedWithin(Run(limits, actions).value.messages, p, t, Some(t + 3600))| <= limits.hourly + k - 1
    ensures HourOk(Run(limits, actions).value, p, k, t)
  {
    RunKeepsInv(limits, actions);
    PostedIsWithin(Run(limits, actions).value.messages, p, t, Some(t + HOUR));
    var n := |actions|;
    assert actions[..n] == actions;
    if actions == [] {
      assert EarlyPosts(Empty(limits), p, t) == {};
    } else {
      var fewer := actions[..n - 1];
      forall m | 0 <= m <= |fewer| && Run(limits, fewer[..m]).Some?
        ensures |PostsOf(Run(limits, fewer[..m]).value, p)| <= k
      {
        assert fewer[..m] == actions[..m];
      }
      HourlyLimit(limits, fewer, p, k, t);
      HourStep(Run(limits, fewer).value, actions[n - 1], p, k, t);
    }
  }

  // ------------------------------------------------------------------ what overlapping calls can do

  /** Keys that differ in length. */
  function KeyNo(i: nat): string {
    seq(i, _ => 'k')
  }

  /** At time 0 agent p has posted once in each channel below lo, and is posting in each from there to hi. */
  ghost predicate Stage(s: Board, limits: Limits, p: Principal, lo: nat, hi: nat) {
    && s.limits == limits && s.now == 0 && |s.messages| == lo <= hi
    && (forall i :: 0 <= i < lo ==> s.messages[i].author == p && s.messages[i].at == 0 && s.messages[i].channel < lo)
    && (forall tx :: tx in s.pending <==> lo <= tx < hi)
    && (forall tx :: lo <= tx < hi ==> s.pending[tx] == Posting(p, KeyNo(tx), tx, "hi", None, None, 0))
    && (forall key :: key in s.receipts ==> |key.1| < lo)
  }

  /** A run to such a state in which p never had more than k posts under way, with n channels. */
  ghost predicate OnTheWay(limits: Limits, acts: seq<Action>, s: Board, p: Principal, k: nat, n: nat, lo: nat,
      hi: nat) {
    Run(limits, acts) == Some(s) && AtMostPosts(limits, acts, p, k) && Stage(s, limits, p, lo, hi) && |s.channels| == n
  }

  lemma {:induction false} RangeSize(range: set<nat>, lo: nat, hi: nat)
    requires lo <= hi && forall x :: x in range <==> lo <= x < hi
    ensures |range| == hi - lo
    decreases hi - lo
  {
    if lo < hi { RangeSize(range - {lo}, lo + 1, hi); } else { assert range == {}; }
  }

  lemma {:induction false} StagePosts(s: Board, limits: Limits, p: Principal, lo: nat, hi: nat)
    requires Stage(s, limits, p, lo, hi)
    ensures |PostsOf(s, p)| == hi - lo
  {
    RangeSize(PostsOf(s, p), lo, hi);
  }

  lemma {:induction false} OneMoreAction(limits: Limits, acts: seq<Action>, a: Action, s: Board, p: Principal, k: nat)
    requires AtMostPosts(limits, acts, p, k) && Run(limits, acts + [a]) == Some(s) && |PostsOf(s, p)| <= k
    ensures AtMostPosts(limits, acts + [a], p, k)
  {
    var more := acts + [a];
    forall n {:trigger more[..n]} | 0 <= n <= |more| && Run(limits, more[..n]).Some?
      ensures |PostsOf(Run(limits, more[..n]).value, p)| <= k
    {
      if n <= |acts| { assert more[..n] == acts[..n]; } else { assert more[..n] == more; }
    }
  }

  /** Posts of p since `from` are among its messages; all messages count if all are by p in that time. */
  lemma {:induction false} PostedOfAll(ms: seq<Message>, p: Principal, from: int, to: Option<int>)
    ensures Posted(ms, p, from, to) <= |ms|
    ensures (forall i :: 0 <= i < |ms| ==>
      ms[i].author == p && from <= ms[i].at && (to.None? || ms[i].at <= to.value)) ==> Posted(ms, p, from, to) == |ms|
  {
    if ms != [] { PostedOfAll(ms[..|ms| - 1], p, from, to); }
  }

  lemma {:induction false} NoFlags(ms: seq<Message>, c: nat, root: Option<nat>)
    requires forall i :: 0 <= i < |ms| ==> ms[i].channel != c
    ensures Flags(ms, c, root) == []
  {
    if ms != [] { NoFlags(ms[..|ms| - 1], c, root); }
  }

  lemma {:induction false} BeginPasses(s: Board, limits: Limits, p: Principal, lo: nat, hi: nat)
    requires Stage(s, limits, p, lo, hi) && lo < limits.hourly && limits.streak >= 1 && hi < |s.channels|
    ensures var u := Next(s, BeginPost(hi, p, KeyNo(hi), hi, "hi", None));
      u.Some? && Stage(u.value, limits, p, lo, hi + 1) && |u.value.channels| == |s.channels|
  {
    PostedOfAll(s.messages, p, s.now - HOUR, None);
    NoFlags(s.messages, hi, None);
    assert GuardsPass(s, p, hi, None);
  }

  lemma {:induction false} CommitPosts(s: Board, limits: Limits, p: Principal, lo: nat, hi: nat)
    requires Stage(s, limits, p, lo, hi) && lo < hi <= |s.channels|
    ensures var u := Next(s, CommitPost(lo, 0, Audience(map[], {}, {})));
      u.Some? && Stage(u.value, limits, p, lo + 1, hi) && |u.value.channels| == |s.channels|
  {
    assert s.pending[lo] == Posting(p, KeyNo(lo), lo, "hi", None, None, 0) && (p, KeyNo(lo)) !in s.receipts;
  }

  lemma {:induction false} OneBegin(limits: Limits, acts: seq<Action>, s: Board, p: Principal, k: nat, n: nat, lo: nat,
      hi: nat)
    returns (more: seq<Action>, u: Board)
    requires OnTheWay(limits, acts, s, p, k, n, lo, hi) && hi < n && lo < limits.hourly && limits.streak >= 1
      && hi - lo < k
    ensures OnTheWay(limits, more, u, p, k, n, lo, hi + 1)
  {
    BeginPasses(s, limits, p, lo, hi);
    hide Runs.Exec, Next, Stage, AtMostPosts;
    more, u := Runs.Then(Next, Empty(limits), acts, BeginPost(hi, p, KeyNo(hi), hi, "hi", None), s);
    StagePosts(u, limits, p, lo, hi + 1);
    OneMoreAction(limits, acts, BeginPost(hi, p, KeyNo(hi), hi, "hi", None), u, p, k);
  }

  lemma {:induction false} OneCommit(limits: Limits, acts: seq<Action>, s: Board, p: Principal, k: nat, n: nat,
      lo: nat, hi: nat)
    returns (more: seq<Action>, u: Board)
    requires OnTheWay(limits, acts, s, p, k, n, lo, hi) && lo < hi <= n && hi - lo <= k
    ensures OnTheWay(limits, more, u, p, k, n, lo + 1, hi)
  {
    CommitPosts(s, limits, p, lo, hi);
    hide Runs.Exec, Next, Stage, AtMostPosts;
    more, u := Runs.Then(Next, Empty(limits), acts, CommitPost(lo, 0, Audience(map[], {}, {})), s);
    StagePosts(u, limits, p, lo + 1, hi);
    OneMoreAction(limits, acts, CommitPost(lo, 0, Audience(map[], {}, {})), u, p, k);
  }

  lemma {:induction false} Channels(limits: Limits, p: Principal, k: nat, n: nat) returns (acts: seq<Action>, s: Board)
    ensures OnTheWay(limits, acts, s, p, k, n, 0, 0)
  {
    if n == 0 {
      s, acts := Empty(limits), [];
      assert PostsOf(s, p) == {};
    } else {
      acts, s := Channels(limits, p, k, n - 1);
      hide Runs.Exec, AtMostPosts;
      var a := OpenDirect(0, p, p);
      var before := acts;
      acts, s := Runs.Then(Next, Empty(limits), acts, a, s);
      StagePosts(s, limits, p, 0, 0);
      OneMoreAction(limits, before, a, s, p, k);
    }
  }

  /** One post after another fills all but one of the places of the hour. */
  lemma {:induction false} PostInTurn(limits: Limits, p: Principal, k: nat, n: nat, m: nat)
    returns (acts: seq<Action>, s: Board)
    requires limits.streak >= 1 && k >= 1 && m < limits.hourly && m <= n
    ensures OnTheWay(limits, acts, s, p, k, n, m, m)
    decreases m
  {
    if m == 0 {
      acts, s := Channels(limits, p, k, n);
    } else {
      acts, s := PostInTurn(limits, p, k, n, m - 1);
      acts, s := OneBegin(limits, acts, s, p, k, n, m - 1, m - 1);
      acts, s := OneCommit(limits, acts, s, p, k, n, m - 1, m);
    }
  }

  /** Then several posts pass the guard for the last place. */
  lemma {:induction false} PassTogether(limits: Limits, p: Principal, k: nat, n: nat, m: nat, more: nat)
    returns (acts: seq<Action>, s: Board)
    requires limits.streak >= 1 && k >= 1 && m < limits.hourly && m + more <= n && more <= k
    ensures OnTheWay(limits, acts, s, p, k, n, m, m + more)
    decreases more
  {
    if more == 0 {
      acts, s := PostInTurn(limits, p, k, n, m);
    } else {
      acts, s := PassTogether(limits, p, k, n, m, more - 1);
      acts, s := OneBegin(limits, acts, s, p, k, n, m, m + more - 1);
    }
  }

  lemma {:induction false} CommitAll(limits: Limits, p: Principal, k: nat, n: nat, m: nat, lo: nat)
    returns (acts: seq<Action>, s: Board)
    requires limits.streak >= 1 && k >= 1 && m < limits.hourly && m + k == n && m <= lo <= n
    ensures OnTheWay(limits, acts, s, p, k, n, lo, n)
    decreases lo
  {
    if lo == m {
      acts, s := PassTogether(limits, p, k, n, m, k);
    } else {
      acts, s := CommitAll(limits, p, k, n, m, lo - 1);
      acts, s := OneCommit(limits, acts, s, p, k, n, lo - 1, n);
    }
  }

  /**
  The bound of HourlyLimit is exact: under any limits that let an agent post at all, k posts
  at once on as many channels bring it to hourly + k - 1 messages in one hour. So the limit
  that the guard promises holds for k == 1, and for no larger k.
  */
  lemma {:induction false} OverlapReachesTheBound(limits: Limits, p: Principal, k: nat)
    returns (acts: seq<Action>, s: Board)
    requires p.Agent? && k >= 1 && limits.hourly >= 1 && limits.streak >= 1
    ensures Run(limits, acts) == Some(s) && AtMostPosts(limits, acts, p, k)
    ensures Posted(s.messages, p, 0, Some(HOUR)) == limits.hourly + k - 1
  {
    var n := limits.hourly + k - 1;
    acts, s := CommitAll(limits, p, k, n, limits.hourly - 1, n);
    PostedOfAll(s.messages, p, 0, Some(HOUR));
  }

  lemma {:induction false} SomeonePosts(limits: Limits) returns (acts: seq<Action>, s: Board)
    ensures Run(limits, acts) == Some(s) && |s.channels| == 1 && s.channels[0].lastSeq == 0 && s.receipts == map[]
      && s.now == 0
    ensures s.members == map[(0, User("u")) := Member(0, 0), (0, User("v")) := Member(1, 0)]
    ensures s.pending == map[1 := Posting(User("v"), "k", 0, "hi", None, None, 0)]
  {
    s, acts := Empty(limits), [];
    assert Run(limits, acts) == Some(s);
    hide Runs.Exec;
    acts, s := Runs.Then(Next, Empty(limits), acts, OpenDirect(0, User("u"), User("v")), s);
    acts, s := Runs.Then(Next, Empty(limits), acts, BeginPost(1, User("v"), "k", 0, "hi", None), s);
  }

  lemma {:induction false} OthersMessageIsRead(limits: Limits) returns (acts: seq<Action>, s: Board)
    ensures Run(limits, acts) == Some(s) && |s.channels| == 1 && s.channels[0].lastSeq == 1
      && s.receipts.Keys == {(User("v"), "k")} && s.now == 0
    ensures (0, User("u")) in s.members && s.members[(0, User("u"))] == Member(0, 0)
    ensures s.pending == map[2 := Reading(User("u"), 0, 1, Some(0), 0)]
  {
    hide Runs.Exec;
    acts, s := SomeonePosts(limits);
    acts, s := Runs.Then(Next, Empty(limits), acts, CommitPost(1, 0, Audience(map[], {}, {})), s);
    acts, s := Runs.Then(Next, Empty(limits), acts, BeginRead(2, User("u"), 0, 1), s);
  }

  /** mark_read takes a cursor back from 2 to 1: the user posts between its read and its save. */
  lemma {:induction false} StaleReadMovesBack(limits: Limits) returns (acts: seq<Action>, s: Board, save: Action)
    ensures Run(limits, acts) == Some(s) && Enabled(s, save) && (0, User("u")) in s.members
      && s.members[(0, User("u"))].read == 2
    ensures (0, User("u")) in Apply(s, save).members && Apply(s, save).members[(0, User("u"))].read == 1
  {
    hide Runs.Exec;
    acts, s := OthersMessageIsRead(limits);
    acts, s := Runs.Then(Next, Empty(limits), acts, BeginPost(3, User("u"), "k", 0, "hi", None), s);
    acts, s := Runs.Then(Next, Empty(limits), acts, CommitPost(3, 0, Audience(map[], {}, {})), s);
    save := CommitRead(2);
    assert s.pending[2] == Reading(User("u"), 0, 1, Some(0), 0);
  }
}
