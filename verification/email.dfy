/**
Sending email (email.py) as a state machine: any number of `send_email` and `approve`
calls, retries included, cut into their database and provider steps and interleaved in
any order. A call may stop before any step, and a provider reply may be lost. The
provider honours its idempotency key: a second send under one key makes no second email.
The code of one call is in `EmailCode`.
*/
module Email {
  import opened Wrappers
  import Runs

  datatype Status = PendingApproval | Queued | Sent | Delivered | Failed | Bounced | Rejected

  /**
  One outbound row; its primary key is its index. `known` says that the provider's id of the
  email was saved. `origin` is history: the request that made the row, whose recipients are
  stored in one list.
  */
  datatype Row = Row(endpoint: string, key: string, subject: string, body: string, recipients: seq<string>,
    parent: string,
                     status: Status, known: bool, origin: Request)

  /** An email at the provider, sent under the idempotency key "msg-<row>". */
  datatype Mail =
    | NewMail(row: nat, subject: string, body: string, to: seq<string>, cc: seq<string>, bcc: seq<string>)
    | ReplyMail(row: nat, parent: string, body: string)

  /** What a caller asks for; `parent` is the provider id of the message it answers, or empty. */
  datatype Request = Request(endpoint: string, key: string, subject: string, body: string, to: seq<string>,
    cc: seq<string>, bcc: seq<string>, parent: string)

  /** How a provider call ends: refused for good, unreachable, with an unknown outcome, or accepted. */
  datatype Reply = Refusal | Unreachable | NoReply(accepted: bool) | Accepted

  datatype Ending =
    | Returned(message: nat)
    | Decided(message: nat)
    | KeyReused
    | Unknown(message: nat)
    | Unreached(message: nat)
    | Undelivered(message: nat)
    | Stopped

  datatype Pc =
    | Creating(request: Request, approval: bool)
    | Approving(message: nat, approve: bool)
    | Calling(message: nat, cc: seq<string>, bcc: seq<string>)
    | MarkingSent(message: nat)
    | MarkingFailed(message: nat)
    | Done(ending: Ending)

  /**
  `asked` remembers the request of each send_email call, `called` the row of each call that reached the provider step.
  */
  datatype State = State(rows: seq<Row>, mails: seq<Mail>, calls: map<nat, Pc>, asked: map<nat, Request>,
    called: map<nat, nat>)

  datatype Step = Create | SaveDecision | Send(reply: Reply) | MarkSent | MarkFailed | Stop

  datatype Action =
    | BeginSend(call: nat, request: Request, approval: bool)
    | BeginApproval(call: nat, message: nat, approve: bool)
    | Take(call: nat, step: Step)
    | Webhook(message: nat, status: Status)

  /** The row of one (endpoint, key), which the database keeps unique among outbound messages. */
  function Lookup(rows: seq<Row>, endpoint: string, key: string): (found: Option<nat>)
    ensures found.Some? ==>
      found.value < |rows| && rows[found.value].endpoint == endpoint && rows[found.value].key == key
    ensures found.None? ==> forall i :: 0 <= i < |rows| ==> !(rows[i].endpoint == endpoint && rows[i].key == key)
  {
    if rows == [] then None else
      var last := |rows| - 1;
      var earlier := Lookup(rows[..last], endpoint, key);
      if earlier.Some? then earlier
      else if rows[last].endpoint == endpoint && rows[last].key == key then Some(last) else None
  }

  predicate Mailed(mails: seq<Mail>, row: nat) {
    exists i :: 0 <= i < |mails| && mails[i].row == row
  }

  /** The provider's idempotency: only the first email of a key goes out. */
  function Accept(mails: seq<Mail>, mail: Mail): seq<Mail> {
    if Mailed(mails, mail.row) then mails else mails + [mail]
  }

  function Without(recipients: seq<string>, copied: set<string>): seq<string> {
    if recipients == [] then []
    else (if recipients[0] in copied then [] else [recipients[0]]) + Without(recipients[1..], copied)
  }

  function Elements(s: seq<string>): set<string> {
    set x | x in s
  }

  /** The To header of a delivery: the recorded recipients without this call's copies, or all of them. */
  function ToHeader(recipients: seq<string>, cc: seq<string>, bcc: seq<string>): seq<string> {
    var rest := Without(recipients, Elements(cc) + Elements(bcc));
    if rest == [] then recipients else rest
  }

  function MailOf(row: Row, id: nat, cc: seq<string>, bcc: seq<string>): Mail {
    if row.parent != "" then ReplyMail(id, row.parent, row.body)
    else NewMail(id, row.subject, row.body, ToHeader(row.recipients, cc, bcc), cc, bcc)
  }

  function RowOf(r: Request, approval: bool): Row {
    Row(r.endpoint, r.key, r.subject, r.body, r.to + r.cc + r.bcc, r.parent, if approval then PendingApproval
      else Queued, false, r)
  }

  function Rank(status: Status): nat {
    match status
    case Sent => 1
    case Delivered => 2
    case Bounced => 3
    case Failed => 3
    case _ => 0
  }

  // ------------------------------------------------------------------ the machine

  predicate CanTake(s: State, pc: Pc, step: Step) {
    match step
    case Create => pc.Creating?
    case SaveDecision => pc.Approving? && pc.message < |s.rows|
    case Send(_) => pc.Calling? && pc.message < |s.rows|
    case MarkSent => pc.MarkingSent? && pc.message < |s.rows|
    case MarkFailed => pc.MarkingFailed? && pc.message < |s.rows|
    case Stop => !pc.Done?
  }

  predicate Enabled(s: State, a: Action) {
    match a
    case BeginSend(c, _, _) => c !in s.calls
    case BeginApproval(c, m, _) => c !in s.calls && m < |s.rows| && s.rows[m].status == PendingApproval
    case Take(c, step) => c in s.calls && CanTake(s, s.calls[c], step)
    case Webhook(m, status) =>
      m < |s.rows| && s.rows[m].known && status in {Delivered, Bounced, Failed}
        && Rank(s.rows[m].status) <= Rank(status)
  }

  /** The one write, or provider call, of a step. */
  datatype Effect =
    | Nothing
    | AddRow(row: Row)
    | SetStatus(message: nat, status: Status, known: bool)
    | SendOut(mail: Mail)

  function EffectOf(s: State, pc: Pc, step: Step): Effect
    requires CanTake(s, pc, step)
  {
    match step
    case Create =>
      if Lookup(s.rows, pc.request.endpoint, pc.request.key).Some? then Nothing
        else AddRow(RowOf(pc.request, pc.approval))
    case SaveDecision => SetStatus(pc.message, if pc.approve then Queued else Rejected, s.rows[pc.message].known)
    case Send(reply) =>
      if reply.Accepted? || (reply.NoReply? && reply.accepted)
      then SendOut(MailOf(s.rows[pc.message], pc.message, pc.cc, pc.bcc)) else Nothing
    case MarkSent => SetStatus(pc.message, Sent, true)
    case MarkFailed => SetStatus(pc.message, Failed, s.rows[pc.message].known)
    case Stop => Nothing
  }

  function Perform(s: State, e: Effect): State {
    match e
    case Nothing => s
    case AddRow(row) => s.(rows := s.rows + [row])
    case SetStatus(m, status, known) =>
      if m < |s.rows| then s.(rows := s.rows[m := s.rows[m].(status := status, known := known)]) else s
    case SendOut(mail) => s.(mails := Accept(s.mails, mail))
  }

  function After(s: State, pc: Pc, step: Step): Pc
    requires CanTake(s, pc, step)
  {
    match step
    case Create =>
      var r := pc.request;
      (match Lookup(s.rows, r.endpoint, r.key)
       case Some(m) =>
         if s.rows[m].body != r.body || s.rows[m].subject != r.subject then Done(KeyReused)
         else if s.rows[m].status != Queued then Done(Returned(m))
         else Calling(m, r.cc, r.bcc)
       case None => if pc.approval then Done(Returned(|s.rows|)) else Calling(|s.rows|, r.cc, r.bcc))
    case SaveDecision => if pc.approve then Calling(pc.message, [], []) else Done(Decided(pc.message))
    case Send(reply) =>
      (match reply
       case Accepted => MarkingSent(pc.message)
       case Refusal => MarkingFailed(pc.message)
       case Unreachable => Done(Unreached(pc.message))
       case NoReply(_) => Done(Unknown(pc.message)))
    case MarkSent => Done(Returned(pc.message))
    case MarkFailed => Done(Undelivered(pc.message))
    case Stop => Done(Stopped)
  }

  function Goto(s: State, c: nat, pc: Pc): State {
    s.(calls := s.calls[c := pc])
  }

  /** The call reaches the provider step. */
  function Noted(s: State, c: nat, step: Step): State
    requires c in s.calls && CanTake(s, s.calls[c], step)
  {
    if step.Send? then s.(called := s.called[c := s.calls[c].message]) else s
  }

  function Apply(s: State, a: Action): State
    requires Enabled(s, a)
  {
    match a
    case BeginSend(c, request, approval) => Goto(s.(asked := s.asked[c := request]), c, Creating(request, approval))
    case BeginApproval(c, m, approve) => Goto(s, c, Approving(m, approve))
    case Take(c, step) => Goto(Perform(Noted(s, c, step), EffectOf(s, s.calls[c], step)), c, After(s, s.calls[c], step))
    case Webhook(m, status) => Perform(s, SetStatus(m, status, true))
  }

  function Next(s: State, a: Action): Option<State> {
    if Enabled(s, a) then Some(Apply(s, a)) else None
  }

  function Empty(): State {
    State([], [], map[], map[], map[])
  }

  function Run(actions: seq<Action>): Option<State> {
    Runs.Exec(Next, Empty(), actions)
  }

  // ------------------------------------------------------------------ the invariant

  /** A row is the email some caller asked for. */
  predicate Matches(row: Row, r: Request) {
    row.endpoint == r.endpoint && row.key == r.key && row.body == r.body && row.subject == r.subject
  }

  predicate RowOk(s: State, m: nat)
    requires m < |s.rows|
  {
    && (s.rows[m].known || s.rows[m].status in {Sent, Delivered, Bounced} ==> Mailed(s.mails, m))
    && s.rows[m] == RowOf(s.rows[m].origin, false).(status := s.rows[m].status, known := s.rows[m].known)
  }

  /** The provider surely did not take the email of this call: it said so, or was not reached. */
  predicate Definite(pc: Pc) {
    pc.MarkingFailed? || (pc.Done? && (pc.ending.Undelivered? || pc.ending.Unreached?))
  }

  /** Some call asked the provider for the row's email, and does not know that it was not taken. */
  ghost predicate HasSender(s: State, m: nat) {
    exists c :: c in s.called && s.called[c] == m && c in s.calls && !Definite(s.calls[c])
  }

  /** An email is its row, with the copies of a caller who asked for this row, or without copies after an approval. */
  ghost predicate MailOk(s: State, i: nat)
    requires i < |s.mails|
  {
    var m := s.mails[i].row;
    m < |s.rows| && exists cc, bcc :: Copies(s, m, cc, bcc) && s.mails[i] == MailOf(s.rows[m], m, cc, bcc)
  }

  ghost predicate Copies(s: State, m: nat, cc: seq<string>, bcc: seq<string>)
    requires m < |s.rows|
  {
    || cc == bcc == []
    || exists c :: c in s.asked && Matches(s.rows[m], s.asked[c]) && s.asked[c].cc == cc && s.asked[c].bcc == bcc
  }

  /** The row a call works on, or has returned. */
  function MessageOf(pc: Pc): Option<nat> {
    match pc
    case Creating(_, _) => None
    case Done(KeyReused) => None
    case Done(Stopped) => None
    case Done(e) => Some(e.message)
    case _ => Some(pc.message)
  }

  /** What a call that reached the provider step for row m may be doing. */
  predicate Mentions(pc: Pc, m: nat) {
    pc == MarkingSent(m) || pc == MarkingFailed(m)
    || pc in {Done(Returned(m)), Done(Unknown(m)), Done(Unreached(m)), Done(Undelivered(m)), Done(Stopped)}
  }

  predicate NeedsCall(pc: Pc) {
    pc.MarkingSent? || pc.MarkingFailed?
      || (pc.Done? && (pc.ending.Unknown? || pc.ending.Unreached? || pc.ending.Undelivered?))
  }

  /** The key of the request belongs to a row with another body or subject. */
  ghost predicate ReusedBy(rows: seq<Row>, r: Request) {
    exists m :: 0 <= m < |rows| && rows[m].endpoint == r.endpoint && rows[m].key == r.key
      && (rows[m].body != r.body || rows[m].subject != r.subject)
  }

  ghost predicate CallOk(s: State, c: nat)
    requires c in s.calls
  {
    var pc := s.calls[c];
    && (MessageOf(pc).Some? ==>
      MessageOf(pc).value < |s.rows| && (c in s.asked ==> Matches(s.rows[MessageOf(pc).value], s.asked[c])))
    && (pc.Creating? ==> c in s.asked && s.asked[c] == pc.request)
    && (pc.Calling? ==> if c in s.asked then pc.cc == s.asked[c].cc && pc.bcc == s.asked[c].bcc
      else pc.cc == pc.bcc == [])
    && (pc.Approving? ==> c !in s.asked)
    && (pc.MarkingSent? ==> Mailed(s.mails, pc.message))
    && (c in s.called ==>
      Mentions(pc, s.called[c]) && (pc.Done? && pc.ending.Returned? ==> Mailed(s.mails, s.called[c])))
    && (NeedsCall(pc) ==> c in s.called)
    && (pc == Done(KeyReused) && c in s.asked ==> ReusedBy(s.rows, s.asked[c]))
  }

  /** Rows and emails fit together. */
  ghost predicate Tables(s: State) {
    && (forall i, j :: 0 <= i < j < |s.rows| ==>
      !(s.rows[i].endpoint == s.rows[j].endpoint && s.rows[i].key == s.rows[j].key))
    && (forall i, j :: 0 <= i < j < |s.mails| ==> s.mails[i].row != s.mails[j].row)
    && (forall m :: 0 <= m < |s.rows| ==> RowOk(s, m))
    && (forall i :: 0 <= i < |s.mails| ==> MailOk(s, i))
  }

  /** Every call fits the tables, and every email has a call that may have sent it. */
  ghost predicate Calls(s: State) {
    && (forall c :: c in s.calls ==> CallOk(s, c))
    && (forall m: nat :: Mailed(s.mails, m) ==> HasSender(s, m))
    && s.asked.Keys <= s.calls.Keys && s.called.Keys <= s.calls.Keys
  }

  ghost predicate Inv(s: State) {
    Tables(s) && Calls(s)
  }

  lemma {:induction false} MailedGrows(mails: seq<Mail>, mail: Mail, row: nat)
    ensures Mailed(Accept(mails, mail), row) <==> Mailed(mails, row) || row == mail.row
  {
    var more := Accept(mails, mail);
    if Mailed(mails, row) {
      var i :| 0 <= i < |mails| && mails[i].row == row;
      assert more[i].row == row;
    }
    if !Mailed(mails, mail.row) { assert more[|mails|] == mail; }
  }

  /** What a change of rows and emails must respect. */
  ghost predicate Grows(s: State, t: State) {
    && |s.rows| <= |t.rows|
    && (forall m :: 0 <= m < |s.rows| ==> t.rows[m] == s.rows[m].(status := t.rows[m].status, known := t.rows[m].known))
    && (forall m: nat :: Mailed(s.mails, m) ==> Mailed(t.mails, m))
    && (forall c :: c in s.asked ==> c in t.asked && t.asked[c] == s.asked[c])
  }

  lemma {:induction false} MailStaysOk(s: State, t: State, i: nat)
    requires Grows(s, t) && i < |s.mails| && i < |t.mails| && t.mails[i] == s.mails[i] && MailOk(s, i)
    ensures MailOk(t, i)
  {
    var m := s.mails[i].row;
    var cc, bcc :| Copies(s, m, cc, bcc) && s.mails[i] == MailOf(s.rows[m], m, cc, bcc);
    if cc != [] || bcc != [] {
      var c :| c in s.asked && Matches(s.rows[m], s.asked[c]) && s.asked[c].cc == cc && s.asked[c].bcc == bcc;
      assert c in t.asked && Matches(t.rows[m], t.asked[c]);
    }
    assert Copies(t, m, cc, bcc);
  }

  lemma {:induction false} AddRowKeepsTables(s: State, r: Request, approval: bool)
    requires Tables(s) && Lookup(s.rows, r.endpoint, r.key).None?
    ensures Tables(Perform(s, AddRow(RowOf(r, approval)))) && Grows(s, Perform(s, AddRow(RowOf(r, approval))))
  {
    var t := Perform(s, AddRow(RowOf(r, approval)));
    forall m | 0 <= m < |t.rows| ensures RowOk(t, m) {
      if m < |s.rows| { assert RowOk(s, m); }
    }
    forall i | 0 <= i < |t.mails| ensures MailOk(t, i) { MailStaysOk(s, t, i); }
  }

  lemma {:induction false} SetStatusKeepsTables(s: State, m: nat, status: Status, known: bool)
    requires Tables(s) && m < |s.rows|
    requires known || status in {Sent, Delivered, Bounced} ==> Mailed(s.mails, m)
    ensures Tables(Perform(s, SetStatus(m, status, known))) && Grows(s, Perform(s, SetStatus(m, status, known)))
  {
    var t := Perform(s, SetStatus(m, status, known));
    forall x | 0 <= x < |t.rows| ensures RowOk(t, x) { assert RowOk(s, x); }
    forall i | 0 <= i < |t.mails| ensures MailOk(t, i) { MailStaysOk(s, t, i); }
  }

  lemma {:induction false} SendOutKeepsTables(s: State, m: nat, cc: seq<string>, bcc: seq<string>)
    requires Tables(s) && m < |s.rows| && Copies(s, m, cc, bcc)
    ensures var t := Perform(s, SendOut(MailOf(s.rows[m], m, cc, bcc)));
      Tables(t) && Grows(s, t) && forall x: nat :: Mailed(t.mails, x) <==> Mailed(s.mails, x) || x == m
  {
    var mail := MailOf(s.rows[m], m, cc, bcc);
    var t := Perform(s, SendOut(mail));
    forall x: nat ensures Mailed(t.mails, x) <==> Mailed(s.mails, x) || x == m { MailedGrows(s.mails, mail, x); }
    forall x | 0 <= x < |t.rows| ensures RowOk(t, x) { assert RowOk(s, x); }
    forall i | 0 <= i < |t.mails| ensures MailOk(t, i) {
      if i < |s.mails| { MailStaysOk(s, t, i); }
      else { assert Copies(t, m, cc, bcc); }
    }
  }

  /** The tables do not look at the calls, and only gain by a new request. */
  lemma {:induction false} TablesStay(s: State, t: State)
    requires Tables(s) && t.rows == s.rows && t.mails == s.mails && Grows(s, t)
    ensures Tables(t)
  {
    forall m | 0 <= m < |t.rows| ensures RowOk(t, m) { assert RowOk(s, m); }
    forall i | 0 <= i < |t.mails| ensures MailOk(t, i) { MailStaysOk(s, t, i); }
  }

  /** One call moves on: the others stay sound, and so does who may have sent what. */
  lemma {:induction false} OneCallMoves(s: State, t: State, c: nat)
    requires Calls(s) && Grows(s, t) && c in t.calls && t.calls == s.calls[c := t.calls[c]] && CallOk(t, c)
    requires forall b :: b != c ==>
      (b in t.asked <==> b in s.asked) && (b in t.called <==> b in s.called) && (b in s.called ==>
        t.called[b] == s.called[b])
    requires c in s.called ==>
      c in t.called && t.called[c] == s.called[c] && c in s.calls && (Definite(s.calls[c]) || !Definite(t.calls[c]))
    requires forall m: nat :: Mailed(t.mails, m) ==>
      Mailed(s.mails, m) || (c in t.called && t.called[c] == m && !Definite(t.calls[c]))
    ensures Calls(t)
  {
    forall b | b in t.calls ensures CallOk(t, b) {
      if b != c { assert CallOk(s, b); }
    }
    forall m: nat | Mailed(t.mails, m) ensures HasSender(t, m) {
      if Mailed(s.mails, m) {
        var b :| b in s.called && s.called[b] == m && b in s.calls && !Definite(s.calls[b]);
        assert b in t.called && t.called[b] == m && !Definite(t.calls[b]);
      } else {
        assert c in t.called;
      }
    }
  }

  lemma {:induction false} TakeShape(s: State, c: nat, step: Step)
    requires Enabled(s, Take(c, step))
    ensures var t := Apply(s, Take(c, step));
      && t.rows == Perform(s, EffectOf(s, s.calls[c], step)).rows
      && t.mails == Perform(s, EffectOf(s, s.calls[c], step)).mails
      && t.calls == s.calls[c := After(s, s.calls[c], step)] && t.asked == s.asked
      && t.called == if step.Send? then s.called[c := s.calls[c].message] else s.called
  {
  }

  lemma {:induction false} EffectKeepsTables(s: State, c: nat, step: Step)
    requires Inv(s) && Enabled(s, Take(c, step))
    ensures var t := Perform(s, EffectOf(s, s.calls[c], step));
      && Tables(t) && Grows(s, t)
      && (forall m: nat :: Mailed(t.mails, m) ==>
        Mailed(s.mails, m) || (step.Send? && m == s.calls[c].message && (step.reply.Accepted? || step.reply.NoReply?)))
      && (step.Send? && step.reply.Accepted? ==> Mailed(t.mails, s.calls[c].message))
  {
    var pc := s.calls[c];
    assert CallOk(s, c);
    match step {
      case Create =>
        if Lookup(s.rows, pc.request.endpoint, pc.request.key).None? { AddRowKeepsTables(s, pc.request, pc.approval); }
      case SaveDecision =>
        assert RowOk(s, pc.message);
        SetStatusKeepsTables(s, pc.message, if pc.approve then Queued else Rejected, s.rows[pc.message].known);
      case Send(reply) =>
        assert Copies(s, pc.message, pc.cc, pc.bcc);
        SendOutKeepsTables(s, pc.message, pc.cc, pc.bcc);
      case MarkSent => SetStatusKeepsTables(s, pc.message, Sent, true);
      case MarkFailed =>
        assert RowOk(s, pc.message);
        SetStatusKeepsTables(s, pc.message, Failed, s.rows[pc.message].known);
      case Stop =>
    }
  }

  lemma {:induction false} TakeKeepsTables(s: State, c: nat, step: Step)
    requires Inv(s) && Enabled(s, Take(c, step))
    ensures var t := Apply(s, Take(c, step));
      && Tables(t) && Grows(s, t)
      && (forall m: nat :: Mailed(t.mails, m) ==>
        Mailed(s.mails, m) || (step.Send? && m == s.calls[c].message && (step.reply.Accepted? || step.reply.NoReply?)))
      && (step.Send? && step.reply.Accepted? ==> Mailed(t.mails, s.calls[c].message))
  {
    TakeShape(s, c, step);
    EffectKeepsTables(s, c, step);
    hide Apply, EffectOf, Perform, Inv;
    var mid, t := Perform(s, EffectOf(s, s.calls[c], step)), Apply(s, Take(c, step));
    assert Grows(s, t);
    assert t.asked == mid.asked;
    TablesStay(mid, t);
  }

  /** Where a step that saves, or calls the provider, leaves its call. */
  lemma {:induction false} SaveArrives(s: State, t: State, c: nat, step: Step)
    requires c in s.calls && CallOk(s, c) && CanTake(s, s.calls[c], step) && !step.Create? && Grows(s, t)
    requires t.calls == s.calls[c := After(s, s.calls[c], step)] && t.asked == s.asked
    requires t.called == if step.Send? then s.called[c := s.calls[c].message] else s.called
    requires step.Send? && step.reply.Accepted? ==> Mailed(t.mails, s.calls[c].message)
    ensures CallOk(t, c)
  {
  }

  lemma {:induction false} CreateArrives(s: State, t: State, c: nat)
    requires c in s.calls && CallOk(s, c) && CanTake(s, s.calls[c], Create) && Grows(s, t)
    requires t.rows == Perform(s, EffectOf(s, s.calls[c], Create)).rows
    requires t.calls == s.calls[c := After(s, s.calls[c], Create)] && t.asked == s.asked && t.called == s.called
    ensures CallOk(t, c)
  {
    var r := s.calls[c].request;
    var found := Lookup(s.rows, r.endpoint, r.key);
    if found.Some? {
      assert t.rows[found.value] == s.rows[found.value];
    } else {
      assert Matches(t.rows[|s.rows|], r);
    }
  }

  lemma {:induction false} SenderStays(s: State, c: nat, step: Step)
    requires c in s.calls && CallOk(s, c) && CanTake(s, s.calls[c], step)
    ensures c in s.called ==> !step.Send? && (Definite(s.calls[c]) || !Definite(After(s, s.calls[c], step)))
    ensures step.Send? && (step.reply.Accepted? || step.reply.NoReply?) ==> !Definite(After(s, s.calls[c], step))
  {
  }

  lemma {:induction false} TakeKeepsInv(s: State, c: nat, step: Step)
    requires Inv(s) && Enabled(s, Take(c, step))
    ensures Inv(Apply(s, Take(c, step)))
  {
    assert CallOk(s, c);
    TakeKeepsTables(s, c, step);
    TakeShape(s, c, step);
    SenderStays(s, c, step);
    hide Apply, EffectOf, Perform, CallOk, Tables, Definite, After, Mailed, Grows;
    var t := Apply(s, Take(c, step));
    if step.Create? { CreateArrives(s, t, c); } else { SaveArrives(s, t, c, step); }
    OneCallMoves(s, t, c);
  }

  lemma {:induction false} BeginKeepsInv(s: State, a: Action)
    requires Inv(s) && Enabled(s, a) && (a.BeginSend? || a.BeginApproval?)
    ensures Inv(Apply(s, a))
  {
    var t := Apply(s, a);
    TablesStay(s, t);
    OneCallMoves(s, t, a.call);
  }

  lemma {:induction false} WebhookKeepsInv(s: State, m: nat, status: Status)
    requires Inv(s) && Enabled(s, Webhook(m, status))
    ensures Inv(Apply(s, Webhook(m, status)))
  {
    var t := Apply(s, Webhook(m, status));
    assert RowOk(s, m);
    SetStatusKeepsTables(s, m, status, true);
    forall c | c in t.calls ensures CallOk(t, c) { assert CallOk(s, c); }
    forall x: nat | Mailed(t.mails, x) ensures HasSender(t, x) {
      var b :| b in s.called && s.called[b] == x && b in s.calls && !Definite(s.calls[b]);
      assert b in t.called;
    }
  }

  lemma {:induction false} StepKeepsInv(s: State, a: Action)
    requires Inv(s) && Enabled(s, a)
    ensures Inv(Apply(s, a))
  {
    match a
    case BeginSend(c, request, approval) => BeginKeepsInv(s, a);
    case BeginApproval(c, m, approve) => BeginKeepsInv(s, a);
    case Take(c, step) => TakeKeepsInv(s, c, step);
    case Webhook(m, status) => WebhookKeepsInv(s, m, status);
  }

  lemma {:induction false} RunKeepsInv(actions: seq<Action>)
    requires Run(actions).Some?
    ensures Inv(Run(actions).value)
  {
    if actions != [] {
      RunKeepsInv(actions[..|actions| - 1]);
      StepKeepsInv(Run(actions[..|actions| - 1]).value, actions[|actions| - 1]);
    }
  }

  // ------------------------------------------------------------------ main results

  /** Each (endpoint, key) yields at most one email at the provider, over any retries, timeouts and crashes. */
  lemma {:induction false} EmailedAtMostOnce(actions: seq<Action>, i: nat, j: nat)
    requires Run(actions).Some? && i < |Run(actions).value.mails| && j < |Run(actions).value.mails|
    ensures var s := Run(actions).value;
      var r, q := s.mails[i].row, s.mails[j].row;
      && r < |s.rows| && q < |s.rows|
      && (s.rows[r].endpoint == s.rows[q].endpoint && s.rows[r].key == s.rows[q].key ==> i == j)
  {
    RunKeepsInv(actions);
    assert MailOk(Run(actions).value, i) && MailOk(Run(actions).value, j);
  }

  /**
  An email has the body, subject and thread of its row; its copies are those of a caller who asked for exactly this
  row.
  */
  lemma {:induction false} EmailSaysWhatWasAsked(actions: seq<Action>, i: nat)
    returns (cc: seq<string>, bcc: seq<string>)
    requires Run(actions).Some? && i < |Run(actions).value.mails|
    ensures var s := Run(actions).value;
      var mail := s.mails[i];
      && mail.row < |s.rows| && Copies(s, mail.row, cc, bcc)
      && var row := s.rows[mail.row];
         if row.parent != "" then mail == ReplyMail(mail.row, row.parent, row.body)
         else mail.NewMail? && mail.subject == row.subject && mail.body == row.body && mail.cc == cc && mail.bcc == bcc
              && Addresses(mail.to, row.recipients, cc + bcc)
  {
    RunKeepsInv(actions);
    var s := Run(actions).value;
    assert MailOk(s, i);
    var row := s.rows[s.mails[i].row];
    var c, b :| Copies(s, s.mails[i].row, c, b) && s.mails[i] == MailOf(row, s.mails[i].row, c, b);
    cc, bcc := c, b;
    ToAddresses(row.recipients, cc, bcc);
  }

  /** The recorded recipients that are not copied, or all of them if everybody is copied. */
  ghost predicate Addresses(to: seq<string>, recipients: seq<string>, copied: seq<string>) {
    if forall x :: x in recipients ==> x in copied then to == recipients
    else forall x :: x in to <==> x in recipients && x !in copied
  }

  lemma {:induction false} WithoutKeeps(recipients: seq<string>, copied: set<string>)
    ensures forall x :: x in Without(recipients, copied) <==> x in recipients && x !in copied
    ensures (forall x :: x in recipients ==> x in copied) ==> Without(recipients, copied) == []
  {
    if recipients != [] { WithoutKeeps(recipients[1..], copied); }
  }

  lemma {:induction false} ToAddresses(recipients: seq<string>, cc: seq<string>, bcc: seq<string>)
    ensures Addresses(ToHeader(recipients, cc, bcc), recipients, cc + bcc)
  {
    var copied := Elements(cc) + Elements(bcc);
    WithoutKeeps(recipients, copied);
    assert forall x :: x in copied <==> x in cc + bcc;
    if exists x :: x in recipients && x !in cc + bcc {
      var x :| x in recipients && x !in cc + bcc;
      assert x in Without(recipients, copied);
    }
  }

  /** The row is this request, field by field, with all its recipients in one list. */
  predicate Says(row: Row, r: Request) {
    && row.endpoint == r.endpoint && row.key == r.key && row.subject == r.subject && row.body == r.body
    && row.parent == r.parent && row.recipients == r.to + r.cc + r.bcc && row.origin == r
  }

  /** A call of send_email asked for it. */
  ghost predicate Asked(s: State, row: Row) {
    exists c :: c in s.asked && Says(row, s.asked[c])
  }

  ghost predicate AllAsked(s: State) {
    s.asked.Keys <= s.calls.Keys && forall m :: 0 <= m < |s.rows| ==> Asked(s, s.rows[m])
  }

  lemma {:induction false} StepKeepsAsked(s: State, a: Action)
    requires Inv(s) && AllAsked(s) && Enabled(s, a)
    ensures AllAsked(Apply(s, a))
  {
    var t := Apply(s, a);
    if a.Take? {
      assert CallOk(s, a.call);
      TakeShape(s, a.call, a.step);
    }
    hide Inv, Apply, Enabled;
    forall m | 0 <= m < |t.rows| ensures Asked(t, t.rows[m]) {
      if m < |s.rows| {
        assert Asked(s, s.rows[m]);
        var c :| c in s.asked && Says(s.rows[m], s.asked[c]);
        assert c in t.asked && Says(t.rows[m], t.asked[c]);
      } else {
        assert a.call in t.asked && Says(t.rows[m], t.asked[a.call]);
      }
    }
  }

  /** Every row is a request that some call of send_email made. */
  lemma {:induction false} RowsAreAskedFor(actions: seq<Action>, m: nat)
    requires Run(actions).Some? && m < |Run(actions).value.rows|
    ensures Asked(Run(actions).value, Run(actions).value.rows[m])
  {
    AskedInRun(actions);
  }

  lemma {:induction false} AskedInRun(actions: seq<Action>)
    requires Run(actions).Some?
    ensures AllAsked(Run(actions).value)
  {
    if actions != [] {
      AskedInRun(actions[..|actions| - 1]);
      RunKeepsInv(actions[..|actions| - 1]);
      StepKeepsAsked(Run(actions[..|actions| - 1]).value, actions[|actions| - 1]);
    }
  }

  /**
  A key is accepted again exactly when endpoint, key, body and subject agree with the row it
  made. Then the caller is given that row, whatever else it asked for.
  */
  lemma {:induction false} KeyAcceptedIff(actions: seq<Action>, c: nat)
    requires Run(actions).Some? && c in Run(actions).value.calls && c in Run(actions).value.asked
    requires !Run(actions).value.calls[c].Creating? && Run(actions).value.calls[c] != Done(Stopped)
    ensures var s := Run(actions).value;
      var r := s.asked[c];
      var found := Lookup(s.rows, r.endpoint, r.key);
      && found.Some?
      && (s.calls[c] == Done(KeyReused) <==>
        s.rows[found.value].body != r.body || s.rows[found.value].subject != r.subject)
      && (s.calls[c] != Done(KeyReused) ==> MessageOf(s.calls[c]) == found)
  {
    RunKeepsInv(actions);
    KeyAcceptedInState(Run(actions).value, c);
  }

  lemma {:induction false} KeyAcceptedInState(s: State, c: nat)
    requires Inv(s) && c in s.calls && c in s.asked && !s.calls[c].Creating? && s.calls[c] != Done(Stopped)
    ensures var r := s.asked[c];
      var found := Lookup(s.rows, r.endpoint, r.key);
      && found.Some?
      && (s.calls[c] == Done(KeyReused) <==>
        s.rows[found.value].body != r.body || s.rows[found.value].subject != r.subject)
      && (s.calls[c] != Done(KeyReused) ==> MessageOf(s.calls[c]) == found)
  {
    var r := s.asked[c];
    assert CallOk(s, c);
    if s.calls[c] == Done(KeyReused) {
      assert ReusedBy(s.rows, r);
      var m: nat :| m < |s.rows| && s.rows[m].endpoint == r.endpoint && s.rows[m].key == r.key
        && (s.rows[m].body != r.body || s.rows[m].subject != r.subject);
      LookupFinds(s, m);
    } else {
      LookupFinds(s, MessageOf(s.calls[c]).value);
    }
  }

  lemma {:induction false} LookupFinds(s: State, m: nat)
    requires Tables(s) && m < |s.rows|
    ensures Lookup(s.rows, s.rows[m].endpoint, s.rows[m].key) == Some(m)
  {
    var found := Lookup(s.rows, s.rows[m].endpoint, s.rows[m].key);
    assert found.Some?;
  }

  lemma {:induction false} SentWasEmailed(actions: seq<Action>, m: nat)
    requires Run(actions).Some? && m < |Run(actions).value.rows|
      && Run(actions).value.rows[m].status in {Sent, Delivered, Bounced}
    ensures Mailed(Run(actions).value.mails, m)
  {
    RunKeepsInv(actions);
    assert RowOk(Run(actions).value, m);
  }

  // ------------------------------------------------------------------ addressees

  function Addressees(mail: Mail): set<string>
    requires mail.NewMail?
  {
    Elements(mail.to) + Elements(mail.cc) + Elements(mail.bcc)
  }

  lemma {:induction false} WithoutIs(recipients: seq<string>, copied: set<string>)
    ensures Elements(Without(recipients, copied)) == Elements(recipients) - copied
    ensures Without(recipients, copied) == recipients <==> Elements(recipients) !! copied
    ensures |Without(recipients, copied)| <= |recipients|
  {
    if recipients != [] {
      WithoutIs(recipients[1..], copied);
      assert recipients == [recipients[0]] + recipients[1..];
      assert Elements(recipients) == {recipients[0]} + Elements(recipients[1..]);
      if recipients[0] !in copied {
        assert Elements([recipients[0]] + Without(recipients[1..], copied))
          == {recipients[0]} + Elements(Without(recipients[1..], copied));
        assert Without(recipients, copied)[1..] == Without(recipients[1..], copied);
      } else {
        assert |Without(recipients, copied)| < |recipients|;
      }
    }
  }

  lemma {:induction false} WithoutAppend(a: seq<string>, b: seq<string>, copied: set<string>)
    ensures Without(a + b, copied) == Without(a, copied) + Without(b, copied)
  {
    if a == [] { assert a + b == b; }
    else {
      assert (a + b)[1..] == a[1..] + b;
      WithoutAppend(a[1..], b, copied);
    }
  }

  /**
  The recorded recipients, and nobody else, get the email exactly when the copies of the delivering call are recorded
  recipients.
  */
  lemma {:induction false} RecipientsExactIff(row: Row, m: nat, cc: seq<string>, bcc: seq<string>)
    requires row.parent == ""
    ensures Addressees(MailOf(row, m, cc, bcc)) == Elements(row.recipients) <==>
      Elements(cc) + Elements(bcc) <= Elements(row.recipients)
  {
    WithoutIs(row.recipients, Elements(cc) + Elements(bcc));
    var rest := Without(row.recipients, Elements(cc) + Elements(bcc));
    assert Elements(ToHeader(row.recipients, cc, bcc)) + (Elements(cc) + Elements(bcc))
      == Elements(row.recipients) + (Elements(cc) + Elements(bcc));
  }

  /**
  A delivery with the request's own copies has exactly the requested To header, exactly when
  nobody on it is also copied and it is not empty beside copies.
  */
  lemma {:induction false} ToHeaderIff(r: Request)
    ensures ToHeader(r.to + r.cc + r.bcc, r.cc, r.bcc) == r.to <==>
      Elements(r.to) !! Elements(r.cc) + Elements(r.bcc) && (r.to != [] || r.cc + r.bcc == [])
  {
    var copied := Elements(r.cc) + Elements(r.bcc);
    WithoutAppend(r.to + r.cc, r.bcc, copied);
    WithoutAppend(r.to, r.cc, copied);
    WithoutIs(r.to, copied);
    WithoutIs(r.cc, copied);
    WithoutIs(r.bcc, copied);
    NoElements(Without(r.cc, copied));
    NoElements(Without(r.bcc, copied));
    assert Without(r.to + r.cc + r.bcc, copied) == Without(r.to, copied);
    if r.to != [] && Without(r.to, copied) == [] {
      assert r.to[0] in Elements(r.to) && r.to[0] !in Elements([]);
      assert |r.cc| + |r.bcc| > 0;
    }
  }

  /** Somebody reads the address in the headers that every recipient sees. */
  predicate Shown(mail: Mail, x: string)
    requires mail.NewMail?
  {
    x in mail.to || x in mail.cc
  }

  /**
  A blind copy of the request that made the row is shown exactly when the delivering call
  lists it as an open copy, or not as a blind one, or copies everybody the row records.
  */
  lemma {:induction false} BlindCopyShownIff(actions: seq<Action>, i: nat, x: string)
    requires Run(actions).Some? && i < |Run(actions).value.mails| && Run(actions).value.mails[i].NewMail?
    ensures var s := Run(actions).value;
      var mail := s.mails[i];
      && mail.row < |s.rows|
      && var row := s.rows[mail.row];
         row.recipients == row.origin.to + row.origin.cc + row.origin.bcc
         && (x in row.origin.bcc ==>
              (Shown(mail, x) <==>
                x in mail.cc || x !in mail.bcc
                || Elements(row.recipients) <= Elements(mail.cc) + Elements(mail.bcc)))
  {
    RunKeepsInv(actions);
    var s := Run(actions).value;
    assert MailOk(s, i) && RowOk(s, s.mails[i].row);
    var row, mail := s.rows[s.mails[i].row], s.mails[i];
    assert mail.to == ToHeader(row.recipients, mail.cc, mail.bcc);
    if x in row.origin.bcc {
      assert x in row.recipients;
      InToHeaderIff(row.recipients, mail.cc, mail.bcc, x);
    }
  }

  lemma {:induction false} InToHeaderIff(recipients: seq<string>, cc: seq<string>, bcc: seq<string>, x: string)
    requires x in recipients
    ensures x in ToHeader(recipients, cc, bcc) <==>
      (x !in cc && x !in bcc) || Elements(recipients) <= Elements(cc) + Elements(bcc)
  {
    var copied := Elements(cc) + Elements(bcc);
    var rest := Without(recipients, copied);
    WithoutIs(recipients, copied);
    NoElements(rest);
    assert x in rest <==> x in Elements(rest);
    assert x in copied <==> x in cc || x in bcc;
    assert x in Elements(recipients);
    if rest != [] {
      assert rest[0] in Elements(rest) && rest[0] in Elements(recipients) - copied;
    } else {
      forall y | y in Elements(recipients) ensures y in copied { assert y !in Elements(recipients) - copied; }
    }
  }

  lemma {:induction false} NoElements(s: seq<string>)
    ensures Elements(s) == {} <==> s == []
  {
    if s != [] { assert s[0] in Elements(s); }
  }

  /** A webhook reports an email whose provider id is saved: delivered, unless it bounced or failed; or one of these. */
  lemma {:induction false} WebhookIff(s: State, m: nat, status: Status)
    ensures Enabled(s, Webhook(m, status)) <==>
      m < |s.rows| && s.rows[m].known
      && (status in {Bounced, Failed} || (status == Delivered && s.rows[m].status !in {Bounced, Failed}))
  {
  }

  // ------------------------------------------------------------------ held and rejected emails

  /** No two calls are about to decide one message differently. */
  ghost predicate NoDisagreement(s: State) {
    forall a, b :: a in s.calls && b in s.calls && s.calls[a].Approving? && s.calls[b].Approving? ==>
      (s.calls[a].approve && !s.calls[b].approve ==> s.calls[a].message != s.calls[b].message)
  }

  ghost predicate NoDisagreementThroughout(actions: seq<Action>) {
    forall n {:trigger actions[..n]} :: 0 <= n < |actions| && Run(actions[..n]).Some? ==>
      NoDisagreement(Run(actions[..n]).value)
  }

  predicate Delivers(pc: Pc, m: nat) {
    (pc.Calling? || pc.MarkingSent? || pc.MarkingFailed?) && pc.message == m
  }

  ghost predicate HeldRow(s: State, m: nat)
    requires m < |s.rows|
  {
    s.rows[m].status in {PendingApproval, Rejected} ==>
      !s.rows[m].known && !Mailed(s.mails, m) && forall c :: c in s.calls ==> !Delivers(s.calls[c], m)
  }

  predicate ApproverOk(s: State, c: nat)
    requires c in s.calls
  {
    s.calls[c].Approving? ==>
      s.calls[c].message < |s.rows| && (!s.calls[c].approve ==>
        s.rows[s.calls[c].message].status in {PendingApproval, Rejected})
  }

  ghost predicate Held(s: State) {
    && (forall m :: 0 <= m < |s.rows| ==> HeldRow(s, m))
    && (forall c :: c in s.calls ==> ApproverOk(s, c))
  }

  lemma {:induction false} HeldStep(s: State, a: Action)
    requires Inv(s) && Held(s) && NoDisagreement(s) && Enabled(s, a)
    ensures Held(Apply(s, a))
  {
    var t := Apply(s, a);
    match a
    case Take(c, step) =>
      if step.Create? { HeldCreate(s, c); }
      else if step.Send? { HeldSend(s, c, step.reply); }
      else { HeldSave(s, c, step); }
    case Webhook(w, _) =>
      assert HeldRow(s, w);
      forall m | 0 <= m < |t.rows| ensures HeldRow(t, m) { assert HeldRow(s, m); }
      forall b | b in t.calls ensures ApproverOk(t, b) { assert ApproverOk(s, b); }
    case _ =>
      forall m | 0 <= m < |t.rows| ensures HeldRow(t, m) { assert HeldRow(s, m); }
      forall b | b in t.calls ensures ApproverOk(t, b) { assert b in s.calls ==> ApproverOk(s, b); }
  }

  lemma {:induction false} HeldCreate(s: State, c: nat)
    requires Inv(s) && Held(s) && Enabled(s, Take(c, Create))
    ensures Held(Apply(s, Take(c, Create)))
  {
    var t := Apply(s, Take(c, Create));
    forall b | b in s.calls ensures !Delivers(s.calls[b], |s.rows|) { assert CallOk(s, b); }
    forall i | 0 <= i < |s.mails| ensures s.mails[i].row != |s.rows| { assert MailOk(s, i); }
    forall m | 0 <= m < |t.rows| ensures HeldRow(t, m) {
      if m < |s.rows| { assert HeldRow(s, m); }
    }
    forall b | b in t.calls ensures ApproverOk(t, b) { assert ApproverOk(s, b); }
  }

  lemma {:induction false} HeldSend(s: State, c: nat, reply: Reply)
    requires Inv(s) && Held(s) && Enabled(s, Take(c, Send(reply)))
    ensures Held(Apply(s, Take(c, Send(reply))))
  {
    var t := Apply(s, Take(c, Send(reply)));
    var pc := s.calls[c];
    forall m | 0 <= m < |t.rows| ensures HeldRow(t, m) {
      assert HeldRow(s, m);
      MailedGrows(s.mails, MailOf(s.rows[pc.message], pc.message, pc.cc, pc.bcc), m);
    }
    forall b | b in t.calls ensures ApproverOk(t, b) { assert ApproverOk(s, b); }
  }

  lemma {:induction false} HeldSave(s: State, c: nat, step: Step)
    requires Inv(s) && Held(s) && NoDisagreement(s) && Enabled(s, Take(c, step)) && !step.Create? && !step.Send?
    ensures Held(Apply(s, Take(c, step)))
  {
    hide Apply, Inv, Mailed;
    var t := Apply(s, Take(c, step));
    assert ApproverOk(s, c);
    TakeShape(s, c, step);
    forall m | 0 <= m < |t.rows| ensures HeldRow(t, m) { assert HeldRow(s, m); }
    forall b | b in t.calls ensures ApproverOk(t, b) {
      assert ApproverOk(s, b);
      if s.calls[b].Approving? { assert HeldRow(s, s.calls[b].message); }
    }
  }

  /**
  An email that waits for approval, or was rejected, has not been sent, unless two decisions on it overlap and differ.
  */
  lemma {:induction false} HeldIsNotEmailed(actions: seq<Action>, m: nat)
    requires Run(actions).Some? && NoDisagreementThroughout(actions)
    ensures var s := Run(actions).value;
      Held(s) && (m < |s.rows| && s.rows[m].status in {PendingApproval, Rejected} ==> !Mailed(s.mails, m))
  {
    var n := |actions|;
    if actions != [] {
      var fewer := actions[..n - 1];
      forall k | 0 <= k < |fewer| && Run(fewer[..k]).Some?
        ensures NoDisagreement(Run(fewer[..k]).value)
      {
        assert fewer[..k] == actions[..k];
      }
      HeldIsNotEmailed(fewer, m);
      RunKeepsInv(fewer);
      assert fewer == actions[..n - 1];
      HeldStep(Run(fewer).value, actions[n - 1]);
    }
    if m < |Run(actions).value.rows| { assert HeldRow(Run(actions).value, m); }
  }

  lemma {:induction false} DecisionSaves(s: State, c: nat, m: nat, approve: bool)
    requires Inv(s) && c in s.calls && s.calls[c] == Approving(m, approve)
    ensures var t := Next(s, Take(c, SaveDecision));
      && t.Some? && m < |t.value.rows| && t.value.rows[m].status == (if approve then Queued else Rejected)
      && t.value.mails == s.mails
      && c in t.value.calls && (approve ==> t.value.calls[c] == Calling(m, [], []))
      && forall b :: b != c && b in s.calls ==> b in t.value.calls && t.value.calls[b] == s.calls[b]
  {
    assert CallOk(s, c);
    hide Inv;
  }

  lemma {:induction false} DeliveryMails(s: State, c: nat, m: nat)
    requires c in s.calls && s.calls[c] == Calling(m, [], []) && m < |s.rows|
    ensures var t := Next(s, Take(c, Send(Accepted)));
      && t.Some? && Mailed(t.value.mails, m) && t.value.rows == s.rows
      && forall b :: b != c && b in s.calls ==> b in t.value.calls && t.value.calls[b] == s.calls[b]
  {
    MailedGrows(s.mails, MailOf(s.rows[m], m, [], []), m);
  }

  /** In any run, an approval and a rejection that overlap can leave an emailed row REJECTED in three steps. */
  lemma {:induction false} DisagreementRejectsEmailed(actions: seq<Action>, b: nat, c: nat, m: nat)
    returns (more: seq<Action>, t: State)
    requires Run(actions).Some? && b in Run(actions).value.calls && c in Run(actions).value.calls
    requires Run(actions).value.calls[b] == Approving(m, true) && Run(actions).value.calls[c] == Approving(m, false)
    ensures |more| == |actions| + 3 && actions <= more && Run(more) == Some(t)
    ensures m < |t.rows| && t.rows[m].status == Rejected && Mailed(t.mails, m)
  {
    hide Runs.Exec, Next, Inv, Mailed;
    t := Run(actions).value;
    RunKeepsInv(actions);
    DecisionSaves(t, b, m, true);
    more, t := Runs.Then(Next, Empty(), actions, Take(b, SaveDecision), t);
    DeliveryMails(t, b, m);
    more, t := Runs.Then(Next, Empty(), more, Take(b, Send(Accepted)), t);
    RunKeepsInv(more);
    DecisionSaves(t, c, m, false);
    more, t := Runs.Then(Next, Empty(), more, Take(c, SaveDecision), t);
  }

  /** Two owners come to that point with any request. */
  lemma {:induction false} TwoOwnersDisagree(r: Request) returns (acts: seq<Action>, s: State)
    ensures Run(acts) == Some(s) && 2 in s.calls && s.calls[2] == Approving(0, true) && 3 in s.calls
      && s.calls[3] == Approving(0, false)
  {
    s, acts := Empty(), [];
    assert Run(acts) == Some(s);
    hide Runs.Exec;
    acts, s := Runs.Then(Next, Empty(), acts, BeginSend(1, r, true), s);
    acts, s := Runs.Then(Next, Empty(), acts, Take(1, Create), s);
    acts, s := Runs.Then(Next, Empty(), acts, BeginApproval(2, 0, true), s);
    acts, s := Runs.Then(Next, Empty(), acts, BeginApproval(3, 0, false), s);
  }

  // ------------------------------------------------------------------ what FAILED does not say

  /**
  Two states that look the same to the database and to every caller, and in which the same
  calls reached the provider; only the provider knows what it accepted.
  */
  predicate LooksLike(s: State, t: State) {
    s.rows == t.rows && s.calls == t.calls && s.asked == t.asked && s.called == t.called
  }

  ghost predicate AllDefinite(s: State, m: nat) {
    forall c :: c in s.called && s.called[c] == m && c in s.calls ==> Definite(s.calls[c])
  }

  lemma {:induction false} DefiniteIsUnsent(s: State, m: nat)
    requires Inv(s) && AllDefinite(s, m)
    ensures !Mailed(s.mails, m)
  {
    assert Mailed(s.mails, m) ==> HasSender(s, m);
  }

  /** The same run, except that call c got another reply for row m: the provider took the email. */
  ghost predicate Twin(s: State, t: State, c: nat, m: nat) {
    && t.rows == s.rows && t.asked == s.asked && t.called == s.called && Mailed(t.mails, m)
    && c in s.calls && t.calls == if s.calls[c] == MarkingFailed(m) then s.calls[c := MarkingSent(m)] else s.calls
  }

  /** A step of another call, or the crash of this one, does not tell the twins apart. */
  lemma {:induction false} TwinTake(s: State, t: State, c: nat, m: nat, b: nat, step: Step)
    requires Twin(s, t, c, m) && Enabled(s, Take(b, step)) && (b == c ==> step.Stop?)
    ensures Enabled(t, Take(b, step)) && Twin(Apply(s, Take(b, step)), Apply(t, Take(b, step)), c, m)
  {
    TakeShape(s, b, step);
    if b != c { TwinEffect(s, t, m, s.calls[b], step); }
    TakeShape(t, b, step);
    if b == c {
      assert step.Stop? && Perform(t, EffectOf(t, t.calls[b], step)) == t
        && Perform(s, EffectOf(s, s.calls[b], step)) == s;
    }
    hide Apply, Perform, EffectOf, After, CanTake;
  }

  /** The same step from the same rows writes the same rows, and never takes an email back. */
  lemma {:induction false} TwinEffect(s: State, t: State, m: nat, pc: Pc, step: Step)
    requires s.rows == t.rows && CanTake(s, pc, step) && Mailed(t.mails, m)
    ensures CanTake(t, pc, step) && After(t, pc, step) == After(s, pc, step)
    ensures Perform(t, EffectOf(t, pc, step)).rows == Perform(s, EffectOf(s, pc, step)).rows
      && Mailed(Perform(t, EffectOf(t, pc, step)).mails, m)
  {
    if step.Send? { MailedGrows(t.mails, MailOf(t.rows[pc.message], pc.message, pc.cc, pc.bcc), m); }
  }

  lemma {:induction false} TwinStep(s: State, t: State, c: nat, m: nat, a: Action)
    requires Twin(s, t, c, m) && Enabled(s, a) && (a.Take? && a.call == c ==> a.step.Stop?)
    ensures Enabled(t, a) && Twin(Apply(s, a), Apply(t, a), c, m)
  {
    if a.Take? { TwinTake(s, t, c, m, a.call, a.step); }
  }

  /** A call that reached the provider step and does not know, or stopped before telling, may have sent the email. */
  lemma {:induction false} MayHaveSent(actions: seq<Action>, c: nat, m: nat) returns (others: seq<Action>)
    requires Run(actions).Some?
    requires MayBeSender(Run(actions).value, c, m)
    ensures Run(others).Some? && Twin(Run(actions).value, Run(others).value, c, m)
  {
    var n, s := |actions|, Run(actions).value;
    var fewer, a := actions[..n - 1], actions[n - 1];
    var b := Run(fewer).value;
    RunKeepsInv(fewer);
    SenderBefore(b, a, c, m);
    if a.Take? && a.call == c && a.step.Send? {
      others := fewer + [Take(c, Send(Took(a.step.reply)))];
      assert others[..n - 1] == fewer;
    } else if b.calls[c] == MarkingSent(m) {
      others := actions;
    } else {
      var twin := MayHaveSent(fewer, c, m);
      TwinStep(b, Run(twin).value, c, m, a);
      others := twin + [a];
      assert others[..|twin|] == twin;
    }
  }

  predicate MayBeSender(s: State, c: nat, m: nat) {
    c in s.called && s.called[c] == m && c in s.calls
      && s.calls[c] in {MarkingFailed(m), Done(Unknown(m)), Done(Stopped)}
  }

  /** The reply that looks the same as a lost one, or as one that nobody was told of, although the email was taken. */
  function Took(reply: Reply): Reply {
    if reply.NoReply? then NoReply(true) else Accepted
  }

  /**
  How a call came to where it may have sent: by its provider step now, or it was there before, or it stopped just now.
  */
  lemma {:induction false} SenderBefore(b: State, a: Action, c: nat, m: nat)
    requires Inv(b) && Enabled(b, a) && MayBeSender(Apply(b, a), c, m)
    ensures a.Take? && a.call == c && a.step.Send? ==>
      && !a.step.reply.Unreachable? && !a.step.reply.Accepted?
      && Enabled(b, Take(c, Send(Took(a.step.reply))))
      && Twin(Apply(b, a), Apply(b, Take(c, Send(Took(a.step.reply)))), c, m)
    ensures !(a.Take? && a.call == c && a.step.Send?) ==>
      if c in b.calls && b.calls[c] == MarkingSent(m) then Twin(Apply(b, a), Apply(b, a), c, m)
      else MayBeSender(b, c, m) && (a.Take? && a.call == c ==> a.step.Stop?)
  {
    if a.Take? { SenderTook(b, a.call, a.step, c, m); }
    else if c in b.calls { assert CallOk(b, c); }
  }

  lemma {:induction false} SenderTook(b: State, d: nat, step: Step, c: nat, m: nat)
    requires Inv(b) && Enabled(b, Take(d, step)) && MayBeSender(Apply(b, Take(d, step)), c, m)
    ensures d == c && step.Send? ==>
      && !step.reply.Unreachable? && !step.reply.Accepted?
      && Enabled(b, Take(c, Send(Took(step.reply))))
      && Twin(Apply(b, Take(d, step)), Apply(b, Take(c, Send(Took(step.reply)))), c, m)
    ensures !(d == c && step.Send?) ==>
      if c in b.calls && b.calls[c] == MarkingSent(m) then Twin(Apply(b, Take(d, step)), Apply(b, Take(d, step)), c, m)
      else MayBeSender(b, c, m) && (d == c ==> step.Stop?)
  {
    TakeShape(b, d, step);
    assert CallOk(b, d) && CallOk(b, c);
    TakeKeepsTables(b, d, step);
    if d == c && step.Send? { SendTook(b, c, step.reply, m); }
    hide Apply, Inv, Tables;
  }

  lemma {:induction false} SendTook(b: State, c: nat, reply: Reply, m: nat)
    requires Enabled(b, Take(c, Send(reply))) && MayBeSender(Apply(b, Take(c, Send(reply))), c, m)
    ensures !reply.Unreachable? && !reply.Accepted? && Enabled(b, Take(c, Send(Took(reply))))
    ensures Twin(Apply(b, Take(c, Send(reply))), Apply(b, Take(c, Send(Took(reply)))), c, m)
  {
    TakeShape(b, c, Send(reply));
    TakeShape(b, c, Send(Took(reply)));
    hide Apply;
    MailedGrows(b.mails, MailOf(b.rows[m], m, b.calls[c].cc, b.calls[c].bcc), m);
  }

  /**
  That the email of a row, FAILED or not, was not sent can be told from the tables, the
  callers' answers and which calls reached the provider exactly when every call that reached
  it for the row was refused, or did not get through. After a lost reply, or a crash before
  the answer is known, some run that looks the same has sent it.
  */
  lemma {:induction false} KnownUnsentIff(actions: seq<Action>, m: nat)
    requires Run(actions).Some?
    ensures var s := Run(actions).value;
      (forall others :: Run(others).Some? && LooksLike(Run(others).value, s) ==>
        !Mailed(Run(others).value.mails, m)) <==> AllDefinite(s, m)
  {
    var s := Run(actions).value;
    RunKeepsInv(actions);
    if AllDefinite(s, m) {
      forall others | Run(others).Some? && LooksLike(Run(others).value, s) ensures !Mailed(Run(others).value.mails, m) {
        RunKeepsInv(others);
        assert AllDefinite(Run(others).value, m);
        DefiniteIsUnsent(Run(others).value, m);
      }
    } else {
      var c :| c in s.called && s.called[c] == m && c in s.calls && !Definite(s.calls[c]);
      assert CallOk(s, c);
      var others := actions;
      if s.calls[c] in {Done(Unknown(m)), Done(Stopped)} { others := MayHaveSent(actions, c, m); }
      assert Run(others).Some? && LooksLike(Run(others).value, s) && Mailed(Run(others).value.mails, m);
    }
  }

  // ------------------------------------------------------------------ runs

  /** A first call for a request, up to the provider's reply. */
  lemma {:induction false} FirstCall(r: Request, reply: Reply) returns (acts: seq<Action>, s: State)
    ensures Run(acts) == Some(s) && s.rows == [RowOf(r, false)] && s.calls.Keys == {1} && 1 in s.calls
    ensures var accepted := reply.Accepted? || (reply.NoReply? && reply.accepted);
      s.mails == if accepted then [MailOf(RowOf(r, false), 0, r.cc, r.bcc)] else []
    ensures s.calls[1] == match reply
      case Accepted => MarkingSent(0)
      case Refusal => MarkingFailed(0)
      case Unreachable => Done(Unreached(0))
      case NoReply(_) => Done(Unknown(0))
  {
    s, acts := Empty(), [];
    assert Run(acts) == Some(s);
    hide Runs.Exec;
    acts, s := Runs.Then(Next, Empty(), acts, BeginSend(1, r, false), s);
    acts, s := Runs.Then(Next, Empty(), acts, Take(1, Create), s);
    acts, s := Runs.Then(Next, Empty(), acts, Take(1, Send(reply)), s);
  }

  /** Even one call at a time: a lost reply and then a refused retry leave an email that was sent marked FAILED. */
  lemma {:induction false} FailedMayBeEmailed(r: Request) returns (acts: seq<Action>, s: State)
    ensures Run(acts) == Some(s) && |s.rows| == 1 && s.rows[0].status == Failed && Mailed(s.mails, 0)
  {
    hide Runs.Exec;
    acts, s := FirstCall(r, NoReply(true));
    acts, s := Runs.Then(Next, Empty(), acts, BeginSend(2, r, false), s);
    acts, s := Runs.Then(Next, Empty(), acts, Take(2, Create), s);
    acts, s := Runs.Then(Next, Empty(), acts, Take(2, Send(Refusal)), s);
    acts, s := Runs.Then(Next, Empty(), acts, Take(2, MarkFailed), s);
    assert s.mails[0].row == 0;
  }

  /**
  The key, body and subject are all that is compared: a request for other people, or in another thread, is answered
  with the first one's email.
  */
  lemma {:induction false} OtherRecipientsAreAccepted(first: Request, second: Request)
    returns (acts: seq<Action>, s: State)
    requires first.endpoint == second.endpoint && first.key == second.key && first.body == second.body
      && first.subject == second.subject
    ensures Run(acts) == Some(s) && 2 in s.asked && s.asked[2] == second && 2 in s.calls
      && s.calls[2] == Done(Returned(0))
    ensures s.mails == [MailOf(RowOf(first, false), 0, first.cc, first.bcc)]
  {
    hide Runs.Exec;
    acts, s := FirstCall(first, Accepted);
    acts, s := Runs.Then(Next, Empty(), acts, Take(1, MarkSent), s);
    acts, s := Runs.Then(Next, Empty(), acts, BeginSend(2, second, false), s);
    acts, s := Runs.Then(Next, Empty(), acts, Take(2, Create), s);
  }

  /** An email held for approval goes out without its copies: everybody, blind copies too, is in the To header. */
  lemma {:induction false} ApprovalShowsEverybody(r: Request) returns (acts: seq<Action>, s: State)
    requires r.parent == ""
    ensures Run(acts) == Some(s) && s.mails == [NewMail(0, r.subject, r.body, r.to + r.cc + r.bcc, [], [])]
    ensures forall x :: x in r.bcc ==> Shown(s.mails[0], x)
  {
    s, acts := Empty(), [];
    assert Run(acts) == Some(s);
    hide Runs.Exec;
    acts, s := Runs.Then(Next, Empty(), acts, BeginSend(1, r, true), s);
    acts, s := Runs.Then(Next, Empty(), acts, Take(1, Create), s);
    acts, s := Runs.Then(Next, Empty(), acts, BeginApproval(2, 0, true), s);
    acts, s := Runs.Then(Next, Empty(), acts, Take(2, SaveDecision), s);
    EverybodyWithoutCopies(r);
    acts, s := Runs.Then(Next, Empty(), acts, Take(2, Send(Accepted)), s);
  }

  lemma {:induction false} EverybodyWithoutCopies(r: Request)
    ensures ToHeader(r.to + r.cc + r.bcc, [], []) == r.to + r.cc + r.bcc
  {
    WithoutIs(r.to + r.cc + r.bcc, {});
    assert Elements([]) + Elements([]) == {};
  }

  /** So does a retry, after the provider was not reached, that leaves the copies out. */
  lemma {:induction false} RetryShowsEverybody(r: Request) returns (acts: seq<Action>, s: State)
    requires r.parent == ""
    ensures Run(acts) == Some(s) && s.mails == [NewMail(0, r.subject, r.body, r.to + r.cc + r.bcc, [], [])]
    ensures forall x :: x in r.bcc ==> Shown(s.mails[0], x)
  {
    hide Runs.Exec;
    acts, s := FirstCall(r, Unreachable);
    acts, s := Runs.Then(Next, Empty(), acts, BeginSend(2, r.(cc := [], bcc := []), false), s);
    acts, s := Runs.Then(Next, Empty(), acts, Take(2, Create), s);
    EverybodyWithoutCopies(r);
    acts, s := Runs.Then(Next, Empty(), acts, Take(2, Send(Accepted)), s);
  }

  /** And a reply to a message without provider id, which has no To list: its copies are the To header. */
  lemma {:induction false} BlankParentShowsCopies(r: Request) returns (acts: seq<Action>, s: State)
    requires r.parent == "" && r.to == []
    ensures Run(acts) == Some(s) && s.mails == [NewMail(0, r.subject, r.body, r.cc + r.bcc, r.cc, r.bcc)]
    ensures forall x :: x in r.bcc ==> Shown(s.mails[0], x)
  {
    acts, s := FirstCall(r, Accepted);
    var copied := Elements(r.cc) + Elements(r.bcc);
    assert r.to + r.cc + r.bcc == r.cc + r.bcc;
    WithoutIs(r.cc + r.bcc, copied);
    NoElements(Without(r.cc + r.bcc, copied));
    assert Elements(r.cc + r.bcc) == copied;
  }

  // ------------------------------------------------------------------ saves that go back

  /**
  A row's rank falls exactly when a delivery saves SENT, or an approval its decision, over a report of the provider.
  */
  lemma {:induction false} RankFallsIff(s: State, a: Action, m: nat)
    requires Enabled(s, a) && m < |s.rows|
    ensures m < |Apply(s, a).rows|
    ensures Rank(Apply(s, a).rows[m].status) < Rank(s.rows[m].status) <==>
      && a.Take? && (a.step.MarkSent? || a.step.SaveDecision?) && s.calls[a.call].message == m
      && Rank(s.rows[m].status) > if a.step.MarkSent? then 1 else 0
  {
  }

  /** Two deliveries of one queued row: the second saves SENT over the report that came after the first. */
  lemma {:induction false} SecondSaveMovesBack(r: Request) returns (acts: seq<Action>, s: State, save: Action)
    ensures Run(acts) == Some(s) && |s.rows| == 1 && s.rows[0].status == Delivered
    ensures Enabled(s, save) && |Apply(s, save).rows| == 1 && Apply(s, save).rows[0].status == Sent
  {
    hide Runs.Exec;
    acts, s := TwoDeliveries(r);
    acts, s := Runs.Then(Next, Empty(), acts, Take(1, MarkSent), s);
    acts, s := Runs.Then(Next, Empty(), acts, Webhook(0, Delivered), s);
    save := Take(2, MarkSent);
  }

  lemma {:induction false} TwoDeliveries(r: Request) returns (acts: seq<Action>, s: State)
    ensures Run(acts) == Some(s) && s.rows == [RowOf(r, false)]
    ensures 1 in s.calls && s.calls[1] == MarkingSent(0) && 2 in s.calls && s.calls[2] == MarkingSent(0)
  {
    hide Runs.Exec;
    acts, s := FirstCall(r, Accepted);
    acts, s := Runs.Then(Next, Empty(), acts, BeginSend(2, r, false), s);
    acts, s := Runs.Then(Next, Empty(), acts, Take(2, Create), s);
    acts, s := Runs.Then(Next, Empty(), acts, Take(2, Send(Accepted)), s);
  }

  /** No two deliveries of one row are under way. */
  ghost predicate OneDelivery(s: State) {
    forall a, b, m: nat :: a in s.calls && b in s.calls && a != b && Delivers(s.calls[a], m) ==>
      !Delivers(s.calls[b], m)
  }

  /** No two approvals of one message are under way. */
  ghost predicate OneApproval(s: State) {
    forall a, b :: a in s.calls && b in s.calls && a != b && s.calls[a].Approving? && s.calls[b].Approving?
      ==> s.calls[a].message != s.calls[b].message
  }

  ghost predicate OneAtATimeThroughout(actions: seq<Action>) {
    forall n {:trigger actions[..n]} :: 0 <= n <= |actions| && Run(actions[..n]).Some? ==>
      OneApproval(Run(actions[..n]).value) && OneDelivery(Run(actions[..n]).value)
  }

  /** A row under delivery is queued, and its provider id is not known. */
  ghost predicate Delivering(s: State, c: nat)
    requires c in s.calls
  {
    forall m: nat :: Delivers(s.calls[c], m) ==> m < |s.rows| && s.rows[m].status == Queued && !s.rows[m].known
  }

  ghost predicate QueuedRow(row: Row) {
    row.status == Queued ==> !row.known
  }

  ghost predicate Clean(s: State) {
    && (forall c :: c in s.calls ==> Delivering(s, c))
    && (forall m :: 0 <= m < |s.rows| ==> QueuedRow(s.rows[m]))
  }

  /** A message that is being decided still waits for it. */
  predicate Waits(s: State, c: nat)
    requires c in s.calls
  {
    s.calls[c].Approving? ==> s.calls[c].message < |s.rows| && s.rows[s.calls[c].message].status == PendingApproval
  }

  ghost predicate AllWait(s: State) {
    forall c :: c in s.calls ==> Waits(s, c)
  }

  lemma {:induction false} WaitTake(s: State, c: nat, step: Step)
    requires Inv(s) && Held(s) && OneApproval(s) && AllWait(s) && Enabled(s, Take(c, step))
    ensures AllWait(Apply(s, Take(c, step)))
  {
    hide Apply, Inv, Mailed, MailOk;
    var t := Apply(s, Take(c, step));
    TakeShape(s, c, step);
    forall b | b in t.calls ensures Waits(t, b) {
      if b != c {
        assert Waits(s, b);
        if s.calls[b].Approving? { assert HeldRow(s, s.calls[b].message); }
      }
    }
  }

  lemma {:induction false} WaitStep(s: State, a: Action)
    requires Inv(s) && Held(s) && OneApproval(s) && AllWait(s) && Enabled(s, a)
    ensures AllWait(Apply(s, a))
  {
    var t := Apply(s, a);
    match a
    case Take(c, step) => WaitTake(s, c, step);
    case _ =>
      forall b | b in t.calls ensures Waits(t, b) {
        assert b in s.calls ==> Waits(s, b);
        if b in s.calls && s.calls[b].Approving? { assert HeldRow(s, s.calls[b].message); }
      }
  }

  /** Rows as they were, and a call that delivers what it delivered before, or nothing. */
  lemma {:induction false} CleanMove(s: State, t: State, c: nat)
    requires Clean(s) && c in s.calls && t.rows == s.rows && c in t.calls && t.calls == s.calls[c := t.calls[c]]
    requires forall m: nat :: Delivers(t.calls[c], m) ==> Delivers(s.calls[c], m)
    ensures Clean(t)
  {
    forall m | 0 <= m < |t.rows| ensures QueuedRow(t.rows[m]) { assert QueuedRow(s.rows[m]); }
    forall b | b in t.calls ensures Delivering(t, b) { assert Delivering(s, b) && Delivering(s, c); }
  }

  lemma {:induction false} CleanCreate(s: State, c: nat)
    requires Inv(s) && Clean(s) && Enabled(s, Take(c, Create))
    ensures Clean(Apply(s, Take(c, Create)))
  {
    hide Apply, Inv, Mailed, MailOk;
    var t := Apply(s, Take(c, Create));
    TakeShape(s, c, Create);
    forall m | 0 <= m < |t.rows| ensures QueuedRow(t.rows[m]) {
      if m < |s.rows| { assert QueuedRow(s.rows[m]); }
    }
    forall b | b in t.calls ensures Delivering(t, b) {
      if b != c { assert Delivering(s, b); }
      else {
        var found := Lookup(s.rows, s.calls[c].request.endpoint, s.calls[c].request.key);
        if found.Some? { assert QueuedRow(s.rows[found.value]); }
      }
    }
  }

  /** A save of the row that one call delivers, or approves: nobody else delivers it. */
  lemma {:induction false} CleanSave(s: State, c: nat, step: Step)
    requires Clean(s) && Enabled(s, Take(c, step)) && (step.SaveDecision? || step.MarkSent? || step.MarkFailed?)
    requires !s.rows[s.calls[c].message].known
    requires forall b :: b in s.calls && b != c ==> !Delivers(s.calls[b], s.calls[c].message)
    ensures Clean(Apply(s, Take(c, step)))
  {
    var t := Apply(s, Take(c, step));
    TakeShape(s, c, step);
    hide Apply;
    forall m | 0 <= m < |t.rows| ensures QueuedRow(t.rows[m]) { assert QueuedRow(s.rows[m]); }
    forall b | b in t.calls ensures Delivering(t, b) {
      if b != c { assert Delivering(s, b); }
    }
  }

  lemma {:induction false} CleanTake(s: State, c: nat, step: Step)
    requires Inv(s) && Held(s) && AllWait(s) && Clean(s) && OneDelivery(s) && Enabled(s, Take(c, step))
    ensures Clean(Apply(s, Take(c, step)))
  {
    assert Delivering(s, c) && Waits(s, c);
    match step
    case Create => CleanCreate(s, c);
    case SaveDecision =>
      assert HeldRow(s, s.calls[c].message);
      CleanSave(s, c, step);
    case Send(_) =>
      TakeShape(s, c, step);
      CleanMove(s, Apply(s, Take(c, step)), c);
    case MarkSent =>
      assert Delivers(s.calls[c], s.calls[c].message);
      CleanSave(s, c, step);
    case MarkFailed =>
      assert Delivers(s.calls[c], s.calls[c].message);
      CleanSave(s, c, step);
    case Stop =>
      TakeShape(s, c, step);
      CleanMove(s, Apply(s, Take(c, step)), c);
  }

  lemma {:induction false} CleanStep(s: State, a: Action)
    requires Inv(s) && Held(s) && AllWait(s) && Clean(s) && OneDelivery(s) && Enabled(s, a)
    ensures Clean(Apply(s, a))
  {
    var t := Apply(s, a);
    match a
    case Take(c, step) => CleanTake(s, c, step);
    case Webhook(w, _) =>
      forall m | 0 <= m < |t.rows| ensures QueuedRow(t.rows[m]) { assert QueuedRow(s.rows[m]); }
      forall b | b in t.calls ensures Delivering(t, b) { assert Delivering(s, b); }
    case _ =>
      forall m | 0 <= m < |t.rows| ensures QueuedRow(t.rows[m]) { assert QueuedRow(s.rows[m]); }
      forall b | b in t.calls ensures Delivering(t, b) { assert b in s.calls ==> Delivering(s, b); }
  }

  lemma {:induction false} CleanRankStep(s: State, a: Action, m: nat)
    requires Inv(s) && AllWait(s) && Clean(s) && Enabled(s, a) && m < |s.rows|
    ensures m < |Apply(s, a).rows| && Rank(s.rows[m].status) <= Rank(Apply(s, a).rows[m].status)
  {
    RankFallsIff(s, a, m);
    if a.Take? { assert Delivering(s, a.call) && Waits(s, a.call); }
  }

  lemma {:induction false} CleanRun(actions: seq<Action>)
    requires Run(actions).Some? && OneAtATimeThroughout(actions)
    ensures Clean(Run(actions).value) && Held(Run(actions).value) && AllWait(Run(actions).value)
  {
    var n := |actions|;
    if actions != [] {
      var fewer := actions[..n - 1];
      FewerAtATime(actions);
      CleanRun(fewer);
      RunKeepsInv(fewer);
      assert fewer == actions[..n - 1];
      HeldStep(Run(fewer).value, actions[n - 1]);
      WaitStep(Run(fewer).value, actions[n - 1]);
      CleanStep(Run(fewer).value, actions[n - 1]);
    }
  }

  lemma {:induction false} FewerAtATime(actions: seq<Action>)
    requires actions != [] && OneAtATimeThroughout(actions)
    ensures OneAtATimeThroughout(actions[..|actions| - 1])
  {
    var fewer := actions[..|actions| - 1];
    forall k | 0 <= k <= |fewer| && Run(fewer[..k]).Some?
      ensures OneApproval(Run(fewer[..k]).value) && OneDelivery(Run(fewer[..k]).value)
    {
      assert fewer[..k] == actions[..k];
    }
  }

  /** If neither deliveries nor approvals of a row overlap, its rank never falls along a run. */
  lemma {:induction false} RankNeverFalls(actions: seq<Action>, k: nat, m: nat)
    requires Run(actions).Some? && OneAtATimeThroughout(actions) && k <= |actions| && Run(actions[..k]).Some?
    requires m < |Run(actions[..k]).value.rows|
    ensures m < |Run(actions).value.rows|
      && Rank(Run(actions[..k]).value.rows[m].status) <= Rank(Run(actions).value.rows[m].status)
  {
    hide Inv, Clean, AllWait, Held, OneAtATimeThroughout, Apply, Enabled, Rank;
    var n := |actions|;
    if k == n {
      assert actions[..k] == actions;
    } else {
      var fewer := actions[..n - 1];
      assert fewer[..k] == actions[..k];
      FewerAtATime(actions);
      RankNeverFalls(fewer, k, m);
      CleanRun(fewer);
      RunKeepsInv(fewer);
      CleanRankStep(Run(fewer).value, actions[n - 1], m);
    }
  }

  /** The status only moves on: sent, then delivered, then bounced or failed. */
  predicate NotBack(before: Status, after: Status) {
    && (before in {Bounced, Failed} ==> after in {Bounced, Failed})
    && (before == Delivered ==> after in {Delivered, Bounced, Failed})
    && (before == Sent ==> after in {Sent, Delivered, Bounced, Failed})
  }

  /** So its status only moves on. */
  lemma {:induction false} StatusNeverGoesBack(actions: seq<Action>, k: nat, m: nat)
    requires Run(actions).Some? && OneAtATimeThroughout(actions) && k <= |actions| && Run(actions[..k]).Some?
    requires m < |Run(actions[..k]).value.rows|
    ensures m < |Run(actions).value.rows|
      && NotBack(Run(actions[..k]).value.rows[m].status, Run(actions).value.rows[m].status)
  {
    hide Run, OneAtATimeThroughout;
    RankNeverFalls(actions, k, m);
  }
}
