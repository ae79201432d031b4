/** Saves over the delivery protocol: the coordinator's tasks travel as messages that the layer below may
    queue, delay, retry, repeat and drop, and the save world still sees each of them carried out and
    answered at most once. */
module SaveDelivery {
  import opened Common
  import opened DbValue
  import opened Database
  import opened Transactions
  import opened PlayerSnapshot
  import B = SaveRecords
  import W = SaveWorld
  import R = SaveRuns
  import T = TaskDelivery
  import D = DeliveryProtocol
  import S = DeliverySafety

  /** How snapshots and results are written into messages and read back. */
  datatype Codec = Codec(
    task: Snapshot -> bytes, read: bytes -> Option<Snapshot>,
    result: DbResult -> bytes, readResult: bytes -> Option<DbResult>)

  ghost predicate ReadsBack(k: Codec) {
    && (forall s: Snapshot :: Storable(s) ==> k.read(k.task(s)) == Some(s))
    && (forall r: DbResult :: k.readResult(k.result(r)) == Some(r))
  }

  /** The worker whose players are saved, and its encodings. */
  datatype Post = Post(me: nat, k: Codec)

  /** The save world's pending and answers are histories here: what happens is decided by the messages. */
  datatype Site = Site(w: W.World, d: D.System)

  datatype Step =
    | Play(act: W.Step)
    | Save(player: nat, offline: bool, spare: nat, call: T.Call, now: int, send: T.Sender, order: seq<nat>)
    | Retry(player: nat, spare: nat, call: T.Call, now: int, send: T.Sender, order: seq<nat>)
    | Carry(step: D.Step)
    | Rerun(ch: D.Channel, m: T.Msg, weather: Weather)
    | Finish(ch: D.Channel, m: T.Msg, weather: Weather)
    | Deliver(m: T.Msg, now: int, later: int, send: T.Sender, order: seq<nat>)

  /** The message of a save task. */
  function Message(p: Post, id: nat, s: Snapshot, call: T.Call): T.Msg {
    T.Msg(T.MySqlTask, id, 0, 0, p.me, call.(player := s.player), p.k.task(s))
  }

  datatype Offer = Offer(id: nat, s: Snapshot)

  /** What the coordinator hands to the layer below on the way from one record to the next. */
  function OfferOf(before: Option<B.Record>, after: Option<B.Record>): Option<Offer> {
    if W.Submitted(before, after) then Some(Offer(after.value.taskId, after.value.active.value)) else None
  }

  function SaveOffer(w: W.World, player: nat, offline: bool, spare: nat): Option<Offer>
    requires player in w.live
  {
    OfferOf(W.RecordOf(w.books.records, player), W.RecordOf(W.SaveAt(w, player, offline, spare, true).books.records, player))
  }

  function RetryOffer(w: W.World, player: nat, spare: nat): Option<Offer>
    requires player in w.books.records
  {
    OfferOf(W.RecordOf(w.books.records, player), W.RecordOf(W.RetryAt(w, player, spare, true).books.records, player))
  }

  /** The layer's answer to an offer, and its state afterwards. */
  predicate Takes(p: Post, d: D.System, o: Option<Offer>, call: T.Call, now: int, send: T.Sender, order: seq<nat>)
    requires p.me in d.tables
  {
    o.Some? && T.Submit(d.tables[p.me], Message(p, o.value.id, o.value.s, call), 0, now, send, order).ok
  }

  function Offered(p: Post, d: D.System, o: Option<Offer>, call: T.Call, now: int, send: T.Sender, order: seq<nat>): D.System
    requires p.me in d.tables
  {
    if o.None? then d else D.SubmitAt(d, p.me, Message(p, o.value.id, o.value.s, call), 0, now, send, order)
  }

  /** A step of the layer below that starts, carries out or answers no save task. */
  predicate Elsewhere(p: Post, c: Site, step: D.Step) {
    match step
    case SubmitTask(_, message, spare, _, _, _) => D.Numbered(message, spare).taskId !in c.w.owners
    case FinishTask(_, m, _) => m.taskId !in c.w.owners
    case DeliverResult(w, m, readable, now, _, _) =>
      !(w == p.me && m.taskId in c.w.owners && readable && w in c.d.tables && T.Complete(c.d.tables[w], m, now).ok)
    case _ => true
  }

  /** What may happen next: nothing is said of the save world's own pending and answers. */
  ghost predicate Enabled(p: Post, c: Site, step: Step) {
    match step
    case Play(act) => (act.Mutate? || act.Rebind? || act.Login?) && W.Enabled(c.w, act)
    case Save(player, offline, spare, _, _, _, order) =>
      && player in c.w.live && spare != 0 && spare !in c.w.owners && spare !in c.d.issued
      && p.me in c.d.tables && T.Enumerates(order, c.d.tables[p.me])
    case Retry(player, spare, _, _, _, order) =>
      && player in c.w.books.records && spare != 0 && spare !in c.w.owners && spare !in c.d.issued
      && p.me in c.d.tables && T.Enumerates(order, c.d.tables[p.me])
    case Carry(step) => D.Enabled(c.d, step) && Elsewhere(p, c, step)
    case Rerun(ch, m, weather) =>
      && D.Enabled(c.d, D.FinishTask(ch, m, [])) && m.taskId in c.w.owners && Honest(weather)
      && (p.k.read(m.body).Some? ==> Execute(SaveTask(p.k.read(m.body).value), c.w.db, weather).result.class_ == Retryable)
    case Finish(ch, m, weather) => D.Enabled(c.d, D.FinishTask(ch, m, [])) && m.taskId in c.w.owners && Honest(weather)
    case Deliver(m, now, later, send, order) =>
      && D.Enabled(c.d, D.DeliverResult(p.me, m, true, now, later, send)) && m.taskId in c.w.owners
      && T.Complete(c.d.tables[p.me], m, now).ok && forall player :: player in order <==> player in c.w.books.records
  }

  /** The database carries out what the message says. */
  function Executed(c: Site, ch: D.Channel, m: T.Msg, s: Snapshot, weather: Weather, k: Codec): Site
    requires ch in c.d.ledgers && (m.taskId == 0 || m.taskId in c.d.ledgers[ch].entries)
  {
    var o := Execute(SaveTask(s), c.w.db, weather);
    Site(c.w.(db := o.db, pending := c.w.pending - {m.taskId}, answers := c.w.answers[m.taskId := W.Done(s, o.result)]),
         D.FinishAt(c.d, ch, m, k.result(o.result)))
  }

  /** The coordinator is told what the message says. */
  function Told(c: Site, w: nat, m: T.Msg, result: DbResult, now: int, later: int, send: T.Sender, order: seq<nat>): Site
    requires w in c.d.tables
  {
    var player := m.call.player;
    var (books, live, ok) := B.Complete(c.w.books, order, m.taskId, result, W.LiveOf(c.w.live, player));
    Site(c.w.(books := books, answers := c.w.answers - {m.taskId}, live := if live.Some? then c.w.live[player := live.value] else c.w.live),
         D.ResultAt(c.d, w, m, true, now, later, send))
  }

  function Next(p: Post, c: Site, step: Step): Site {
    match step
    case Play(act) => c.(w := W.Next(c.w, act))
    case Save(player, offline, spare, call, now, send, order) =>
      if player in c.w.live && p.me in c.d.tables then
        var o := SaveOffer(c.w, player, offline, spare);
        Site(W.SaveAt(c.w, player, offline, spare, Takes(p, c.d, o, call, now, send, order)), Offered(p, c.d, o, call, now, send, order))
      else c
    case Retry(player, spare, call, now, send, order) =>
      if player in c.w.books.records && p.me in c.d.tables then
        var o := RetryOffer(c.w, player, spare);
        Site(W.RetryAt(c.w, player, spare, Takes(p, c.d, o, call, now, send, order)), Offered(p, c.d, o, call, now, send, order))
      else c
    case Carry(step) => c.(d := D.Next(c.d, step))
    case Rerun(ch, m, weather) =>
      if p.k.read(m.body).Some? then c.(w := c.w.(db := Execute(SaveTask(p.k.read(m.body).value), c.w.db, weather).db)) else c
    case Finish(ch, m, weather) =>
      if ch in c.d.ledgers && m.taskId in c.d.ledgers[ch].entries && p.k.read(m.body).Some?
      then Executed(c, ch, m, p.k.read(m.body).value, weather, p.k) else c
    case Deliver(m, now, later, send, order) =>
      if p.me in c.d.tables && p.k.readResult(m.body).Some?
      then Told(c, p.me, m, p.k.readResult(m.body).value, now, later, send, order) else c
  }

  // ---- how the two layers' books hang together -------------------------------------------------

  function Get<V>(m: map<nat, V>, t: nat): Option<V> { if t in m then Some(m[t]) else None }

  /** The registered request is the message of this very snapshot. */
  predicate Is(p: Post, t: nat, issue: D.Issue, s: Snapshot) {
    issue.worker == p.me && issue.request == Message(p, t, s, issue.request.call)
  }

  /** A save task is pending until the layer below has a result for it, and answered until that result is
      acted upon. */
  predicate Tied(p: Post, t: nat, owned: bool, pending: Option<Snapshot>, answer: Option<W.Done>, issue: Option<D.Issue>, res: Option<T.Msg>, acted: bool) {
    && (pending.Some? <==> owned && issue.Some? && res.None?)
    && (pending.Some? ==> Is(p, t, issue.value, pending.value))
    && (answer.Some? <==> owned && issue.Some? && res.Some? && !acted)
    && (answer.Some? ==> Is(p, t, issue.value, answer.value.snapshot) && res.value.body == p.k.result(answer.value.result))
  }

  ghost predicate TiedId(p: Post, c: Site, t: nat) {
    Tied(p, t, t in c.w.owners, Get(c.w.pending, t), Get(c.w.answers, t), Get(c.d.issued, t), D.ResultOf(c.d.executed, t), D.Applied(c.d, t))
  }

  /** An id drawn for a save that was refused is still unknown to the layer below. */
  predicate Unspent(r: B.Record, issued: map<nat, D.Issue>) {
    r.state == B.Idle && r.taskId != 0 ==> r.taskId !in issued
  }

  ghost predicate TiedAll(p: Post, c: Site) {
    && (forall t: nat :: t != 0 ==> TiedId(p, c, t))
    && (forall player <- c.w.books.records :: Unspent(c.w.books.records[player], c.d.issued))
  }

  ghost predicate Good(p: Post, c: Site) {
    W.Good(c.w) && D.Good(c.d) && TiedAll(p, c)
  }

  /** The step of the save world that a step of the site amounts to, if any. */
  function Seen(p: Post, c: Site, step: Step): Option<W.Step> {
    match step
    case Play(act) => Some(act)
    case Save(player, offline, spare, call, now, send, order) =>
      if player in c.w.live && p.me in c.d.tables
      then Some(W.Save(player, offline, spare, Takes(p, c.d, SaveOffer(c.w, player, offline, spare), call, now, send, order))) else None
    case Retry(player, spare, call, now, send, order) =>
      if player in c.w.books.records && p.me in c.d.tables
      then Some(W.Retry(player, spare, Takes(p, c.d, RetryOffer(c.w, player, spare), call, now, send, order))) else None
    case Carry(_) => None
    case Rerun(_, m, weather) => Some(W.RunDb(m.taskId, weather, true))
    case Finish(_, m, weather) => Some(W.RunDb(m.taskId, weather, false))
    case Deliver(m, _, _, _, order) => Some(W.Deliver(m.taskId, order))
  }

  /** The site's step is that step of the save world, and the save world allows it. */
  ghost predicate Amounts(w: W.World, w': W.World, seen: Option<W.Step>) {
    if seen.None? then w' == w else W.Enabled(w, seen.value) && w' == W.Next(w, seen.value)
  }

  // ---- the layer below ---------------------------------------------------------------------------

  /** The layer's books say the same of a task before and after. */
  predicate SameFate(d: D.System, d': D.System, t: nat) {
    && Get(d.issued, t) == Get(d'.issued, t) && D.ResultOf(d.executed, t) == D.ResultOf(d'.executed, t)
    && D.Applied(d, t) == D.Applied(d', t)
  }

  /** A new request is registered exactly when it is taken; a refused one leaves no trace. */
  lemma SubmitRegisters(d: D.System, w: nat, m: T.Msg, now: int, send: T.Sender, order: seq<nat>)
    requires w in d.tables && m.taskId != 0 && m.taskId !in d.tables[w]
    ensures var d', ok := D.SubmitAt(d, w, m, 0, now, send, order), T.Submit(d.tables[w], m, 0, now, send, order).ok;
            && d'.issued == (if ok then d.issued[m.taskId := D.Issue(m, w)] else d.issued)
            && d'.executed == d.executed && d'.applied == d.applied && d'.tables.Keys == d.tables.Keys
  {
    if T.Submit(d.tables[w], m, 0, now, send, order).ok { TakenIsOffered(d.tables[w], m, now, send, order); }
  }

  lemma TakenIsOffered(tasks: T.Table, m: T.Msg, now: int, send: T.Sender, order: seq<nat>)
    requires m.taskId != 0 && m.taskId !in tasks && T.Submit(tasks, m, 0, now, send, order).ok
    ensures T.Submit(tasks, m, 0, now, send, order).offered == multiset{m} != multiset{}
  {
    assert m in multiset{m};
  }

  lemma SubmitIsStep(d: D.System, w: nat, m: T.Msg, now: int, send: T.Sender, order: seq<nat>)
    requires D.Good(d) && w in d.tables && m.worker == w && m.taskId != 0 && m.taskId !in d.issued && T.Enumerates(order, d.tables[w])
    ensures D.Good(D.SubmitAt(d, w, m, 0, now, send, order)) && m.taskId !in d.tables[w]
  {
    assert D.GoodId(d, m.taskId);
    S.StepKeepsGood(d, D.SubmitTask(w, m, 0, now, send, order));
  }

  /** Delivering a result changes the fate of no other task. */
  lemma ResultLeaves(d: D.System, w: nat, m: T.Msg, readable: bool, now: int, later: int, send: T.Sender, t: nat)
    requires D.GoodId(d, t) && t != 0 && w in d.tables
    requires !(m.taskId == t && readable && T.Complete(d.tables[w], m, now).ok)
    ensures SameFate(d, D.ResultAt(d, w, m, readable, now, later, send), t)
  {
    var res := D.ResultOf(d.executed, t);
    if res.Some? { assert res.value.taskId == t; }
  }

  lemma SubmitLeaves(d: D.System, w: nat, m: T.Msg, spare: nat, now: int, send: T.Sender, order: seq<nat>, t: nat)
    requires w in d.tables && D.Numbered(m, spare).taskId != t
    ensures SameFate(d, D.SubmitAt(d, w, m, spare, now, send, order), t)
  {
  }

  /** No other worker can complete a save task. */
  lemma OnlyHereCompletes(p: Post, c: Site, w: nat, m: T.Msg, now: int)
    requires TiedId(p, c, m.taskId) && D.GoodId(c.d, m.taskId) && m.taskId in c.w.owners
    requires w in c.d.tables && T.Complete(c.d.tables[w], m, now).ok
    ensures w == p.me
  {
  }

  lemma ResultElsewhere(p: Post, c: Site, w: nat, m: T.Msg, readable: bool, now: int, later: int, send: T.Sender, t: nat)
    requires TiedId(p, c, t) && D.GoodId(c.d, t) && t != 0 && t in c.w.owners && w in c.d.tables
    requires Elsewhere(p, c, D.DeliverResult(w, m, readable, now, later, send))
    ensures SameFate(c.d, D.ResultAt(c.d, w, m, readable, now, later, send), t)
  {
    if m.taskId == t && T.Complete(c.d.tables[w], m, now).ok { OnlyHereCompletes(p, c, w, m, now); }
    ResultLeaves(c.d, w, m, readable, now, later, send, t);
  }

  lemma QuietLeaves(p: Post, c: Site, step: D.Step, t: nat)
    requires TiedId(p, c, t) && D.GoodId(c.d, t) && t != 0 && t in c.w.owners && Elsewhere(p, c, step)
    requires !step.SubmitTask? && !step.DeliverResult?
    ensures SameFate(c.d, D.Next(c.d, step), t)
  {
  }

  lemma CarryLeaves(p: Post, c: Site, step: D.Step, t: nat)
    requires TiedId(p, c, t) && D.GoodId(c.d, t) && t != 0 && t in c.w.owners && Elsewhere(p, c, step)
    ensures SameFate(c.d, D.Next(c.d, step), t)
  {
    match step
    case SubmitTask(w, m, spare, now, send, order) =>
      if w in c.d.tables { SubmitLeaves(c.d, w, m, spare, now, send, order, t); }
    case DeliverResult(w, m, readable, now, later, send) =>
      if w in c.d.tables { ResultElsewhere(p, c, w, m, readable, now, later, send, t); }
    case _ => QuietLeaves(p, c, step, t);
  }

  /** A finished task has a result that nobody has acted upon. */
  lemma FinishFates(d: D.System, ch: D.Channel, m: T.Msg, body: bytes, t: nat)
    requires t != 0 && m.taskId != 0 && D.GoodId(d, t) && D.GoodId(d, m.taskId) && D.Enabled(d, D.FinishTask(ch, m, body))
    ensures m.taskId in d.ledgers[ch].entries && m.taskId in d.issued && m == d.issued[m.taskId].request && m.taskId !in d.executed
    ensures var d' := D.FinishAt(d, ch, m, body);
            if t == m.taskId then d'.issued == d.issued && D.ResultOf(d'.executed, t) == Some(D.Reply(m, body)) && !D.Applied(d', t)
            else SameFate(d, d', t)
  {
    S.RunningHasEntry(d, ch, m);
  }

  /** A result that completes its task is the task's own, and is acted upon for the first time. */
  lemma CompleteFates(d: D.System, w: nat, m: T.Msg, now: int, later: int, send: T.Sender, t: nat)
    requires t != 0 && m.taskId != 0 && D.GoodId(d, t) && D.GoodId(d, m.taskId)
    requires D.Enabled(d, D.DeliverResult(w, m, true, now, later, send)) && T.Complete(d.tables[w], m, now).ok
    ensures m.taskId in d.issued && D.ResultOf(d.executed, m.taskId) == Some(m) && !D.Applied(d, m.taskId)
    ensures m == D.Reply(d.issued[m.taskId].request, m.body)
    ensures var d' := D.ResultAt(d, w, m, true, now, later, send);
            if t == m.taskId then d'.issued == d.issued && D.ResultOf(d'.executed, t) == Some(m) && D.Applied(d', t)
            else SameFate(d, d', t)
  {
    if t != m.taskId { ResultLeaves(d, w, m, true, now, later, send, t); }
  }

  // ---- the coordinator's offers -----------------------------------------------------------------

  /** The id under which a record would be idle after an offer: the one just drawn, or the one it had. */
  predicate IdleUnder(before: Option<B.Record>, r: B.Record, spare: nat) {
    r.state == B.Idle && r.taskId != 0 ==>
      r.taskId == spare || (before.Some? && before.value.state == B.Idle && before.value.taskId == r.taskId)
  }

  lemma DispatchOffers(r: B.Record, spare: nat, submit: B.Submit, yes: B.Submit, accept: bool)
    requires (forall id, s :: submit(id, s) == accept) && (forall id, s :: yes(id, s))
    ensures var r', o := B.Dispatch(r, spare, submit), OfferOf(Some(r), Some(B.Dispatch(r, spare, yes)));
            && OfferOf(Some(r), Some(r')) == (if accept then o else None) && IdleUnder(Some(r), r', spare)
            && (o.Some? ==> r.state == B.Idle && o.value.id == (if r.taskId == 0 then spare else r.taskId) && (accept ==> r'.taskId == o.value.id))
  {
  }

  function AnswerOf(a: B.Answer): Option<B.Record> { if a.Erased? then None else Some(a.record) }

  /** The offer made between two records, taken or not, and what it leaves. */
  predicate OffersFrom(before: Option<B.Record>, after: Option<B.Record>, yes: Option<B.Record>, spare: nat, accept: bool) {
    var o := OfferOf(before, yes);
    && OfferOf(before, after) == (if accept then o else None) && (o.Some? ==> o.value.id == spare)
    && (after.Some? ==> IdleUnder(before, after.value, spare))
    && (accept && o.Some? ==> after.Some? && after.value.taskId == spare)
  }

  lemma RequestOffers(r: B.Record, p: B.Live, offline: bool, spare: nat, submit: B.Submit, yes: B.Submit, accept: bool)
    requires (forall id, s :: submit(id, s) == accept) && (forall id, s :: yes(id, s))
    ensures OffersFrom(Some(r), AnswerOf(B.RequestOn(r, p, offline, spare, submit)), AnswerOf(B.RequestOn(r, p, offline, spare, yes)), spare, accept)
  {
  }

  lemma RequestRecord(b: B.Books, p: B.Live, offline: bool, spare: nat, submit: B.Submit)
    ensures var player := p.body.player;
            W.RecordOf(B.Request(b, p, offline, spare, submit).0.records, player)
            == if player in b.records then AnswerOf(B.RequestOn(b.records[player], p, offline, spare, submit))
               else if |b.records| >= B.MAX_PLAYERS || player == 0 then None
               else AnswerOf(B.RequestOn(B.NewRecord(p, b.lastToken + 1), p, offline, spare, submit))
  {
  }

  lemma NewlyOffers(r: B.Record, after: Option<B.Record>, yes: Option<B.Record>, spare: nat, accept: bool)
    requires OffersFrom(Some(r), after, yes, spare, accept) && r.state == B.Idle && r.taskId == 0
    ensures OffersFrom(None, after, yes, spare, accept)
  {
  }

  lemma BooksOffer(b: B.Books, p: B.Live, offline: bool, spare: nat, submit: B.Submit, yes: B.Submit, accept: bool)
    requires (forall id, s :: submit(id, s) == accept) && (forall id, s :: yes(id, s))
    ensures var player := p.body.player;
            OffersFrom(W.RecordOf(b.records, player), W.RecordOf(B.Request(b, p, offline, spare, submit).0.records, player),
                       W.RecordOf(B.Request(b, p, offline, spare, yes).0.records, player), spare, accept)
  {
    var player := p.body.player;
    RequestRecord(b, p, offline, spare, submit);
    RequestRecord(b, p, offline, spare, yes);
    if player in b.records {
      RequestOffers(b.records[player], p, offline, spare, submit, yes, accept);
    } else {
      var r := B.NewRecord(p, b.lastToken + 1);
      RequestOffers(r, p, offline, spare, submit, yes, accept);
      NewlyOffers(r, AnswerOf(B.RequestOn(r, p, offline, spare, submit)), AnswerOf(B.RequestOn(r, p, offline, spare, yes)), spare, accept);
    }
  }

  /** A save request offers at most one task, under the id just drawn, and leaves the other records alone. */
  lemma SaveOffers(w: W.World, player: nat, offline: bool, spare: nat, accept: bool)
    requires player in w.live && w.live[player].body.player == player
    ensures var w', o := W.SaveAt(w, player, offline, spare, accept), SaveOffer(w, player, offline, spare);
            var before, after := W.RecordOf(w.books.records, player), W.RecordOf(w'.books.records, player);
            && OfferOf(before, after) == (if accept then o else None) && (o.Some? ==> o.value.id == spare)
            && (after.Some? ==> IdleUnder(before, after.value, spare))
            && (accept && o.Some? ==> after.value.taskId == spare)
  {
    var submit: B.Submit, yes: B.Submit := (_, _) => accept, (_, _) => true;
    var p := w.live[player];
    BooksOffer(w.books, p, offline, spare, submit, yes, accept);
    assert W.SaveAt(w, player, offline, spare, accept).books == B.Request(w.books, p, offline, spare, submit).0;
    assert W.SaveAt(w, player, offline, spare, true).books == B.Request(w.books, p, offline, spare, yes).0;
  }

  lemma SaveLeavesRecords(w: W.World, player: nat, offline: bool, spare: nat, accept: bool, other: nat)
    requires player in w.live && w.live[player].body.player == player && other != player
    ensures W.RecordOf(W.SaveAt(w, player, offline, spare, accept).books.records, other) == W.RecordOf(w.books.records, other)
  {
    var submit: B.Submit := (_, _) => accept;
    RequestLeaves(w.books, w.live[player], offline, spare, submit, other);
    assert W.SaveAt(w, player, offline, spare, accept).books == B.Request(w.books, w.live[player], offline, spare, submit).0;
  }

  lemma PutLeaves(b: B.Books, player: nat, a: B.Answer, other: nat)
    requires other != player
    ensures W.RecordOf(B.Put(b, player, a).0.records, other) == W.RecordOf(b.records, other)
  {
  }

  lemma RequestLeaves(b: B.Books, p: B.Live, offline: bool, spare: nat, submit: B.Submit, other: nat)
    requires other != p.body.player
    ensures W.RecordOf(B.Request(b, p, offline, spare, submit).0.records, other) == W.RecordOf(b.records, other)
  {
    var player, next := p.body.player, b.(lastToken := b.lastToken + 1);
    if player in b.records {
      PutLeaves(b, player, B.RequestOn(b.records[player], p, offline, spare, submit), other);
    } else {
      PutLeaves(next, player, B.RequestOn(B.NewRecord(p, b.lastToken + 1), p, offline, spare, submit), other);
    }
  }

  lemma RetryOffers(w: W.World, player: nat, spare: nat, accept: bool)
    requires player in w.books.records
    ensures var w', o := W.RetryAt(w, player, spare, accept), RetryOffer(w, player, spare);
            var r := w.books.records[player];
            var after := W.RecordOf(w'.books.records, player);
            && OfferOf(Some(r), after) == (if accept then o else None)
            && (o.Some? ==> r.state == B.Idle && o.value.id == (if r.taskId == 0 then spare else r.taskId))
            && after.Some? && IdleUnder(Some(r), after.value, spare)
            && (accept && o.Some? ==> after.value.taskId == o.value.id)
  {
    var submit: B.Submit, yes: B.Submit := (_, _) => accept, (_, _) => true;
    DispatchOffers(w.books.records[player], spare, submit, yes, accept);
    assert W.RetryAt(w, player, spare, accept).books.records[player] == B.Dispatch(w.books.records[player], spare, submit);
    assert W.RetryAt(w, player, spare, true).books.records[player] == B.Dispatch(w.books.records[player], spare, yes);
  }

  // ---- an offer keeps the books tied --------------------------------------------------------------

  /** What an offer does to the save world; o is what the layer below took of it, if anything. */
  ghost predicate OfferAbove(w: W.World, w': W.World, player: nat, o: Option<Offer>, spare: nat) {
    var before, after := W.RecordOf(w.books.records, player), W.RecordOf(w'.books.records, player);
    && w'.answers == w.answers && w'.pending == (if o.Some? then w.pending[o.value.id := o.value.s] else w.pending)
    && (w'.owners == w.owners || w'.owners == w.owners[spare := player])
    && o == OfferOf(before, after) && (after.Some? ==> IdleUnder(before, after.value, spare))
    && (o.Some? ==> o.value.id in w'.owners && w'.owners[o.value.id] == player)
    && (forall q: nat :: q != player ==> W.RecordOf(w'.books.records, q) == W.RecordOf(w.books.records, q))
  }

  /** And to the layer below. */
  predicate OfferBelow(p: Post, d: D.System, d': D.System, o: Option<Offer>, call: T.Call) {
    && (o.Some? ==> o.value.id !in d.issued)
    && d'.issued == (if o.Some? then d.issued[o.value.id := D.Issue(Message(p, o.value.id, o.value.s, call), p.me)] else d.issued)
    && d'.executed == d.executed && d'.applied == d.applied
  }

  lemma SaveIsOffer(w: W.World, player: nat, offline: bool, spare: nat, accept: bool)
    requires player in w.live && w.live[player].body.player == player
    ensures OfferAbove(w, W.SaveAt(w, player, offline, spare, accept), player,
                       if accept then SaveOffer(w, player, offline, spare) else None, spare)
  {
    SaveOffers(w, player, offline, spare, accept);
    forall q: nat | q != player
      ensures W.RecordOf(W.SaveAt(w, player, offline, spare, accept).books.records, q) == W.RecordOf(w.books.records, q)
    {
      SaveLeavesRecords(w, player, offline, spare, accept, q);
    }
  }

  lemma RetryIsOffer(w: W.World, player: nat, spare: nat, accept: bool)
    requires player in w.books.records && W.RecordPart(w.books.records[player], player, w.owners)
    ensures OfferAbove(w, W.RetryAt(w, player, spare, accept), player, if accept then RetryOffer(w, player, spare) else None, spare)
  {
    RetryOffers(w, player, spare, accept);
  }

  /** The layer's side of an offer under an unknown id. */
  lemma OfferedBelow(p: Post, d: D.System, o: Option<Offer>, call: T.Call, now: int, send: T.Sender, order: seq<nat>)
    requires D.Good(d) && p.me in d.tables && T.Enumerates(order, d.tables[p.me]) && (o.Some? ==> o.value.id != 0 && o.value.id !in d.issued)
    ensures var d' := Offered(p, d, o, call, now, send, order);
            D.Good(d') && OfferBelow(p, d, d', if Takes(p, d, o, call, now, send, order) then o else None, call)
  {
    if o.Some? {
      var m := Message(p, o.value.id, o.value.s, call);
      SubmitIsStep(d, p.me, m, now, send, order);
      SubmitRegisters(d, p.me, m, now, send, order);
    }
  }

  lemma OfferKeepsTied(p: Post, c: Site, c': Site, player: nat, o: Option<Offer>, spare: nat, call: T.Call, t: nat)
    requires TiedId(p, c, t) && D.GoodId(c.d, t) && t != 0 && spare !in c.d.issued
    requires OfferAbove(c.w, c'.w, player, o, spare) && OfferBelow(p, c.d, c'.d, o, call)
    ensures TiedId(p, c', t)
  {
  }

  /** No other record sits idle on the id that was taken. */
  lemma OfferKeepsUnspent(p: Post, c: Site, c': Site, player: nat, o: Option<Offer>, spare: nat, call: T.Call, q: nat)
    requires OfferAbove(c.w, c'.w, player, o, spare) && OfferBelow(p, c.d, c'.d, o, call) && spare !in c.d.issued
    requires q in c'.w.books.records && W.RecordPart(c'.w.books.records[q], q, c'.w.owners)
    requires q in c.w.books.records ==> Unspent(c.w.books.records[q], c.d.issued)
    ensures Unspent(c'.w.books.records[q], c'.d.issued)
  {
    assert q != player ==> W.RecordOf(c'.w.books.records, q) == W.RecordOf(c.w.books.records, q);
  }

  lemma OfferKeeps(p: Post, c: Site, c': Site, player: nat, o: Option<Offer>, spare: nat, call: T.Call)
    requires Good(p, c) && W.Good(c'.w) && D.Good(c'.d) && spare !in c.d.issued
    requires OfferAbove(c.w, c'.w, player, o, spare) && OfferBelow(p, c.d, c'.d, o, call)
    ensures Good(p, c')
  {
    forall t: nat | t != 0 ensures TiedId(p, c', t) {
      assert TiedId(p, c, t) && D.GoodId(c.d, t);
      OfferKeepsTied(p, c, c', player, o, spare, call, t);
    }
    forall q | q in c'.w.books.records ensures Unspent(c'.w.books.records[q], c'.d.issued) {
      assert W.GoodPlayer(c'.w, q);
      OfferKeepsUnspent(p, c, c', player, o, spare, call, q);
    }
  }

  lemma SaveStep(p: Post, c: Site, player: nat, offline: bool, spare: nat, call: T.Call, now: int, send: T.Sender, order: seq<nat>)
    requires Good(p, c) && Enabled(p, c, Save(player, offline, spare, call, now, send, order))
    ensures var o := SaveOffer(c.w, player, offline, spare);
            var accept := Takes(p, c.d, o, call, now, send, order);
            && Good(p, Site(W.SaveAt(c.w, player, offline, spare, accept), Offered(p, c.d, o, call, now, send, order)))
            && W.Enabled(c.w, W.Save(player, offline, spare, accept))
  {
    var o := SaveOffer(c.w, player, offline, spare);
    var accept := Takes(p, c.d, o, call, now, send, order);
    var w', d' := W.SaveAt(c.w, player, offline, spare, accept), Offered(p, c.d, o, call, now, send, order);
    assert W.GoodPlayer(c.w, player);
    SaveOffers(c.w, player, offline, spare, true);
    SaveIsOffer(c.w, player, offline, spare, accept);
    OfferedBelow(p, c.d, o, call, now, send, order);
    SaveStaysGood(c.w, player, offline, spare, accept);
    OfferKeeps(p, c, Site(w', d'), player, if accept then o else None, spare, call);
  }

  lemma SaveStaysGood(w: W.World, player: nat, offline: bool, spare: nat, accept: bool)
    requires W.Good(w) && player in w.live && spare != 0 && spare !in w.owners
    ensures W.Good(W.SaveAt(w, player, offline, spare, accept))
  {
    R.StepKeepsGood(w, W.Save(player, offline, spare, accept));
  }

  lemma RetryStaysGood(w: W.World, player: nat, spare: nat, accept: bool)
    requires W.Good(w) && player in w.books.records && spare != 0 && spare !in w.owners
    ensures W.Good(W.RetryAt(w, player, spare, accept))
  {
    R.StepKeepsGood(w, W.Retry(player, spare, accept));
  }

  lemma RetryStep(p: Post, c: Site, player: nat, spare: nat, call: T.Call, now: int, send: T.Sender, order: seq<nat>)
    requires Good(p, c) && Enabled(p, c, Retry(player, spare, call, now, send, order))
    ensures var o := RetryOffer(c.w, player, spare);
            var accept := Takes(p, c.d, o, call, now, send, order);
            && Good(p, Site(W.RetryAt(c.w, player, spare, accept), Offered(p, c.d, o, call, now, send, order)))
            && W.Enabled(c.w, W.Retry(player, spare, accept))
  {
    var o := RetryOffer(c.w, player, spare);
    var accept := Takes(p, c.d, o, call, now, send, order);
    var w', d' := W.RetryAt(c.w, player, spare, accept), Offered(p, c.d, o, call, now, send, order);
    assert W.GoodPlayer(c.w, player) && Unspent(c.w.books.records[player], c.d.issued);
    RetryOffers(c.w, player, spare, true);
    RetryIsOffer(c.w, player, spare, accept);
    OfferedBelow(p, c.d, o, call, now, send, order);
    RetryStaysGood(c.w, player, spare, accept);
    OfferKeeps(p, c, Site(w', d'), player, if accept then o else None, spare, call);
  }

  // ---- the other steps ------------------------------------------------------------------------------

  lemma SameFateKeepsTied(p: Post, c: Site, d': D.System, t: nat)
    requires TiedId(p, c, t) && (t in c.w.owners ==> SameFate(c.d, d', t))
    ensures TiedId(p, Site(c.w, d'), t)
  {
  }

  lemma CarryStep(p: Post, c: Site, step: D.Step)
    requires Good(p, c) && D.Enabled(c.d, step) && Elsewhere(p, c, step)
    ensures Good(p, Site(c.w, D.Next(c.d, step)))
  {
    var d' := D.Next(c.d, step);
    S.StepKeepsGood(c.d, step);
    forall t: nat | t != 0 ensures TiedId(p, Site(c.w, d'), t) {
      assert TiedId(p, c, t) && D.GoodId(c.d, t);
      if t in c.w.owners { CarryLeaves(p, c, step, t); }
      SameFateKeepsTied(p, c, d', t);
    }
    forall q | q in c.w.books.records ensures Unspent(c.w.books.records[q], d'.issued) {
      assert W.GoodPlayer(c.w, q) && Unspent(c.w.books.records[q], c.d.issued);
      var t := c.w.books.records[q].taskId;
      if t != 0 {
        assert TiedId(p, c, t) && D.GoodId(c.d, t);
        CarryLeaves(p, c, step, t);
      }
    }
  }

  lemma PlayStep(p: Post, c: Site, act: W.Step)
    requires Good(p, c) && W.Enabled(c.w, act) && (act.Mutate? || act.Rebind? || act.Login?)
    ensures Good(p, Site(W.Next(c.w, act), c.d))
  {
    R.StepKeepsGood(c.w, act);
    var c' := Site(W.Next(c.w, act), c.d);
    assert c'.w.owners == c.w.owners && c'.w.pending == c.w.pending && c'.w.answers == c.w.answers && c'.w.books == c.w.books;
    forall t: nat | t != 0 ensures TiedId(p, c', t) { assert TiedId(p, c, t); }
  }

  /** The request that the database carries out is that of a pending save, snapshot and all. */
  lemma RunningIsPending(p: Post, c: Site, ch: D.Channel, m: T.Msg)
    requires Good(p, c) && ReadsBack(p.k) && D.Enabled(c.d, D.FinishTask(ch, m, [])) && m.taskId in c.w.owners
    ensures m.taskId != 0 && m.taskId in c.w.pending && p.k.read(m.body) == Some(c.w.pending[m.taskId])
    ensures m.taskId in c.d.ledgers[ch].entries && m.taskId in c.d.issued && m == c.d.issued[m.taskId].request
  {
    var t := m.taskId;
    assert TiedId(p, c, t) && D.GoodId(c.d, t);
    FinishFates(c.d, ch, m, [], t);
    R.PendingIsStorable(c.w, t);
  }

  lemma FinishKeepsTied(p: Post, c: Site, ch: D.Channel, m: T.Msg, weather: Weather, t: nat)
    requires t != 0 && m.taskId != 0 && TiedId(p, c, t) && TiedId(p, c, m.taskId) && D.GoodId(c.d, t) && D.GoodId(c.d, m.taskId)
    requires D.Enabled(c.d, D.FinishTask(ch, m, [])) && m.taskId in c.w.pending && m.taskId in c.d.ledgers[ch].entries
    ensures TiedId(p, Executed(c, ch, m, c.w.pending[m.taskId], weather, p.k), t)
  {
    var c' := Executed(c, ch, m, c.w.pending[m.taskId], weather, p.k);
    FinishFates(c.d, ch, m, p.k.result(Execute(SaveTask(c.w.pending[m.taskId]), c.w.db, weather).result), t);
    assert t != m.taskId ==> Get(c'.w.pending, t) == Get(c.w.pending, t) && Get(c'.w.answers, t) == Get(c.w.answers, t);
  }

  lemma FinishStep(p: Post, c: Site, ch: D.Channel, m: T.Msg, weather: Weather)
    requires Good(p, c) && ReadsBack(p.k) && Enabled(p, c, Finish(ch, m, weather))
    ensures var c' := Next(p, c, Finish(ch, m, weather));
            Good(p, c') && W.Enabled(c.w, W.RunDb(m.taskId, weather, false)) && c'.w == W.RunAt(c.w, m.taskId, weather, false)
  {
    RunningIsPending(p, c, ch, m);
    var s := c.w.pending[m.taskId];
    var c' := Executed(c, ch, m, s, weather, p.k);
    R.StepKeepsGood(c.w, W.RunDb(m.taskId, weather, false));
    S.StepKeepsGood(c.d, D.FinishTask(ch, m, p.k.result(Execute(SaveTask(s), c.w.db, weather).result)));
    forall t: nat | t != 0 ensures TiedId(p, c', t) {
      assert TiedId(p, c, t) && TiedId(p, c, m.taskId) && D.GoodId(c.d, t) && D.GoodId(c.d, m.taskId);
      FinishKeepsTied(p, c, ch, m, weather, t);
    }
  }

  lemma RerunStep(p: Post, c: Site, ch: D.Channel, m: T.Msg, weather: Weather)
    requires Good(p, c) && ReadsBack(p.k) && Enabled(p, c, Rerun(ch, m, weather))
    ensures var c' := Next(p, c, Rerun(ch, m, weather));
            Good(p, c') && W.Enabled(c.w, W.RunDb(m.taskId, weather, true)) && c'.w == W.RunAt(c.w, m.taskId, weather, true)
  {
    RunningIsPending(p, c, ch, m);
    R.StepKeepsGood(c.w, W.RunDb(m.taskId, weather, true));
    var c' := Next(p, c, Rerun(ch, m, weather));
    forall t: nat | t != 0 ensures TiedId(p, c', t) { assert TiedId(p, c, t); }
  }

  /** The result that completes a save task is the answer the save world has for it, and names its player. */
  lemma ResultIsAnswer(p: Post, c: Site, m: T.Msg, now: int, later: int, send: T.Sender)
    requires Good(p, c) && ReadsBack(p.k) && D.Enabled(c.d, D.DeliverResult(p.me, m, true, now, later, send))
    requires m.taskId in c.w.owners && T.Complete(c.d.tables[p.me], m, now).ok
    ensures m.taskId != 0 && m.taskId in c.w.answers
    ensures p.k.readResult(m.body) == Some(c.w.answers[m.taskId].result) && m.call.player == c.w.answers[m.taskId].snapshot.player
  {
    var t := m.taskId;
    assert TiedId(p, c, t) && D.GoodId(c.d, t);
    CompleteFates(c.d, p.me, m, now, later, send, t);
  }

  lemma DeliverKeepsTied(p: Post, c: Site, m: T.Msg, result: DbResult, now: int, later: int, send: T.Sender, order: seq<nat>, t: nat)
    requires t != 0 && m.taskId != 0 && TiedId(p, c, t) && D.GoodId(c.d, t) && D.GoodId(c.d, m.taskId) && m.taskId in c.w.answers
    requires D.Enabled(c.d, D.DeliverResult(p.me, m, true, now, later, send)) && T.Complete(c.d.tables[p.me], m, now).ok
    ensures TiedId(p, Told(c, p.me, m, result, now, later, send, order), t)
  {
    CompleteFates(c.d, p.me, m, now, later, send, t);
  }

  /** A completed record is idle under no id. */
  lemma CompleteKeepsUnspent(b: B.Books, order: seq<nat>, task: nat, result: DbResult, live: Option<B.Live>, issued: map<nat, D.Issue>, q: nat)
    requires q in b.records ==> Unspent(b.records[q], issued)
    ensures var records := B.Complete(b, order, task, result, live).0.records; q in records ==> Unspent(records[q], issued)
  {
  }

  lemma DeliverStep(p: Post, c: Site, m: T.Msg, now: int, later: int, send: T.Sender, order: seq<nat>)
    requires Good(p, c) && ReadsBack(p.k) && Enabled(p, c, Deliver(m, now, later, send, order))
    ensures var c' := Next(p, c, Deliver(m, now, later, send, order));
            Good(p, c') && W.Enabled(c.w, W.Deliver(m.taskId, order)) && c'.w == W.DeliverAt(c.w, m.taskId, order)
  {
    ResultIsAnswer(p, c, m, now, later, send);
    var result := c.w.answers[m.taskId].result;
    var c' := Told(c, p.me, m, result, now, later, send, order);
    DeliverStaysGood(c.w, m.taskId, order);
    S.StepKeepsGood(c.d, D.DeliverResult(p.me, m, true, now, later, send));
    DeliverTies(p, c, m, result, now, later, send, order);
  }

  lemma DeliverStaysGood(w: W.World, task: nat, order: seq<nat>)
    requires W.Good(w) && W.Enabled(w, W.Deliver(task, order))
    ensures W.Good(W.DeliverAt(w, task, order))
  {
    R.StepKeepsGood(w, W.Deliver(task, order));
  }

  lemma DeliverTies(p: Post, c: Site, m: T.Msg, result: DbResult, now: int, later: int, send: T.Sender, order: seq<nat>)
    requires D.Good(c.d) && TiedAll(p, c) && m.taskId != 0 && m.taskId in c.w.answers
    requires D.Enabled(c.d, D.DeliverResult(p.me, m, true, now, later, send)) && T.Complete(c.d.tables[p.me], m, now).ok
    ensures TiedAll(p, Told(c, p.me, m, result, now, later, send, order))
  {
    var c' := Told(c, p.me, m, result, now, later, send, order);
    forall t: nat | t != 0 ensures TiedId(p, c', t) {
      assert TiedId(p, c, t) && D.GoodId(c.d, t) && D.GoodId(c.d, m.taskId);
      DeliverKeepsTied(p, c, m, result, now, later, send, order, t);
    }
    forall q | q in c'.w.books.records ensures Unspent(c'.w.books.records[q], c'.d.issued) {
      CompleteKeepsUnspent(c.w.books, order, m.taskId, result, W.LiveOf(c.w.live, m.call.player), c.d.issued, q);
    }
  }

  // ---- whole runs -------------------------------------------------------------------------------------

  /** Every step of the site is a step that the save world allows, or none. */
  lemma StepRefines(p: Post, c: Site, step: Step)
    requires Good(p, c) && ReadsBack(p.k) && Enabled(p, c, step)
    ensures Good(p, Next(p, c, step)) && Amounts(c.w, Next(p, c, step).w, Seen(p, c, step))
  {
    match step
    case Play(act) => PlayStep(p, c, act);
    case Save(player, offline, spare, call, now, send, order) => SaveStep(p, c, player, offline, spare, call, now, send, order);
    case Retry(player, spare, call, now, send, order) => RetryStep(p, c, player, spare, call, now, send, order);
    case Carry(step) => CarryStep(p, c, step);
    case Rerun(ch, m, weather) => RerunStep(p, c, ch, m, weather);
    case Finish(ch, m, weather) => FinishStep(p, c, ch, m, weather);
    case Deliver(m, now, later, send, order) => DeliverStep(p, c, m, now, later, send, order);
  }

  ghost predicate LegalRun(p: Post, c: Site, steps: seq<Step>)
    decreases |steps|
  {
    steps == [] || (Enabled(p, c, steps[0]) && LegalRun(p, Next(p, c, steps[0]), steps[1..]))
  }

  function Run(p: Post, c: Site, steps: seq<Step>): Site
    decreases |steps|
  {
    if steps == [] then c else Run(p, Next(p, c, steps[0]), steps[1..])
  }

  /** The run as the save world sees it. */
  function SeenRun(p: Post, c: Site, steps: seq<Step>): seq<W.Step>
    decreases |steps|
  {
    if steps == [] then []
    else
      var seen := Seen(p, c, steps[0]);
      (if seen.Some? then [seen.value] else []) + SeenRun(p, Next(p, c, steps[0]), steps[1..])
  }

  lemma OneMore(w: W.World, w': W.World, seen: Option<W.Step>, rest: seq<W.Step>)
    requires Amounts(w, w', seen) && R.LegalRun(w', rest)
    ensures var steps := (if seen.Some? then [seen.value] else []) + rest;
            R.LegalRun(w, steps) && R.Run(w, steps) == R.Run(w', rest)
  {
    if seen.Some? {
      assert ([seen.value] + rest)[0] == seen.value && ([seen.value] + rest)[1..] == rest;
    } else {
      assert [] + rest == rest;
    }
  }

  lemma {:induction false} RunRefines(p: Post, c: Site, steps: seq<Step>)
    requires Good(p, c) && ReadsBack(p.k) && LegalRun(p, c, steps)
    ensures Good(p, Run(p, c, steps))
    ensures R.LegalRun(c.w, SeenRun(p, c, steps)) && Run(p, c, steps).w == R.Run(c.w, SeenRun(p, c, steps))
    decreases |steps|
  {
    if steps != [] {
      var c' := Next(p, c, steps[0]);
      StepRefines(p, c, steps[0]);
      RunRefines(p, c', steps[1..]);
      OneMore(c.w, c'.w, Seen(p, c, steps[0]), SeenRun(p, c', steps[1..]));
    }
  }

  /** The server's start: nobody online and nothing under way in the layer below. */
  lemma StartIsGood(p: Post, db: Db, d: D.System)
    requires S.Fresh(d)
    ensures Good(p, Site(R.Start(db), d))
  {
    S.FreshIsGood(d);
    R.RunKeepsGood(R.Start(db), []);
  }

  /** On every run of saves over the delivery protocol, whatever it queues, delays, repeats or drops, the
      save world goes through a legal run of its own. */
  lemma SavesOverDelivery(p: Post, db: Db, d: D.System, steps: seq<Step>)
    requires ReadsBack(p.k) && S.Fresh(d) && LegalRun(p, Site(R.Start(db), d), steps)
    ensures var c := Site(R.Start(db), d);
            R.LegalRun(c.w, SeenRun(p, c, steps)) && Run(p, c, steps).w == R.Run(c.w, SeenRun(p, c, steps))
  {
    StartIsGood(p, db, d);
    RunRefines(p, Site(R.Start(db), d), steps);
  }

  /** And so a player who left, and is no longer being saved, is stored in exactly the state it left in. */
  lemma LogoutSurvivesDelivery(p: Post, db: Db, d: D.System, steps: seq<Step>, player: nat)
    requires ReadsBack(p.k) && S.Fresh(d) && LegalRun(p, Site(R.Start(db), d), steps)
    requires var w := Run(p, Site(R.Start(db), d), steps).w; player in w.left && player !in w.live && player !in w.books.records
    ensures var w := Run(p, Site(R.Start(db), d), steps).w; w.left[player].player == player && W.Holds(w.db, w.left[player])
  {
    SavesOverDelivery(p, db, d, steps);
    R.LogoutIsDurable(db, SeenRun(p, Site(R.Start(db), d), steps), player);
  }
}
