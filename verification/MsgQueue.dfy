/** The per-peer message queues of msgq.cpp: one message of a peer is with the transport at
    a time, the others wait for its receipt. */
module MsgQueue {
  import opened Wire
  import opened Wrappers

  type Peer = string
  type Msg = seq<Byte>

  // -------------------------------------------------------------------------
  // The protocol on values
  // -------------------------------------------------------------------------

  // A peer with a message at the transport. lost: the transport refused that message, so
  // no receipt will ever come for it.
  datatype Line = Line(waiting: seq<Msg>, lost: bool)

  datatype Handed = Handed(peer: Peer, msg: Msg)

  // ok: whether the transport accepts the message the step hands over, if it hands one.
  datatype Event =
    | Enqueue(peer: Peer, msg: Msg, ok: bool)
    | Receipt(peer: Peer, ok: bool)
    | StaleReceipt
    | Offline(peer: Peer)

  datatype Outcome = Outcome(lines: map<Peer, Line>, handed: seq<Handed>)

  // A receipt can only come for a message the transport accepted.
  predicate Possible(lines: map<Peer, Line>, e: Event) {
    e.Receipt? ==> e.peer in lines && !lines[e.peer].lost
  }

  function Next(lines: map<Peer, Line>, e: Event): Outcome
    requires Possible(lines, e)
  {
    match e
    case Enqueue(p, m, ok) =>
      if p in lines then Outcome(lines[p := lines[p].(waiting := lines[p].waiting + [m])], [])
      else Outcome(lines[p := Line([], !ok)], [Handed(p, m)])
    case Receipt(p, ok) =>
      var w := lines[p].waiting;
      if w == [] then Outcome(lines - {p}, [])
      else Outcome(lines[p := Line(w[1..], !ok)], [Handed(p, w[0])])
    case StaleReceipt => Outcome(lines, [])
    case Offline(p) => Outcome(lines - {p}, [])
  }

  // -------------------------------------------------------------------------
  // Runs
  // -------------------------------------------------------------------------

  ghost predicate PossibleRun(evs: seq<Event>)
    decreases |evs|, 1
  {
    evs == [] || (var n := |evs| - 1; PossibleRun(evs[..n]) && Possible(Run(evs[..n]), evs[n]))
  }

  ghost function Run(evs: seq<Event>): map<Peer, Line>
    requires PossibleRun(evs)
    decreases |evs|, 3
  {
    if evs == [] then map[] else Last(evs).lines
  }

  ghost function Last(evs: seq<Event>): Outcome
    requires evs != [] && PossibleRun(evs)
    decreases |evs|, 2
  {
    var n := |evs| - 1;
    Next(Run(evs[..n]), evs[n])
  }

  // What was enqueued for a peer since it was last seen going offline.
  function Enqueued(evs: seq<Event>, p: Peer): seq<Msg>
    decreases |evs|
  {
    if evs == [] then []
    else
      var n := |evs| - 1;
      var before := Enqueued(evs[..n], p);
      match evs[n]
      case Enqueue(to, m, _) => if to == p then before + [m] else before
      case Offline(from) => if from == p then [] else before
      case _ => before
  }

  function To(handed: seq<Handed>, p: Peer): seq<Msg> {
    if handed == [] then []
    else if handed[0].peer == p then [handed[0].msg] + To(handed[1..], p)
    else To(handed[1..], p)
  }

  // What was handed to the transport for a peer since then.
  ghost function HandedTo(evs: seq<Event>, p: Peer): seq<Msg>
    requires PossibleRun(evs)
    decreases |evs|
  {
    if evs == [] then []
    else
      var n := |evs| - 1;
      if evs[n] == Offline(p) then [] else HandedTo(evs[..n], p) + To(Last(evs).handed, p)
  }

  function Waiting(lines: map<Peer, Line>, p: Peer): seq<Msg> {
    if p in lines then lines[p].waiting else []
  }

  // What was handed to the transport with each event.
  ghost function Handovers(evs: seq<Event>): seq<seq<Handed>>
    requires PossibleRun(evs)
    decreases |evs|
  {
    if evs == [] then [] else Handovers(evs[..|evs| - 1]) + [Last(evs).handed]
  }

  // A run grows by one event.
  lemma RunSnoc(evs: seq<Event>, e: Event)
    requires PossibleRun(evs) && Possible(Run(evs), e)
    ensures var now := evs + [e];
            && PossibleRun(now) && Run(now) == Next(Run(evs), e).lines
            && Handovers(now) == Handovers(evs) + [Next(Run(evs), e).handed]
  {
    hide Next;
    var now := evs + [e];
    assert now[..|now| - 1] == evs && now[|now| - 1] == e;
  }

  // One step: what was waiting plus what arrives is what is handed over plus what waits.
  lemma StepConserves(lines: map<Peer, Line>, e: Event, p: Peer)
    requires Possible(lines, e) && e != Offline(p)
    ensures var o := Next(lines, e);
            Waiting(lines, p) + Arrived(e, p) == To(o.handed, p) + Waiting(o.lines, p)
  {
    var o := Next(lines, e);
    if o.handed != [] {
      assert o.handed[1..] == [];
    }
  }

  function Arrived(e: Event, p: Peer): seq<Msg> {
    if e.Enqueue? && e.peer == p then [e.msg] else []
  }

  // How one more event changes both histories.
  lemma HistoryStep(evs: seq<Event>, p: Peer)
    requires evs != [] && PossibleRun(evs) && evs[|evs| - 1] != Offline(p)
    ensures var n := |evs| - 1;
            && PossibleRun(evs[..n])
            && Enqueued(evs, p) == Enqueued(evs[..n], p) + Arrived(evs[n], p)
            && HandedTo(evs, p) == HandedTo(evs[..n], p) + To(Last(evs).handed, p)
  {
    hide To, Run, Last, Next;
  }

  lemma Regroup(enqueued: seq<Msg>, handed: seq<Msg>, waiting: seq<Msg>, arrived: seq<Msg>, sent: seq<Msg>,
      now: seq<Msg>)
    requires enqueued == handed + waiting && waiting + arrived == sent + now
    ensures enqueued + arrived == (handed + sent) + now
  {
    ConcatAssociative(handed, waiting, arrived);
    ConcatAssociative(handed, sent, now);
  }

  // Within one connection of a peer, the messages handed to the transport followed by
  // those waiting are the messages enqueued, in order: none lost, none twice.
  lemma {:induction false} Conservation(evs: seq<Event>, p: Peer)
    requires PossibleRun(evs)
    ensures Enqueued(evs, p) == HandedTo(evs, p) + Waiting(Run(evs), p)
    decreases |evs|
  {
    if evs == [] || evs[|evs| - 1] == Offline(p) {
      NothingYet(evs, p);
    } else {
      hide Enqueued, HandedTo, To, Waiting, Next, Arrived;
      var n := |evs| - 1;
      var was, e := evs[..n], evs[n];
      HistoryStep(evs, p);
      Conservation(was, p);
      StepConserves(Run(was), e, p);
      Regroup(Enqueued(was, p), HandedTo(was, p), Waiting(Run(was), p), Arrived(e, p), To(Last(evs).handed, p),
              Waiting(Run(evs), p));
    }
  }

  lemma NothingYet(evs: seq<Event>, p: Peer)
    requires PossibleRun(evs) && (evs == [] || evs[|evs| - 1] == Offline(p))
    ensures Enqueued(evs, p) == HandedTo(evs, p) == Waiting(Run(evs), p) == []
  {
  }

  // The receipts for a peer since it was last seen going offline.
  function ReceiptsSince(evs: seq<Event>, p: Peer): nat
    decreases |evs|
  {
    if evs == [] then 0
    else
      var n := |evs| - 1;
      match evs[n]
      case Receipt(from, _) => ReceiptsSince(evs[..n], p) + if from == p then 1 else 0
      case Offline(from) => if from == p then 0 else ReceiptsSince(evs[..n], p)
      case _ => ReceiptsSince(evs[..n], p)
  }

  // Stop and wait: within one connection a peer has been handed one message for each receipt,
  // and one more exactly while it has a line.
  lemma {:induction false} StopAndWait(evs: seq<Event>, p: Peer)
    requires PossibleRun(evs)
    ensures |HandedTo(evs, p)| == ReceiptsSince(evs, p) + if p in Run(evs) then 1 else 0
    decreases |evs|
  {
    if evs == [] || evs[|evs| - 1] == Offline(p) {
      NothingYet(evs, p);
      NoLine(evs, p);
    } else {
      hide Enqueued, HandedTo, To, Next;
      var n := |evs| - 1;
      HistoryStep(evs, p);
      StopAndWait(evs[..n], p);
      HandedByStep(Run(evs[..n]), evs[n], p);
    }
  }

  lemma NoLine(evs: seq<Event>, p: Peer)
    requires PossibleRun(evs) && (evs == [] || evs[|evs| - 1] == Offline(p))
    ensures p !in Run(evs) && ReceiptsSince(evs, p) == 0
  {
  }

  lemma HandedByStep(lines: map<Peer, Line>, e: Event, p: Peer)
    requires Possible(lines, e) && e != Offline(p)
    ensures var o := Next(lines, e);
            |To(o.handed, p)| + (if p in lines then 1 else 0) ==
            (if e.Receipt? && e.peer == p then 1 else 0) + (if p in o.lines then 1 else 0)
  {
    var o := Next(lines, e);
    if o.handed != [] {
      assert o.handed[1..] == [];
    }
  }

  // A message enqueued for a peer that has no line is handed over by that very event, alone;
  // for one that has, it goes to the end of those waiting. A receipt hands over the message
  // that has waited longest, or ends the line.
  lemma HandedAtOnce(evs: seq<Event>, e: Event)
    requires PossibleRun(evs) && Possible(Run(evs), e)
    ensures var now := evs + [e];
            && PossibleRun(now)
            && Handovers(now) == Handovers(evs) + [
                 if e.Enqueue? && e.peer !in Run(evs) then [Handed(e.peer, e.msg)]
                 else if e.Receipt? && Run(evs)[e.peer].waiting != [] then [Handed(e.peer, Run(evs)[e.peer].waiting[0])]
                 else []]
            && (e.Enqueue? && e.peer !in Run(evs) ==> e.peer in Run(now) && Run(now)[e.peer] == Line([], !e.ok))
            && (e.Enqueue? && e.peer in Run(evs) ==>
                  e.peer in Run(now) && Run(now)[e.peer].waiting == Run(evs)[e.peer].waiting + [e.msg])
            && (e.Receipt? ==>
                  if Run(evs)[e.peer].waiting == [] then e.peer !in Run(now)
                  else e.peer in Run(now) && Run(now)[e.peer] == Line(Run(evs)[e.peer].waiting[1..], !e.ok))
            && (forall p :: e.StaleReceipt? || e.peer != p ==>
                  (p in Run(now) <==> p in Run(evs)) && (p in Run(evs) ==> Run(now)[p] == Run(evs)[p]))
  {
    RunSnoc(evs, e);
  }

  // Once the transport has refused a message, nothing more goes out to the peer, however
  // much is enqueued, until it goes offline.
  lemma {:induction false} RefusedMeansStuck(evs: seq<Event>, n: nat, p: Peer)
    requires PossibleRun(evs) && n <= |evs| && PossibleRun(evs[..n])
    requires p in Run(evs[..n]) && Run(evs[..n])[p].lost
    requires forall k :: n <= k < |evs| ==> evs[k] != Offline(p)
    ensures p in Run(evs) && Run(evs)[p].lost && HandedTo(evs, p) == HandedTo(evs[..n], p)
    decreases |evs|
  {
    if n == |evs| {
      assert evs[..n] == evs;
    } else {
      var last := |evs| - 1;
      var was := evs[..last];
      assert was[..n] == evs[..n];
      RefusedMeansStuck(was, n, p);
      OthersUndisturbed(Run(was), evs[last], p);
    }
  }

  lemma OthersUndisturbed(lines: map<Peer, Line>, e: Event, p: Peer)
    requires Possible(lines, e) && p in lines && lines[p].lost && e != Offline(p)
    ensures p in Next(lines, e).lines && Next(lines, e).lines[p].lost && To(Next(lines, e).handed, p) == []
  {
    var o := Next(lines, e);
    if o.handed != [] {
      assert o.handed[1..] == [];
    }
  }

  // k accepted receipts in a row.
  function Receipts(p: Peer, k: nat): seq<Event> {
    if k == 0 then [] else Receipts(p, k - 1) + [Receipt(p, true)]
  }

  // One more accepted receipt.
  lemma OneReceipt(was: seq<Event>, p: Peer)
    requires PossibleRun(was) && p in Run(was) && !Run(was)[p].lost && Run(was)[p].waiting != []
    ensures var now := was + [Receipt(p, true)];
            && PossibleRun(now) && p in Run(now) && Run(now)[p] == Line(Run(was)[p].waiting[1..], false)
            && Enqueued(now, p) == Enqueued(was, p)
  {
    var now := was + [Receipt(p, true)];
    assert now[..|now| - 1] == was;
    assert now[|now| - 1] == Receipt(p, true);
    assert Possible(Run(was), now[|now| - 1]);
  }

  // A peer whose last message was accepted gets everything that waits for it, one message
  // a receipt, and becomes idle with the receipt after that.
  lemma {:induction false} Drain(evs: seq<Event>, p: Peer, k: nat)
    requires PossibleRun(evs) && p in Run(evs) && !Run(evs)[p].lost && k <= |Run(evs)[p].waiting|
    ensures PossibleRun(evs + Receipts(p, k))
    ensures p in Run(evs + Receipts(p, k))
    ensures Run(evs + Receipts(p, k))[p] == Line(Run(evs)[p].waiting[k..], false)
    ensures Enqueued(evs + Receipts(p, k), p) == Enqueued(evs, p)
  {
    if k == 0 {
      assert evs + Receipts(p, k) == evs;
    } else {
      Drain(evs, p, k - 1);
      var was := evs + Receipts(p, k - 1);
      ConcatAssociative(evs, Receipts(p, k - 1), [Receipt(p, true)]);
      OneReceipt(was, p);
    }
  }

  lemma AllDelivered(evs: seq<Event>, p: Peer)
    requires PossibleRun(evs) && p in Run(evs) && !Run(evs)[p].lost
    ensures var done := evs + Receipts(p, |Run(evs)[p].waiting|);
            && PossibleRun(done) && HandedTo(done, p) == Enqueued(evs, p)
            && PossibleRun(done + [Receipt(p, true)]) && p !in Run(done + [Receipt(p, true)])
  {
    var done := evs + Receipts(p, |Run(evs)[p].waiting|);
    Drain(evs, p, |Run(evs)[p].waiting|);
    Conservation(done, p);
    var idle := done + [Receipt(p, true)];
    assert idle[..|idle| - 1] == done;
    assert idle[|idle| - 1] == Receipt(p, true);
    assert Possible(Run(done), idle[|idle| - 1]);
    assert p !in Last(idle).lines;
  }

  // -------------------------------------------------------------------------
  // The queues
  // -------------------------------------------------------------------------

  class MsgQ {
    const peer: Peer
    var q: seq<Msg>
    var depr: bool

    constructor (peer: Peer)
      ensures this.peer == peer && q == [] && !depr
    {
      this.peer, q, depr := peer, [], false;
    }
  }

  // What can be asked of the queues: enqueue, deliver the k-th receipt still to come, or
  // report a peer offline.
  datatype Call = Send(peer: Peer, msg: Msg, ok: bool) | Deliver(k: nat, ok: bool) | Leave(peer: Peer)

  // What a call is in the protocol.
  ghost predicate Matches(c: Call, e: Event) {
    match c
    case Send(to, msg, ok) => e == Enqueue(to, msg, ok)
    case Deliver(_, ok) => e.StaleReceipt? || (e.Receipt? && e.ok == ok)
    case Leave(peer) => e == Offline(peer)
  }

  class MsgQs {
    var msgqs: map<Peer, MsgQ>
    var awaiting: seq<MsgQ>     // receipts still to come, each with the queue given as its context
    ghost var refused: set<MsgQ>  // queues whose last send the transport refused

    ghost function Outstanding(): set<MsgQ>
      reads this`awaiting, this`refused
    {
      (set q | q in awaiting) + refused
    }

    // Queues with a send outstanding that had none before are new.
    twostate predicate OnlyNew()
      reads this`awaiting, this`refused
    {
      forall q :: q in Outstanding() ==> q in old(Outstanding()) || fresh(q)
    }

    ghost predicate TableOk()
      reads this`msgqs, this`awaiting, this`refused, msgqs.Values`depr
    {
      forall p :: p in msgqs ==> msgqs[p].peer == p && !msgqs[p].depr && msgqs[p] in Outstanding()
    }

    // A queue has one send outstanding at most.
    ghost predicate OnceEach()
      reads this`awaiting, this`refused
    {
      && (forall i, j :: 0 <= i < j < |awaiting| ==> awaiting[i] != awaiting[j])
      && (forall q :: q in awaiting ==> q !in refused)
    }

    // Every queue with a send outstanding is the table's entry for its own peer or is
    // deprecated, never both.
    ghost predicate LiveOrDeprecated()
      reads this`msgqs, this`awaiting, this`refused, Outstanding()`depr
    {
      forall q :: q in Outstanding() ==> (q.peer in msgqs && msgqs[q.peer] == q <==> !q.depr)
    }

    ghost predicate Valid()
      reads this, msgqs.Values`depr, Outstanding()`depr
    {
      TableOk() && OnceEach() && LiveOrDeprecated()
    }

    ghost function Lines(): map<Peer, Line>
      reads this`msgqs, this`refused, msgqs.Values`q
    {
      map p | p in msgqs :: Line(msgqs[p].q, msgqs[p] in refused)
    }

    constructor ()
      ensures Valid() && Lines() == map[] && Outstanding() == {}
    {
      msgqs, awaiting, refused := map[], [], {};
    }

    // Hand a message over for a queue that has none with the transport.
    method Send(q: MsgQ, ok: bool)
      requires OnceEach() && q !in Outstanding()
      modifies this`awaiting, this`refused
      ensures OnceEach() && Outstanding() == old(Outstanding()) + {q}
      ensures q in refused <==> !ok
      ensures refused - {q} == old(refused)
    {
      if ok {
        awaiting := awaiting + [q];
      } else {
        refused := refused + {q};
      }
    }

    // The k-th receipt comes.
    method Take(k: nat) returns (q: MsgQ)
      requires OnceEach() && k < |awaiting|
      modifies this`awaiting
      ensures q == old(awaiting[k]) && OnceEach() && Outstanding() == old(Outstanding()) - {q}
      ensures awaiting == old(awaiting[..k] + awaiting[k + 1..])
    {
      q := awaiting[k];
      awaiting := awaiting[..k] + awaiting[k + 1..];
      assert forall x :: x in old(awaiting) ==> x == q || x in awaiting;
    }

    // msgq_enq
    method Enq(to: Peer, msg: Msg, ok: bool) returns (handed: seq<Handed>)
      requires Valid()
      modifies this`msgqs, this`awaiting, this`refused, (if to in msgqs then {msgqs[to]} else {})`q
      ensures Valid() && OnlyNew()
      ensures Outcome(Lines(), handed) == Next(old(Lines()), Enqueue(to, msg, ok))
      ensures handed == if to in old(msgqs) then [] else [Handed(to, msg)]
    {
      if to in msgqs {
        Wait(to, msg);
        handed := [];
      } else {
        Open(to, ok);
        handed := [Handed(to, msg)];
      }
    }

    method Wait(to: Peer, msg: Msg)
      requires Valid() && to in msgqs
      modifies {msgqs[to]}`q
      ensures Valid() && Outstanding() == old(Outstanding())
      ensures Lines() == old(Lines())[to := old(Lines())[to].(waiting := old(Lines())[to].waiting + [msg])]
    {
      var q := msgqs[to];
      q.q := q.q + [msg];
    }

    // A new queue enters the table with its first send outstanding.
    twostate lemma OpenedValid(new q: MsgQ)
      requires old(TableOk()) && old(LiveOrDeprecated())
      requires q.peer !in old(msgqs) && msgqs == old(msgqs)[q.peer := q] && !q.depr && q !in old(Outstanding())
      requires Outstanding() == old(Outstanding()) + {q}
      requires forall x :: x in old(Outstanding()) ==> x.depr == old(x.depr)
      ensures TableOk() && LiveOrDeprecated()
    {
      hide Outstanding;
      assert forall p :: p in old(msgqs) ==> old(msgqs)[p] in old(Outstanding());
    }

    twostate lemma OpenedLines(new q: MsgQ, new ok: bool)
      requires q.peer !in old(msgqs) && msgqs == old(msgqs)[q.peer := q] && q.q == []
      requires (q in refused <==> !ok) && refused - {q} == old(refused)
      requires forall p :: p in old(msgqs) ==> old(msgqs)[p] != q && msgqs[p].q == old(msgqs[p].q)
      ensures Lines() == old(Lines())[q.peer := Line([], !ok)]
    {
    }

    method Open(to: Peer, ok: bool)
      requires Valid() && to !in msgqs
      modifies this`msgqs, this`awaiting, this`refused
      ensures Valid() && OnlyNew()
      ensures Lines() == old(Lines())[to := Line([], !ok)]
    {
      hide OnceEach, TableOk, LiveOrDeprecated, Lines;
      var q := new MsgQ(to);
      Send(q, ok);
      msgqs := msgqs[to := q];
      OpenedValid(q);
      OpenedLines(q, ok);
    }

    // on_msg_receipt for the k-th outstanding receipt. For a deprecated queue it is a stale
    // receipt: nothing is sent and nothing about any queue changes.
    method OnReceipt(k: nat, ok: bool) returns (handed: seq<Handed>)
      requires Valid() && k < |awaiting|
      modifies this`msgqs, this`awaiting, this`refused, {awaiting[k]}`q
      ensures Valid() && OnlyNew()
      ensures var q := old(awaiting[k]);
              var e := if old(q.depr) then StaleReceipt else Receipt(q.peer, ok);
              Possible(old(Lines()), e) && Outcome(Lines(), handed) == Next(old(Lines()), e)
      ensures var q := old(awaiting[k]);
              handed == if old(q.depr) || old(q.q) == [] then [] else [Handed(q.peer, old(q.q)[0])]
      ensures old(awaiting[k].depr) ==> unchanged(old(awaiting[k])) && unchanged(this`msgqs)
    {
      hide OnceEach;
      Receivable(k);
      if awaiting[k].depr {
        var _ := Take(k);
        handed := [];
      } else if awaiting[k].q == [] {
        Close(k);
        handed := [];
      } else {
        var to := awaiting[k].peer;
        var m := SendNext(k, ok);
        handed := [Handed(to, m)];
      }
    }

    lemma Receivable(k: nat)
      requires Valid() && k < |awaiting|
      ensures var q := awaiting[k];
              q in Outstanding() && q !in refused && (!q.depr ==> q.peer in msgqs && msgqs[q.peer] == q)
    {
    }

    // A live queue leaves the table with its last receipt.
    twostate lemma ClosedValid(new q: MsgQ)
      requires old(TableOk()) && old(LiveOrDeprecated())
      requires q.peer in old(msgqs) && old(msgqs)[q.peer] == q && msgqs == old(msgqs) - {q.peer}
      requires Outstanding() == old(Outstanding()) - {q}
      requires forall x :: x in old(Outstanding()) ==> x.depr == old(x.depr)
      ensures TableOk() && LiveOrDeprecated()
    {
      hide Outstanding;
      assert forall p :: p in old(msgqs) ==> old(msgqs)[p] in old(Outstanding()) && old(msgqs)[p].peer == p;
    }

    method Close(k: nat)
      requires Valid() && k < |awaiting| && !awaiting[k].depr
      modifies this`msgqs, this`awaiting
      ensures Valid() && OnlyNew() && Lines() == old(Lines()) - {old(awaiting[k]).peer}
    {
      Receivable(k);
      hide OnceEach, TableOk, LiveOrDeprecated, Outstanding;
      var q := Take(k);
      msgqs := msgqs - {q.peer};
      ClosedValid(q);
    }

    // The next message of a live queue goes out.
    twostate lemma SentLines(new q: MsgQ, new ok: bool)
      requires old(TableOk()) && q.peer in msgqs && msgqs[q.peer] == q && msgqs == old(msgqs) && q !in old(refused)
      requires old(q.q) != [] && q.q == old(q.q)[1..]
      requires (q in refused <==> !ok) && refused - {q} == old(refused)
      requires forall p :: p in msgqs && msgqs[p] != q ==> msgqs[p].q == old(msgqs[p].q)
      ensures Lines() == old(Lines())[q.peer := Line(old(q.q)[1..], !ok)]
    {
      hide Outstanding;
    }

    twostate lemma SentValid()
      requires old(TableOk()) && old(LiveOrDeprecated()) && msgqs == old(msgqs) && Outstanding() == old(Outstanding())
      requires forall x :: x in old(Outstanding()) ==> x.depr == old(x.depr)
      ensures TableOk() && LiveOrDeprecated()
    {
      hide Outstanding;
      assert forall p :: p in old(msgqs) ==> old(msgqs)[p] in old(Outstanding());
    }

    method SendNext(k: nat, ok: bool) returns (m: Msg)
      requires Valid() && k < |awaiting| && !awaiting[k].depr && awaiting[k].q != []
      modifies this`awaiting, this`refused, {awaiting[k]}`q
      ensures Valid() && OnlyNew() && m == old(awaiting[k].q[0])
      ensures Lines() == old(Lines())[old(awaiting[k]).peer := Line(old(awaiting[k].q[1..]), !ok)]
    {
      Receivable(k);
      hide OnceEach, TableOk, LiveOrDeprecated, Lines, Outstanding;
      var q := Take(k);
      m := q.q[0];
      q.q := q.q[1..];
      Send(q, ok);
      assert Outstanding() == old(Outstanding());
      SentValid();
      SentLines(q, ok);
    }

    // A queue leaves the table deprecated.
    twostate lemma DeprecatedValid(new q: MsgQ)
      requires old(TableOk()) && old(LiveOrDeprecated())
      requires q.peer in old(msgqs) && old(msgqs)[q.peer] == q && msgqs == old(msgqs) - {q.peer} && q.depr
      requires Outstanding() == old(Outstanding())
      requires forall x :: x in old(Outstanding()) && x != q ==> x.depr == old(x.depr)
      ensures TableOk() && LiveOrDeprecated()
    {
      hide Outstanding;
      assert forall p :: p in old(msgqs) ==> old(msgqs)[p] in old(Outstanding()) && old(msgqs)[p].peer == p;
    }

    lemma InTable(peer: Peer)
      requires TableOk() && peer in msgqs
      ensures msgqs[peer].peer == peer
    {
    }

    // msgq_peer_offline
    method PeerOffline(peer: Peer)
      requires Valid()
      modifies this`msgqs, (if peer in msgqs then {msgqs[peer]} else {})`depr
      ensures Valid() && Outstanding() == old(Outstanding())
      ensures Outcome(Lines(), []) == Next(old(Lines()), Offline(peer))
      ensures peer in old(msgqs) ==> old(msgqs)[peer].depr
    {
      hide OnceEach, TableOk, LiveOrDeprecated, Outstanding;
      if peer in msgqs {
        var q := msgqs[peer];
        InTable(peer);
        msgqs := msgqs - {peer};
        q.depr := true;
        DeprecatedValid(q);
      }
    }

    // -----------------------------------------------------------------------
    // Calls one after the other
    // -----------------------------------------------------------------------

    lemma InTableOutstanding()
      requires TableOk()
      ensures forall p :: p in msgqs ==> msgqs[p] in Outstanding()
    {
    }

    // One call. There may be no receipt to deliver: then nothing happens.
    method Serve(c: Call) returns (handed: seq<Handed>, e: Event)
      requires Valid()
      modifies this, Outstanding()
      ensures Valid() && OnlyNew()
      ensures Matches(c, e) && Possible(old(Lines()), e) && Outcome(Lines(), handed) == Next(old(Lines()), e)
      ensures c.Deliver? && c.k < |old(awaiting)| && !old(awaiting[c.k].depr) ==>
                e == Receipt(old(awaiting)[c.k].peer, c.ok)
    {
      hide TableOk, OnceEach, LiveOrDeprecated, Lines;
      InTableOutstanding();
      match c {
        case Send(to, msg, ok) =>
          handed := Enq(to, msg, ok);
          e := Enqueue(to, msg, ok);
        case Deliver(k, ok) =>
          if k < |awaiting| {
            e := if awaiting[k].depr then StaleReceipt else Receipt(awaiting[k].peer, ok);
            handed := OnReceipt(k, ok);
          } else {
            handed, e := [], StaleReceipt;
          }
        case Leave(peer) =>
          PeerOffline(peer);
          handed, e := [], Offline(peer);
      }
    }

    // Any calls after any run are a run.
    method ServeAll(calls: seq<Call>, ghost past: seq<Event>)
      returns (handed: seq<seq<Handed>>, evs: seq<Event>)
      requires Valid() && PossibleRun(past) && Lines() == Run(past)
      modifies this, Outstanding()
      ensures Valid() && OnlyNew()
      ensures |evs| == |calls| && forall i :: 0 <= i < |calls| ==> Matches(calls[i], evs[i])
      ensures PossibleRun(past + evs) && Lines() == Run(past + evs)
      ensures Handovers(past + evs) == Handovers(past) + handed
    {
      hide TableOk, OnceEach, LiveOrDeprecated, Lines, Next, Run, PossibleRun, Handovers, Matches, Outstanding;
      handed, evs := [], [];
      assert past + evs == past && Handovers(past) + handed == Handovers(past);
      var i := 0;
      while i < |calls|
        invariant 0 <= i == |evs| <= |calls| && Valid() && OnlyNew()
        invariant forall k :: 0 <= k < i ==> Matches(calls[k], evs[k])
        invariant PossibleRun(past + evs) && Lines() == Run(past + evs)
        invariant Handovers(past + evs) == Handovers(past) + handed
      {
        var one, e := Serve(calls[i]);
        RunSnoc(past + evs, e);
        ConcatAssociative(past, evs, [e]);
        ConcatAssociative(Handovers(past), handed, [one]);
        handed, evs := handed + [one], evs + [e];
        i := i + 1;
      }
    }

    // A live queue is in the table exactly while one send of it is outstanding; with no
    // refusal that send has its receipt still to come.
    lemma OneOutstanding(q: MsgQ)
      requires Valid() && !q.depr
      ensures (q.peer in msgqs && msgqs[q.peer] == q) <==> q in Outstanding()
      ensures q in Outstanding() && q !in refused ==> multiset(awaiting)[q] == 1
      ensures q !in Outstanding() || q in refused ==> multiset(awaiting)[q] == 0
    {
      CountOnce(awaiting, q);
    }

    static lemma {:induction false} CountOnce(s: seq<MsgQ>, q: MsgQ)
      requires forall i, j :: 0 <= i < j < |s| ==> s[i] != s[j]
      ensures multiset(s)[q] == if q in s then 1 else 0
    {
      if s != [] {
        CountOnce(s[1..], q);
        assert s == [s[0]] + s[1..];
        assert s[0] !in s[1..];
      }
    }
  }

  // From start-up, whatever the clients and the transport do: for every peer the messages
  // handed over and those still waiting are the messages enqueued, in order.
  method ServePeers(calls: seq<Call>) returns (handed: seq<seq<Handed>>, evs: seq<Event>)
    ensures |evs| == |calls| && forall i :: 0 <= i < |calls| ==> Matches(calls[i], evs[i])
    ensures PossibleRun(evs) && handed == Handovers(evs)
    ensures forall p :: Enqueued(evs, p) == HandedTo(evs, p) + Waiting(Run(evs), p)
    ensures forall p :: |HandedTo(evs, p)| == ReceiptsSince(evs, p) + if p in Run(evs) then 1 else 0
  {
    hide Matches, Enqueued, HandedTo, Waiting, ReceiptsSince, PossibleRun, Run, Handovers, MsgQs.Valid, MsgQs.Lines;
    NothingRun();
    var m := new MsgQs();
    handed, evs := m.ServeAll(calls, []);
    assert [] + evs == evs && [] + handed == handed;
    ConservationForAll(evs);
  }

  lemma NothingRun()
    ensures PossibleRun([]) && Run([]) == map[] && Handovers([]) == []
  {
  }

  lemma ConservationForAll(evs: seq<Event>)
    requires PossibleRun(evs)
    ensures forall p :: Enqueued(evs, p) == HandedTo(evs, p) + Waiting(Run(evs), p)
    ensures forall p :: |HandedTo(evs, p)| == ReceiptsSince(evs, p) + if p in Run(evs) then 1 else 0
  {
    hide Enqueued, HandedTo, Waiting, ReceiptsSince, Run;
    forall p
      ensures Enqueued(evs, p) == HandedTo(evs, p) + Waiting(Run(evs), p)
      ensures |HandedTo(evs, p)| == ReceiptsSince(evs, p) + if p in Run(evs) then 1 else 0
    {
      Conservation(evs, p);
      StopAndWait(evs, p);
    }
  }
}
