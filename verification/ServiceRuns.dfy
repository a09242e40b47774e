/** Runs of the service: what it does over any sequence of requests, as long as each handler
    keeps its contract and no ROLLBACK is refused. */
module ServiceRuns {
  import opened Tables
  import opened Database
  import opened ChannelIndex
  import opened FeedsSpec

  // The connection, the destinations enabled, and whether the channel tables and the graph
  // agree with what is stored.
  datatype Snapshot = Snapshot(conn: Conn, enabled: set<Dest>, cached: bool)

  ghost predicate InSync(o: Snapshot) {
    o.conn.Clean() && o.cached && Counted(o.conn.committed)
  }

  ghost function Seen(o: Snapshot): State {
    State(o.conn.committed, o.enabled)
  }

  // The contract of a handler: reply, notifications and new state as specified, or a
  // transaction left open with nothing stored.
  ghost predicate Obeys(o: Snapshot, r: Request, e: Env, resp: Resp, told: seq<Dest>, o': Snapshot) {
    var n := Next(Seen(o), r, e);
    && resp == n.resp && NoDup(told) && (forall d :: d in told <==> d in n.told)
    && if Stuck(Seen(o), r, e) then
         o'.conn.inTx && o'.conn.committed == o.conn.committed && o'.cached
       else
         InSync(o') && Seen(o') == n.state
  }

  // One run: what is seen before each request and at the end, the replies and the
  // notifications. Nothing is known of a handler that starts out of step.
  datatype Served = Served(seen: seq<Snapshot>, resps: seq<Resp>, told: seq<seq<Dest>>)

  ghost predicate Serves(run: Served, evs: seq<Event>) {
    && |run.seen| == |evs| + 1 && |run.resps| == |run.told| == |evs|
    && InSync(run.seen[0])
    && forall i :: 0 <= i < |evs| && InSync(run.seen[i]) ==>
         Obeys(run.seen[i], evs[i].request, evs[i].env, run.resps[i], run.told[i], run.seen[i + 1])
  }

  lemma ServesNothing(o: Snapshot, evs: seq<Event>)
    requires InSync(o)
    ensures Serves(Served([o], [], []), evs[..0])
  {
  }

  // One more request.
  lemma ServesMore(run: Served, evs: seq<Event>, n: nat, resp: Resp, told: seq<Dest>, o: Snapshot)
    requires n < |evs| && Serves(run, evs[..n]) && Obeys(run.seen[n], evs[n].request, evs[n].env, resp, told, o)
    ensures Serves(Served(run.seen + [o], run.resps + [resp], run.told + [told]), evs[..n + 1])
  {
    hide Obeys, InSync;
  }

  // No ROLLBACK is refused.
  ghost predicate Healthy(s: State, evs: seq<Event>) {
    forall i :: 0 <= i < |evs| ==> !Stuck(Run(s, evs[..i]), evs[i].request, evs[i].env)
  }

  lemma HealthyPrefix(s: State, evs: seq<Event>, n: nat)
    requires n < |evs|
    ensures Healthy(s, evs[..n + 1]) <==> Healthy(s, evs[..n]) && !Stuck(Run(s, evs[..n]), evs[n].request, evs[n].env)
  {
    hide Stuck, Run;
    var a, b := evs[..n], evs[..n + 1];
    assert forall i :: 0 <= i < n ==> a[..i] == b[..i] == evs[..i];
    assert b[..n] == a && b[n] == evs[n];
  }

  // The service is in step with its specification after every request if and only if no
  // ROLLBACK is refused; and as long as that lasts, state, replies and notifications are
  // the specified ones.
  lemma {:induction false} InSyncExactly(run: Served, evs: seq<Event>, n: nat)
    requires Serves(run, evs) && n <= |evs|
    ensures (forall i :: 0 <= i <= n ==> InSync(run.seen[i])) <==> Healthy(Seen(run.seen[0]), evs[..n])
    ensures Healthy(Seen(run.seen[0]), evs[..n]) ==> Seen(run.seen[n]) == Run(Seen(run.seen[0]), evs[..n])
  {
    hide Stuck, Next, Healthy, Counted;
    var s := Seen(run.seen[0]);
    if n == 0 {
      NothingUnhealthy(s, evs[..0]);
    } else {
      var m := n - 1;
      InSyncExactly(run, evs, m);
      HealthyPrefix(s, evs, m);
      if Healthy(s, evs[..m]) {
        assert InSync(run.seen[m]);
        assert evs[..n][..m] == evs[..m] && evs[..n][m] == evs[m];
        assert Obeys(run.seen[m], evs[m].request, evs[m].env, run.resps[m], run.told[m], run.seen[m + 1]);
      }
    }
  }

  lemma NothingUnhealthy(s: State, evs: seq<Event>)
    requires evs == []
    ensures Healthy(s, evs) && Run(s, evs) == s
  {
  }

  // A run that was in step before its last request.
  lemma ServedUntil(run: Served, evs: seq<Event>, n: nat)
    requires n <= |evs| && Serves(run, evs[..n]) && forall i :: 0 <= i < n ==> InSync(run.seen[i])
    ensures InSync(run.seen[n]) <==> Healthy(Seen(run.seen[0]), evs[..n])
    ensures InSync(run.seen[n]) ==> Seen(run.seen[n]) == Run(Seen(run.seen[0]), evs[..n])
  {
    hide Stuck, Next, Healthy, InSync, Obeys, Run, Seen;
    assert evs[..n][..n] == evs[..n];
    InSyncExactly(run, evs[..n], n);
  }

  // Request i of a run that has been healthy so far.
  lemma ServedStep(run: Served, evs: seq<Event>, i: nat)
    requires Serves(run, evs) && i < |evs| && Healthy(Seen(run.seen[0]), evs[..i])
    ensures InSync(run.seen[i]) && Seen(run.seen[i]) == Run(Seen(run.seen[0]), evs[..i])
    ensures run.resps[i] == StepAt(Seen(run.seen[0]), evs, i).resp
    ensures NoDup(run.told[i]) && forall d :: d in run.told[i] <==> d in StepAt(Seen(run.seen[0]), evs, i).told
    ensures run.seen[i + 1].conn.committed ==
            if Stuck(Seen(run.seen[i]), evs[i].request, evs[i].env) then run.seen[i].conn.committed
            else StepAt(Seen(run.seen[0]), evs, i).state.tables
  {
    hide Stuck, Next, Healthy, Counted;
    InSyncExactly(run, evs, i);
    assert Obeys(run.seen[i], evs[i].request, evs[i].env, run.resps[i], run.told[i], run.seen[i + 1]);
  }

  // Every counter stored is right before and after each request, the first one whose
  // ROLLBACK is refused included.
  lemma CountersStayRight(run: Served, evs: seq<Event>, i: nat)
    requires Serves(run, evs) && i < |evs| && Healthy(Seen(run.seen[0]), evs[..i])
    ensures Counted(run.seen[i].conn.committed) && Counted(run.seen[i + 1].conn.committed)
  {
    hide Stuck, Next, Healthy, Counted;
    ServedStep(run, evs, i);
    StepCounted(Seen(run.seen[i]), evs[i].request, evs[i].env);
  }

  // What is stored after it is counted right in either case, and within the channel limit.
  lemma StoredCounted(run: Served, evs: seq<Event>, n: nat)
    requires n <= |evs| && Serves(run, evs[..n]) && forall i :: 0 <= i < n ==> InSync(run.seen[i])
    ensures Counted(run.seen[n].conn.committed)
    ensures var c := run.seen[n].conn.committed.lastChanId;
            c == run.seen[0].conn.committed.lastChanId || c <= 5
  {
    hide Stuck, Next, Healthy, Counted, Run;
    if n > 0 {
      var was := evs[..n - 1];
      assert evs[..n][..n - 1] == was;
      InSyncExactly(run, evs[..n], n - 1);
      ServedStep(run, evs[..n], n - 1);
      CountersStayRight(run, evs[..n], n - 1);
      RunCounted(Seen(run.seen[0]), was);
      StepCounted(Seen(run.seen[n - 1]), evs[n - 1].request, evs[n - 1].env);
    }
  }

  // A new post is announced once to each destination in the join of those who subscribed
  // and have not unsubscribed since with the nodes where they enabled notifications and
  // that have not disconnected since, and to no other.
  lemma PostsReachTheJoin(run: Served, evs: seq<Event>, i: nat)
    requires Serves(run, evs) && i < |evs| && Healthy(Seen(run.seen[0]), evs[..i])
    requires evs[i].request.Publish? && run.resps[i].Done?
    ensures NoDup(run.told[i])
    ensures var s, was := Seen(run.seen[0]), evs[..i];
            forall d :: d in run.told[i] <==>
              StillEnabled(s, was, d) && StillSubscribed(s, was, Sub(d.uid, evs[i].request.chan))
  {
    hide Stuck, Next, Healthy, Counted, NoDup, StillEnabled, StillSubscribed, StepAt;
    var s := Seen(run.seen[0]);
    ServedStep(run, evs, i);
    forall d
      ensures d in run.told[i] <==>
              StillEnabled(s, evs[..i], d) && StillSubscribed(s, evs[..i], Sub(d.uid, evs[i].request.chan))
    {
      ToldByHistory(s, evs, i, d);
    }
  }

  // Every request, and who hears of it: posts, comments, likes and channel updates are
  // announced once to each such destination of the channel, a subscription to the nodes of
  // the owner, nothing else to anyone, and nothing at all if the request failed.
  lemma ToldExactly(run: Served, evs: seq<Event>, i: nat)
    requires Serves(run, evs) && i < |evs| && Healthy(Seen(run.seen[0]), evs[..i])
    ensures NoDup(run.told[i])
    ensures var s, was := Seen(run.seen[0]), evs[..i];
            forall d :: d in run.told[i] <==>
              && run.resps[i].Done? && StillEnabled(s, was, d)
              && match evs[i].request
                 case UpdateChan(_, c, _, _) => StillSubscribed(s, was, Sub(d.uid, c))
                 case Publish(_, c) => StillSubscribed(s, was, Sub(d.uid, c))
                 case Comment(_, key, _) => StillSubscribed(s, was, Sub(d.uid, key.chan))
                 case PostLike(l) => StillSubscribed(s, was, Sub(d.uid, l.subject.key.chan))
                 case Subscribe(_) => d.uid == 1
                 case _ => false
  {
    hide Stuck, Next, Healthy, Counted, NoDup, StillEnabled, StillSubscribed, StepAt;
    var s := Seen(run.seen[0]);
    ServedStep(run, evs, i);
    ServedCounted(run);
    forall d
      ensures d in StepAt(s, evs, i).told <==>
              && StepAt(s, evs, i).resp.Done? && StillEnabled(s, evs[..i], d)
              && match evs[i].request
                 case UpdateChan(_, c, _, _) => StillSubscribed(s, evs[..i], Sub(d.uid, c))
                 case Publish(_, c) => StillSubscribed(s, evs[..i], Sub(d.uid, c))
                 case Comment(_, key, _) => StillSubscribed(s, evs[..i], Sub(d.uid, key.chan))
                 case PostLike(l) => StillSubscribed(s, evs[..i], Sub(d.uid, l.subject.key.chan))
                 case Subscribe(_) => d.uid == 1
                 case _ => false
    {
      ToldByHistory(s, evs, i, d);
    }
  }

  lemma ServedCounted(run: Served)
    requires |run.seen| > 0 && InSync(run.seen[0])
    ensures Counted(Seen(run.seen[0]).tables)
  {
    hide Counted;
  }

  // A node that disconnected hears nothing until notifications are enabled there again.
  lemma NothingToTheDisconnected(run: Served, evs: seq<Event>, i: nat, j: nat, d: Dest)
    requires Serves(run, evs) && j < i < |evs| && Healthy(Seen(run.seen[0]), evs[..i])
    requires evs[j].request == Disconnect(d.node)
    requires forall k :: j < k < i ==> evs[k].request != EnableNotif(d)
    ensures d !in run.told[i]
  {
    hide Stuck, Next, Healthy, Counted, StepAt;
    ServedStep(run, evs, i);
    DisconnectedHearsNothing(Seen(run.seen[0]), evs, i, j, d);
  }

  // Two runs of the same requests, one after a restart: as long as they are healthy, what is
  // stored is the same and the restarted one tells no one new. The replies are the same but
  // for users who were active before the restart and whose subscriptions cannot be read. The
  // one gets stuck exactly where the other does.
  lemma RestartUnnoticed(run: Served, again: Served, evs: seq<Event>, i: nat)
    requires Serves(run, evs) && Serves(again, evs) && i < |evs|
    requires again.seen[0].conn == run.seen[0].conn && again.seen[0].enabled == {}
    ensures Healthy(Seen(again.seen[0]), evs[..i]) <==> Healthy(Seen(run.seen[0]), evs[..i])
    ensures Healthy(Seen(run.seen[0]), evs[..i]) ==>
              && (again.resps[i] == run.resps[i] <==> !ActiveBefore(Seen(run.seen[0]), evs, i))
              && again.seen[i].conn == run.seen[i].conn
              && forall d :: d in again.told[i] ==> d in run.told[i]
  {
    hide Stuck, Next, Healthy, Counted, StepAt, ActiveBefore;
    var s := Seen(run.seen[0]);
    RestartIsInvisible(s, evs);
    HealthyAfterRestart(s, evs[..i]);
    if Healthy(s, evs[..i]) {
      ServedStep(run, evs, i);
      ServedStep(again, evs, i);
      RestartIsInvisible(s, evs[..i]);
    }
  }

  lemma HealthyAfterRestart(s: State, evs: seq<Event>)
    ensures Healthy(Restarted(s), evs) <==> Healthy(s, evs)
  {
    hide Stuck, Run;
    forall i | 0 <= i < |evs|
      ensures Stuck(Run(Restarted(s), evs[..i]), evs[i].request, evs[i].env) <==>
              Stuck(Run(s, evs[..i]), evs[i].request, evs[i].env)
    {
      RestartIsInvisible(s, evs[..i]);
      StuckByTables(Run(s, evs[..i]), Run(Restarted(s), evs[..i]), evs[i].request, evs[i].env);
    }
  }

  lemma StuckByTables(s: State, s': State, r: Request, e: Env)
    requires s'.tables == s.tables
    ensures Stuck(s', r, e) <==> Stuck(s, r, e)
  {
    hide RollbackRefused;
  }

  const STUCK_TX: Faults := [NoFault, NoFault, Refused, NoFault, Refused]

  lemma SubscribeStuck(s: State, x: Sub)
    requires Counted(s.tables) && x.chan in s.tables.channels && x !in s.tables.subs
    ensures Stuck(s, Subscribe(x), Env(true, true, STUCK_TX))
    ensures Transaction(Conn(s.tables, s.tables, false), AddSubStmts(x), STUCK_TX).conn.inTx
  {
    hide PostsCounted, LikesCounted;
    RollbackCanBeRefused(s.tables, x);
    AllOrNothing(Conn(s.tables, s.tables, false), AddSubStmts(x), STUCK_TX);
  }

  // A refused ROLLBACK is possible, and what the specification says of the next request is
  // then not what the service does.
  lemma StuckIsPossible(s: State, x: Sub, c: nat)
    requires Counted(s.tables) && x.chan in s.tables.channels && x !in s.tables.subs && c in s.tables.channels
    ensures var e := Env(true, true, STUCK_TX);
            var left := Transaction(Conn(s.tables, s.tables, false), AddSubStmts(x), e.tx).conn;
            && Stuck(s, Subscribe(x), e) && !Healthy(s, [Event(Subscribe(x), e)])
            && Next(s, Publish(OWNER_USER_ID, c), Env(true, true, [])).resp.Done?
            && Transaction(left, AddPostStmts(PostKey(c, s.tables.channels[c].nextPostId)), []).rc == -1
  {
    hide Counted, Stuck, Next;
    var evs := [Event(Subscribe(x), Env(true, true, STUCK_TX))];
    NothingUnhealthy(s, evs[..0]);
    SubscribeStuck(s, x);
    DoneExactly(s, Publish(OWNER_USER_ID, c), Env(true, true, []));
    assert Stuck(Run(s, evs[..0]), evs[0].request, evs[0].env);
  }
}
