/** The channel requests of feeds.c on the database, the channel tables and the
    notification graph together: each request does exactly what the specification says. */
module Feeds {
  import opened Wrappers
  import opened Tables
  import opened Database
  import opened ChannelIndex
  import opened FeedsSpec
  import opened ServiceRuns

  // The rows of db_iter_chans: every stored channel once, in some order.
  ghost predicate ChanRows(rows: seq<nat>, t: Tables) {
    NoDup(rows) && forall c :: c in rows <==> c in t.channels
  }

  class Feeds {
    const db: Db
    const index: Index
    var nxtChanId: nat

    ghost predicate CacheOk(t: Tables)
      reads this`nxtChanId, index`ass, index`nds, index`chansByName, index`chansById, index`enabled, index`links
      reads index.ass.Values`aspcs, index.ass.Values`ndpass, index.nds.Values`ndpass
      reads index.chansById.Values`info, index.chansByName.Values`info, index.Lists()`items, index.Entries()`chan
    {
      index.Valid(t.subs) && index.Infos() == Infos(t) && nxtChanId == t.lastChanId + 1
    }

    // The service as runs see it.
    ghost function Observed(): Snapshot
      reads this`nxtChanId, db`conn, index`ass, index`nds, index`chansByName, index`chansById, index`enabled,
          index`links
      reads index.ass.Values`aspcs, index.ass.Values`ndpass, index.nds.Values`ndpass
      reads index.chansById.Values`info, index.chansByName.Values`info, index.Lists()`items, index.Entries()`chan
    {
      Snapshot(db.conn, index.enabled, CacheOk(db.conn.committed))
    }

    ghost predicate Valid()
      reads this`nxtChanId, db`conn, index`ass, index`nds, index`chansByName, index`chansById, index`enabled,
          index`links
      reads index.ass.Values`aspcs, index.ass.Values`ndpass, index.nds.Values`ndpass
      reads index.chansById.Values`info, index.chansByName.Values`info, index.Lists()`items, index.Entries()`chan
    {
      InSync(Observed())
    }

    ghost function Abs(): State
      reads db`conn, index`enabled
    {
      State(db.conn.committed, index.enabled)
    }

    // load_chans_from_db into empty tables, where reading stops with an error (or with the
    // end of the table) after n rows. Reading errors are not reported, so the service comes
    // up with what was stored exactly when there was none.
    constructor Load(stored: Tables, rows: seq<nat>, n: nat)
      requires Counted(stored) && ChanRows(rows, stored) && n <= |rows|
      ensures fresh(db) && fresh(index) && fresh(index.Parts())
      ensures Valid() <==> n == |rows|
      ensures n == |rows| ==> Abs() == State(stored, {})
      ensures n == |rows| ==> index.chansById.Keys == stored.channels.Keys && nxtChanId == stored.lastChanId + 1
      ensures n == |rows| ==> forall c :: c in stored.channels ==>
                var r := stored.channels[c];
                index.chansById[c].info == ChanInfo(c, r.name, r.text, r.subscribers, r.nextPostId)
    {
      db := new Db(stored);
      index := new Index(stored.subs);
      nxtChanId := CHAN_ID_START;
      new;
      hide *;
      LoadChans(rows, n, stored);
    }

    method LoadChans(rows: seq<nat>, n: nat, stored: Tables)
      requires Counted(stored) && ChanRows(rows, stored) && n <= |rows|
      requires db.conn == Conn(stored, stored, false) && index.Valid(stored.subs) && index.enabled == {}
      requires index.chansById == map[] && index.Parts() == {} && nxtChanId == CHAN_ID_START
      modifies this`nxtChanId, index`chansById, index`chansByName
      ensures Valid() <==> n == |rows|
      ensures Abs() == State(stored, {}) && fresh(index.Parts())
      ensures n == |rows| ==> index.chansById.Keys == stored.channels.Keys && nxtChanId == stored.lastChanId + 1
      ensures n == |rows| ==> forall c :: c in stored.channels ==>
                var r := stored.channels[c];
                index.chansById[c].info == ChanInfo(c, r.name, r.text, r.subscribers, r.nextPostId)
    {
      hide Counted, ChanRows, Loaded, Index.Valid, Index.Parts, Valid;
      NothingLoaded(rows, stored);
      LoadRows(rows, n, stored);
      Started(rows, n, stored);
      if n == |rows| {
        CachedInfos(stored);
      }
    }

    lemma CachedInfos(t: Tables)
      requires Valid() && db.conn.committed == t
      ensures index.chansById.Keys == t.channels.Keys && nxtChanId == t.lastChanId + 1
      ensures forall c :: c in t.channels ==>
                var r := t.channels[c];
                index.chansById[c].info == ChanInfo(c, r.name, r.text, r.subscribers, r.nextPostId)
    {
      hide Index.Valid, Counted;
      Cached(t);
    }

    lemma Started(rows: seq<nat>, n: nat, stored: Tables)
      requires Counted(stored) && ChanRows(rows, stored) && n <= |rows| && Loaded(rows[..n], stored)
      requires db.conn == Conn(stored, stored, false) && index.Valid(stored.subs) && index.enabled == {}
      ensures Valid() <==> n == |rows|
      ensures Abs() == State(stored, {})
    {
      hide Index.Valid, Index.Infos, Infos, ChanRows, Counted, Loaded;
      AllLoaded(rows, n, stored);
    }

    // The channels in rows have been loaded, and nothing else.
    ghost predicate Loaded(rows: seq<nat>, t: Tables)
      reads this`nxtChanId, index`chansById, index.chansById.Values`info
    {
      && (forall c :: c in rows ==> c in t.channels)
      && index.Infos() == (map c | c in rows :: Info(c, t.channels[c]))
      && (forall c :: c in rows ==> c < nxtChanId)
      && (nxtChanId == 1 || nxtChanId - 1 in rows)
    }

    method LoadRow(rows: seq<nat>, i: nat, stored: Tables)
      requires Counted(stored) && ChanRows(rows, stored) && i < |rows|
      requires index.Valid(stored.subs) && Loaded(rows[..i], stored)
      modifies this`nxtChanId, index`chansById, index`chansByName
      ensures index.Valid(stored.subs) && Loaded(rows[..i + 1], stored)
      ensures index.OnlyNew()
    {
      hide Index.Valid, Index.Infos, Counted, ChanRows, Loaded, Index.Parts;
      Unloaded(rows, i, stored);
      var c: nat := rows[i];
      index.ChanPut(Info(c, stored.channels[c]), stored.subs);
      if c >= nxtChanId {
        nxtChanId := c + 1;
      }
      assert rows[..i + 1] == rows[..i] + [c];
      LoadedMore(rows[..i], c, stored);
    }

    // The callback for the first n rows.
    method LoadRows(rows: seq<nat>, n: nat, stored: Tables)
      requires Counted(stored) && ChanRows(rows, stored) && n <= |rows|
      requires index.Valid(stored.subs) && Loaded(rows[..0], stored)
      modifies this`nxtChanId, index`chansById, index`chansByName
      ensures index.Valid(stored.subs) && Loaded(rows[..n], stored)
      ensures index.OnlyNew()
    {
      hide Index.Valid, Counted, ChanRows, Loaded, Index.Parts;
      var i := 0;
      while i < n
        invariant 0 <= i <= n
        invariant index.Valid(stored.subs) && Loaded(rows[..i], stored)
        invariant index.OnlyNew()
      {
        LoadRow(rows, i, stored);
        i := i + 1;
      }
    }

    twostate lemma LoadedMore(new rows: seq<nat>, new c: nat, new t: Tables)
      requires old(Loaded(rows, t)) && c in t.channels
      requires index.Infos() == old(index.Infos())[c := Info(c, t.channels[c])]
      requires nxtChanId == if c >= old(nxtChanId) then c + 1 else old(nxtChanId)
      ensures Loaded(rows + [c], t)
    {
      hide Index.Infos;
      assert forall d :: d in rows + [c] <==> d in rows || d == c;
    }

    lemma NothingLoaded(rows: seq<nat>, t: Tables)
      requires index.chansById == map[] && nxtChanId == CHAN_ID_START
      ensures Loaded(rows[..0], t)
    {
    }

    lemma Unloaded(rows: seq<nat>, i: nat, t: Tables)
      requires Counted(t) && ChanRows(rows, t) && i < |rows| && Loaded(rows[..i], t) && index.Valid(t.subs)
      ensures rows[i] in t.channels && rows[i] !in index.chansById
      ensures t.channels[rows[i]].name !in index.chansByName
    {
      hide PostsCounted, LikesCounted, Index.EntriesOk, Index.LinksOk;
      var c := rows[i];
      var infos := index.Infos();
      assert c in rows && c !in rows[..i];
      assert c !in infos;
      var name := t.channels[c].name;
      forall other | other in index.chansByName
        ensures other != name
      {
        var d := index.chansByName[other].info.chanId;
        assert d in infos && infos[d].name == other;
        assert d in rows[..i] && t.channels[d].name == other;
      }
    }

    lemma AllLoaded(rows: seq<nat>, n: nat, t: Tables)
      requires Counted(t) && ChanRows(rows, t) && n <= |rows| && Loaded(rows[..n], t)
      ensures n == |rows| <==> index.Infos() == Infos(t) && nxtChanId == t.lastChanId + 1
    {
      hide PostsCounted, LikesCounted;
      if n < |rows| {
        assert rows[n] in rows && rows[n] in t.channels && rows[n] !in rows[..n];
        assert rows[n] !in index.Infos() && rows[n] in Infos(t);
      } else {
        assert rows[..n] == rows;
        if t.lastChanId > 0 {
          assert t.lastChanId in rows;
        }
      }
    }

    // What a request did is what the specification says, unless it left a transaction open.
    twostate predicate Follows(r: Request, e: Env, resp: Resp, told: seq<Dest>)
      reads *
    {
      Obeys(old(Observed()), r, e, resp, told, Observed())
    }

    twostate lemma TurnedDown(new r: Request, new e: Env, new code: ErrorCode)
      requires Valid() && Abs() == old(Abs()) && Refusal(old(Abs()), r, e) == Some(code)
      ensures Follows(r, e, Failed(code), [])
    {
    }

    // A request's transaction has succeeded: what is stored now, and how the cache must follow.
    ghost predicate Took(s: State, r: Request, e: Env, c: Conn) {
      && !Stuck(s, r, e) && Next(s, r, e).resp.Done?
      && c == Conn(Next(s, r, e).state.tables, Next(s, r, e).state.tables, false) && Counted(c.committed)
      && Followed(s.tables, c.committed, r)
    }

    ghost predicate Followed(t: Tables, t': Tables, r: Request) {
      && Infos(t') == InfosAfter(Infos(t), t.lastChanId + 1, r)
      && t'.subs == SubsAfter(t.subs, r)
      && t'.lastChanId == t.lastChanId + (if r.CreateChan? then 1 else 0)
    }

    lemma TxDone(s: State, r: Request, e: Env, c: Conn)
      requires Counted(s.tables) && Refusal(s, r, e).None? && InTransaction(r)
      requires r.Publish? ==> r.chan in s.tables.channels
      requires Outcome(c, 0) == Transaction(Conn(s.tables, s.tables, false), Stmts(s.tables, r), e.tx)
      ensures Took(s, r, e, c)
    {
      hide Refusal, Counted, Transaction, RollbackRefused, Reported, Told;
      AllOrNothing(Conn(s.tables, s.tables, false), Stmts(s.tables, r), e.tx);
      StepCounted(s, r, e);
      StepFollowed(s, r, e);
    }

    // The transaction of a request has run, the cache has not followed yet.
    twostate predicate Ended(new r: Request, new e: Env, new rc: int)
      reads *
    {
      && CacheOk(old(db.conn.committed)) && index.enabled == old(index.enabled)
      && (rc < 0 ==> Follows(r, e, Failed(InternalError), []))
      && (rc >= 0 ==> Took(old(Abs()), r, e, db.conn))
    }

    twostate lemma TxEnded(new r: Request, new e: Env, new rc: int)
      requires old(Valid()) && Refusal(old(Abs()), r, e).None? && InTransaction(r)
      requires r.Publish? ==> r.chan in old(db.conn.committed.channels)
      requires Outcome(db.conn, rc) == Transaction(old(db.conn), Stmts(old(db.conn.committed), r), e.tx)
      requires CacheOk(old(db.conn.committed)) && index.enabled == old(index.enabled)
      ensures Ended(r, e, rc)
    {
      hide Refusal, CacheOk, Counted, Transaction, RollbackRefused, Took;
      AllOrNothing(old(db.conn), Stmts(old(db.conn.committed), r), e.tx);
      if rc >= 0 {
        TxDone(old(Abs()), r, e, db.conn);
      }
    }

    // Once the cache has followed, the request is done.
    lemma Concluded(o: Snapshot, r: Request, e: Env, resp: Resp, told: seq<Dest>)
      requires Took(Seen(o), r, e, db.conn) && CacheOk(db.conn.committed)
      requires index.enabled == EnabledAfter(o.enabled, r)
      requires resp == Done(Reported(o.conn.committed, db.conn.committed, r))
      requires NoDup(told) && forall d :: d in told <==> d in Told(Abs(), r)
      ensures Obeys(o, r, e, resp, told, Observed())
    {
      hide CacheOk, Counted, Stuck, Stored, Refusal, Told, Reported, NoDup, Followed;
    }

    twostate lemma Finished(new r: Request, new e: Env, new resp: Resp, new told: seq<Dest>)
      requires Took(old(Abs()), r, e, db.conn) && CacheOk(db.conn.committed)
      requires index.enabled == EnabledAfter(old(index.enabled), r)
      requires resp == Done(Reported(old(db.conn.committed), db.conn.committed, r))
      requires NoDup(told) && forall d :: d in told <==> d in Told(Abs(), r)
      ensures Follows(r, e, resp, told)
    {
      hide CacheOk, Took, Told, Reported, NoDup, Obeys;
      Concluded(old(Observed()), r, e, resp, told);
    }

    // Channels in the tables of the index are the stored ones.
    lemma Cached(t: Tables)
      requires CacheOk(t)
      ensures index.chansById.Keys == t.channels.Keys
      ensures forall c :: c in t.channels ==> index.chansById[c].info == Info(c, t.channels[c])
      ensures forall name :: name in index.chansByName <==> exists c :: c in t.channels && t.channels[c].name == name
    {
      hide Index.EntriesOk, Index.LinksOk;
      var infos := index.Infos();
      assert forall c :: c in index.chansById <==> c in infos;
      assert forall c :: c in index.chansById ==> infos[c] == index.chansById[c].info;
      forall name
        ensures name in index.chansByName <==> exists c :: c in t.channels && t.channels[c].name == name
      {
        if name in index.chansByName {
          var c := index.chansByName[name].info.chanId;
          assert c in infos && infos[c].name == name;
        }
        if c :| c in t.channels && t.channels[c].name == name {
          assert c in infos && infos[c].name == name;
        }
      }
    }

    method TellUser(uid: nat, ghost t: Tables) returns (told: seq<Dest>)
      requires CacheOk(t)
      ensures CacheOk(t) && NoDup(told) && forall d :: d in told <==> d in index.enabled && d.uid == uid
      ensures index.Parts() == old(index.Parts())
    {
      hide Index.Valid, NoDup, Index.Parts;
      told := index.NotifyUser(uid, t.subs);
      assert index.Lists() == old(index.Lists()) && index.Entries() == old(index.Entries());
    }

    method TellChannel(c: nat, ghost t: Tables) returns (told: seq<Dest>)
      requires CacheOk(t) && c in t.channels
      ensures CacheOk(t) && NoDup(told) && forall d :: d in told <==> d in index.enabled && Sub(d.uid, c) in t.subs
      ensures index.Parts() == old(index.Parts())
    {
      hide Index.Valid, NoDup, Index.Parts;
      Cached(t);
      told := index.FanOut(c, t.subs);
      assert index.Lists() == old(index.Lists()) && index.Entries() == old(index.Entries());
    }

    method StoreSub(x: Sub, e: Env) returns (rc: int)
      requires Valid() && Refusal(Abs(), Subscribe(x), e).None?
      modifies db`conn
      ensures Ended(Subscribe(x), e, rc)
      ensures index.Parts() == old(index.Parts())
    {
      hide CacheOk, Counted, Transaction, Ended, Index.Parts;
      rc := db.AddSub(x, e.tx);
      assert index.Lists() == old(index.Lists()) && index.Entries() == old(index.Entries());
      TxEnded(Subscribe(x), e, rc);
    }

    method FollowSub(x: Sub, ghost t: Tables, ghost t': Tables) returns (subs: int)
      requires CacheOk(t) && Followed(t, t', Subscribe(x)) && x.chan in t.channels && x !in t.subs
      modifies index.ChanAt(x.chan)`info, index.ListAt(x.chan)`items, index.SuberAt(x.uid)`aspcs
      ensures CacheOk(t') && index.enabled == old(index.enabled)
      ensures subs == Reported(t, t', Subscribe(x))
      ensures index.OnlyNew()
    {
      hide Index.Valid, Index.Infos, Infos, Index.Parts;
      Cached(t);
      index.AddSub(x.uid, x.chan, t.subs);
      InfosOf(t, x.chan);
      Cached(t');
      subs := index.chansById[x.chan].info.subs;
    }

    static lemma InfosOf(t: Tables, c: nat)
      requires c in t.channels
      ensures c in Infos(t) && Infos(t)[c] == Info(c, t.channels[c])
    {
    }

    // The row is stored: the cache follows, and the owner is told.
    method AcceptSub(x: Sub, e: Env, ghost o: Snapshot) returns (resp: Resp, told: seq<Dest>)
      requires CacheOk(o.conn.committed) && index.enabled == o.enabled && Took(Seen(o), Subscribe(x), e, db.conn)
      requires x.chan in o.conn.committed.channels && x !in o.conn.committed.subs
      modifies index.ChanAt(x.chan)`info, index.ListAt(x.chan)`items, index.SuberAt(x.uid)`aspcs
      ensures Obeys(o, Subscribe(x), e, resp, told, Observed())
      ensures index.OnlyNew()
    {
      hide CacheOk, Counted, Stuck, Next, Followed, NoDup, Index.Parts, Obeys;
      var subs := FollowSub(x, o.conn.committed, db.conn.committed);
      resp := Done(subs);
      told := TellUser(OWNER_USER_ID, db.conn.committed);
      Concluded(o, Subscribe(x), e, resp, told);
    }

    // hdl_sub_chan_req
    method HandleSubscribe(x: Sub, e: Env) returns (resp: Resp, told: seq<Dest>)
      requires Valid()
      modifies db`conn, index.chansById.Values`info, index.Lists()`items, index.ass.Values`aspcs
      ensures Follows(Subscribe(x), e, resp, told)
      ensures index.OnlyNew()
    {
      hide CacheOk, Counted, Index.Valid, Index.Parts, Obeys;
      ghost var r := Subscribe(x);
      ghost var t, o := db.conn.committed, Observed();
      Cached(t);
      told := [];
      if x.chan !in index.chansById {
        resp := Failed(NotExist);
        TurnedDown(r, e, NotExist);
      } else if !e.query || x in db.conn.working.subs {
        resp := Failed(WrongState);
        TurnedDown(r, e, WrongState);
      } else {
        var rc := StoreSub(x, e);
        if rc < 0 {
          resp := Failed(InternalError);
        } else {
          resp, told := AcceptSub(x, e, o);
        }
      }
    }

    method StoreUnsub(x: Sub, e: Env) returns (rc: int)
      requires Valid() && Refusal(Abs(), Unsubscribe(x), e).None?
      modifies db`conn
      ensures Ended(Unsubscribe(x), e, rc)
      ensures index.Parts() == old(index.Parts())
    {
      hide CacheOk, Counted, Transaction, Ended, Index.Parts;
      rc := db.Unsub(x, e.tx);
      assert index.Lists() == old(index.Lists()) && index.Entries() == old(index.Entries());
      TxEnded(Unsubscribe(x), e, rc);
    }

    method FollowUnsub(x: Sub, ghost t: Tables, ghost t': Tables)
      requires CacheOk(t) && Followed(t, t', Unsubscribe(x)) && x.chan in t.channels && x in t.subs
      modifies index.ChanAt(x.chan)`info, index.ListAt(x.chan)`items, index.SuberAt(x.uid)`aspcs
      ensures CacheOk(t') && index.enabled == old(index.enabled)
      ensures index.Parts() <= old(index.Parts())
    {
      hide Index.Valid, Index.Infos, Infos, Index.Parts;
      Cached(t);
      index.RemoveSub(x.uid, x.chan, t.subs);
      InfosOf(t, x.chan);
    }

    // hdl_unsub_chan_req
    method HandleUnsubscribe(x: Sub, e: Env) returns (resp: Resp)
      requires Valid()
      modifies db`conn, index.chansById.Values`info, index.Lists()`items, index.ass.Values`aspcs
      ensures Follows(Unsubscribe(x), e, resp, [])
      ensures index.OnlyNew()
    {
      hide CacheOk, Counted, Index.Valid, Follows, Index.Parts;
      ghost var r := Unsubscribe(x);
      ghost var t := db.conn.committed;
      Cached(t);
      if x.chan !in index.chansById {
        resp := Failed(NotExist);
        TurnedDown(r, e, NotExist);
      } else if !e.query || x !in db.conn.working.subs {
        resp := Failed(WrongState);
        TurnedDown(r, e, WrongState);
      } else {
        var rc := StoreUnsub(x, e);
        if rc < 0 {
          resp := Failed(InternalError);
        } else {
          FollowUnsub(x, t, db.conn.committed);
          resp := Done(0);
          Finished(r, e, resp, []);
        }
      }
    }

    method StorePost(uid: nat, key: PostKey, e: Env) returns (rc: int)
      requires Valid() && Refusal(Abs(), Publish(uid, key.chan), e).None?
      requires key.chan in db.conn.committed.channels && key.post == db.conn.committed.channels[key.chan].nextPostId
      modifies db`conn
      ensures Ended(Publish(uid, key.chan), e, rc)
      ensures index.Parts() == old(index.Parts())
    {
      hide CacheOk, Counted, Transaction, Ended, Index.Parts;
      rc := db.AddPost(key, e.tx);
      assert index.Lists() == old(index.Lists()) && index.Entries() == old(index.Entries());
      TxEnded(Publish(uid, key.chan), e, rc);
    }

    method FollowPost(uid: nat, c: nat, ghost t: Tables, ghost t': Tables)
      requires CacheOk(t) && Followed(t, t', Publish(uid, c)) && c in t.channels
      modifies index.ChanAt(c)`info
      ensures CacheOk(t') && c in t'.channels && index.enabled == old(index.enabled)
      ensures index.Parts() == old(index.Parts())
    {
      hide Index.Valid, Index.Infos, Infos, Index.Parts;
      Cached(t);
      index.BumpNextPostId(c, t.subs);
      InfosOf(t, c);
      Cached(t');
    }

    // hdl_pub_post_req
    method HandlePublish(uid: nat, c: nat, e: Env) returns (resp: Resp, told: seq<Dest>)
      requires Valid()
      modifies db`conn, index.chansById.Values`info
      ensures Follows(Publish(uid, c), e, resp, told)
      ensures index.OnlyNew()
    {
      hide CacheOk, Counted, Index.Valid, Follows, Index.Parts;
      ghost var r := Publish(uid, c);
      ghost var t := db.conn.committed;
      Cached(t);
      told := [];
      if uid != OWNER_USER_ID {
        resp := Failed(NotAuthorized);
        TurnedDown(r, e, NotAuthorized);
      } else if c !in index.chansById {
        resp := Failed(NotExist);
        TurnedDown(r, e, NotExist);
      } else {
        var key := PostKey(c, index.chansById[c].info.nextPostId);
        var rc := StorePost(uid, key, e);
        if rc < 0 {
          resp := Failed(InternalError);
        } else {
          FollowPost(uid, c, t, db.conn.committed);
          resp := Done(key.post);
          told := TellChannel(c, db.conn.committed);
          Finished(r, e, resp, told);
        }
      }
    }

    // Comments and likes do not concern the cache.
    lemma CacheSame(t: Tables, t': Tables, r: Request)
      requires CacheOk(t) && Followed(t, t', r)
               && (r.Comment? || r.PostLike? || r.PostUnlike? || r.EnableNotif? || r.Disconnect?)
      ensures CacheOk(t') && t'.channels.Keys == t.channels.Keys
    {
      assert forall c :: c in t.channels <==> c in Infos(t);
      assert forall c :: c in t'.channels <==> c in Infos(t');
    }

    method StoreCmt(uid: nat, key: PostKey, replyTo: nat, e: Env) returns (rc: int, id: int)
      requires Valid() && Refusal(Abs(), Comment(uid, key, replyTo), e).None?
      modifies db`conn
      ensures Ended(Comment(uid, key, replyTo), e, rc)
      ensures rc >= 0 ==> id == Reported(old(db.conn.committed), db.conn.committed, Comment(uid, key, replyTo))
      ensures index.Parts() == old(index.Parts())
    {
      hide CacheOk, Counted, Ended, RunStmts, Index.Parts;
      rc, id := db.AddCmt(key, uid, e.tx);
      assert index.Lists() == old(index.Lists()) && index.Entries() == old(index.Entries());
      TxEnded(Comment(uid, key, replyTo), e, rc);
      AllOrNothing(old(db.conn), AddCmtStmts(key, uid), e.tx);
    }

    // hdl_post_cmt_req
    method HandleComment(uid: nat, key: PostKey, replyTo: nat, e: Env) returns (resp: Resp, told: seq<Dest>)
      requires Valid()
      modifies db`conn
      ensures Follows(Comment(uid, key, replyTo), e, resp, told)
      ensures index.OnlyNew()
    {
      hide CacheOk, Counted, Index.Valid, Follows, Index.Parts;
      ghost var r := Comment(uid, key, replyTo);
      ghost var t := db.conn.committed;
      Cached(t);
      told := [];
      if key.chan !in index.chansById || key.post >= index.chansById[key.chan].info.nextPostId {
        resp := Failed(NotExist);
        TurnedDown(r, e, NotExist);
      } else if replyTo != 0 && (!e.query || Subject(key, replyTo) !in db.conn.working.cmts) {
        resp := Failed(NotExist);
        TurnedDown(r, e, NotExist);
      } else {
        var rc, id := StoreCmt(uid, key, replyTo, e);
        if rc < 0 {
          resp := Failed(InternalError);
        } else {
          CacheSame(t, db.conn.committed, r);
          resp := Done(id);
          told := TellChannel(key.chan, db.conn.committed);
          Finished(r, e, resp, told);
        }
      }
    }

    method StoreLike(l: Like, e: Env) returns (rc: int, likes: int)
      requires Valid() && Refusal(Abs(), PostLike(l), e).None?
      modifies db`conn
      ensures Ended(PostLike(l), e, rc)
      ensures rc >= 0 ==> likes == Reported(old(db.conn.committed), db.conn.committed, PostLike(l))
      ensures index.Parts() == old(index.Parts())
    {
      hide CacheOk, Counted, Ended, RunStmts, Index.Parts;
      rc, likes := db.AddLike(l, e.tx);
      assert index.Lists() == old(index.Lists()) && index.Entries() == old(index.Entries());
      TxEnded(PostLike(l), e, rc);
      AllOrNothing(old(db.conn), AddLikeStmts(l), e.tx);
    }

    // hdl_post_like_req; the total goes into the notifications
    method HandleLike(l: Like, e: Env) returns (resp: Resp, told: seq<Dest>)
      requires Valid()
      modifies db`conn
      ensures Follows(PostLike(l), e, resp, told)
      ensures index.OnlyNew()
    {
      hide CacheOk, Counted, Index.Valid, Follows, Index.Parts;
      ghost var r := PostLike(l);
      ghost var t := db.conn.committed;
      Cached(t);
      told := [];
      var key := l.subject.key;
      if key.chan !in index.chansById || key.post >= index.chansById[key.chan].info.nextPostId {
        resp := Failed(NotExist);
        TurnedDown(r, e, NotExist);
      } else if l.subject.cmt != 0 && (!e.query || l.subject !in db.conn.working.cmts) {
        resp := Failed(NotExist);
        TurnedDown(r, e, NotExist);
      } else if !e.query2 || l in db.conn.working.likes {
        resp := Failed(WrongState);
        TurnedDown(r, e, WrongState);
      } else {
        var rc, likes := StoreLike(l, e);
        if rc < 0 {
          resp := Failed(InternalError);
        } else {
          CacheSame(t, db.conn.committed, r);
          resp := Done(likes);
          told := TellChannel(key.chan, db.conn.committed);
          Finished(r, e, resp, told);
        }
      }
    }

    method StoreUnlike(l: Like, e: Env) returns (rc: int)
      requires Valid() && Refusal(Abs(), PostUnlike(l), e).None?
      modifies db`conn
      ensures Ended(PostUnlike(l), e, rc)
      ensures index.Parts() == old(index.Parts())
    {
      hide CacheOk, Counted, Transaction, Ended, Index.Parts;
      rc := db.RmLike(l, e.tx);
      assert index.Lists() == old(index.Lists()) && index.Entries() == old(index.Entries());
      TxEnded(PostUnlike(l), e, rc);
    }

    // hdl_post_unlike_req
    method HandleUnlike(l: Like, e: Env) returns (resp: Resp)
      requires Valid()
      modifies db`conn
      ensures Follows(PostUnlike(l), e, resp, [])
      ensures index.OnlyNew()
    {
      hide CacheOk, Counted, Index.Valid, Follows, Index.Parts;
      ghost var r := PostUnlike(l);
      ghost var t := db.conn.committed;
      Cached(t);
      if l.subject.key.chan !in index.chansById {
        resp := Failed(NotExist);
        TurnedDown(r, e, NotExist);
      } else if !e.query || l !in db.conn.working.likes {
        resp := Failed(WrongState);
        TurnedDown(r, e, WrongState);
      } else {
        var rc := StoreUnlike(l, e);
        if rc < 0 {
          resp := Failed(InternalError);
        } else {
          CacheSame(t, db.conn.committed, r);
          resp := Done(0);
          Finished(r, e, resp, []);
        }
      }
    }

    // A single statement: nothing to roll back.
    twostate lemma SingleEnded(new r: Request, new e: Env, new rc: int)
      requires old(Valid()) && Refusal(old(Abs()), r, e).None? && (r.CreateChan? || r.UpdateChan?)
      requires var stmt := if r.CreateChan? then InsertChan(r.name, r.text)
               else Stmt.UpdateChan(r.chan, r.name, r.text);
               var q := Execute(old(db.conn), stmt, FaultAt(e.tx, 0));
               db.conn == q.conn && rc == if q.ok then 0 else -1
      requires CacheOk(old(db.conn.committed)) && index.enabled == old(index.enabled)
      ensures Ended(r, e, rc)
    {
      hide Refusal, CacheOk, Counted, Exec, Told, Reported;
      var s := old(Abs());
      if rc >= 0 {
        StepCounted(s, r, e);
        StepFollowed(s, r, e);
      }
    }

    method StoreChan(uid: nat, name: string, text: string, e: Env) returns (rc: int)
      requires Valid() && Refusal(Abs(), CreateChan(uid, name, text), e).None?
      modifies db`conn
      ensures Ended(CreateChan(uid, name, text), e, rc)
      ensures index.Parts() == old(index.Parts())
    {
      hide CacheOk, Counted, Refusal, Ended, Execute, Index.Parts;
      rc := db.CreateChan(name, text, FaultAt(e.tx, 0));
      assert index.Lists() == old(index.Lists()) && index.Entries() == old(index.Entries());
      SingleEnded(CreateChan(uid, name, text), e, rc);
    }

    method FollowChan(uid: nat, name: string, text: string, ghost t: Tables, ghost t': Tables) returns (id: nat)
      requires CacheOk(t) && Followed(t, t', CreateChan(uid, name, text))
      requires t.lastChanId + 1 !in t.channels && forall c :: c in t.channels ==> t.channels[c].name != name
      modifies this`nxtChanId, index`chansById, index`chansByName
      ensures CacheOk(t') && index.enabled == old(index.enabled)
      ensures id == t.lastChanId + 1
      ensures index.OnlyNew()
    {
      hide Index.Valid, Index.Infos, Infos, Index.Parts;
      Cached(t);
      id := nxtChanId;
      index.ChanPut(ChanInfo(id, name, text, 0, 1), t.subs);
      nxtChanId := nxtChanId + 1;
    }

    // The row is stored: the channel enters the cache.
    method AcceptChan(uid: nat, name: string, text: string, e: Env, ghost o: Snapshot) returns (resp: Resp)
      requires CacheOk(o.conn.committed) && index.enabled == o.enabled && Counted(o.conn.committed)
      requires Took(Seen(o), CreateChan(uid, name, text), e, db.conn)
      requires forall c :: c in o.conn.committed.channels ==> o.conn.committed.channels[c].name != name
      modifies this`nxtChanId, index`chansById, index`chansByName
      ensures Obeys(o, CreateChan(uid, name, text), e, resp, [], Observed())
      ensures index.OnlyNew()
    {
      hide CacheOk, Counted, Stuck, Next, Followed, Index.Parts, Obeys;
      NextIsNew(o.conn.committed);
      var id := FollowChan(uid, name, text, o.conn.committed, db.conn.committed);
      resp := Done(id);
      Concluded(o, CreateChan(uid, name, text), e, resp, []);
    }

    // hdl_create_chan_req
    method HandleCreateChan(uid: nat, name: string, text: string, e: Env) returns (resp: Resp)
      requires Valid()
      modifies db`conn, this`nxtChanId, index`chansById, index`chansByName
      ensures Follows(CreateChan(uid, name, text), e, resp, [])
      ensures index.OnlyNew()
    {
      hide CacheOk, Counted, Index.Valid, Index.Parts, Obeys;
      ghost var r := CreateChan(uid, name, text);
      ghost var t, o := db.conn.committed, Observed();
      Cached(t);
      if !e.query {
        resp := Failed(DbError);
        TurnedDown(r, e, DbError);
      } else if |db.conn.working.channels| >= MAX_FEEDS {
        resp := Failed(MaxFeedsLimit);
        TurnedDown(r, e, MaxFeedsLimit);
      } else if uid != OWNER_USER_ID {
        resp := Failed(NotAuthorized);
        TurnedDown(r, e, NotAuthorized);
      } else if name in index.chansByName {
        resp := Failed(AlreadyExists);
        TurnedDown(r, e, AlreadyExists);
      } else {
        var rc := StoreChan(uid, name, text, e);
        if rc < 0 {
          resp := Failed(InternalError);
        } else {
          resp := AcceptChan(uid, name, text, e, o);
        }
      }
    }

    static lemma NextIsNew(t: Tables)
      requires Counted(t)
      ensures t.lastChanId + 1 !in t.channels
    {
    }

    method StoreUpd(uid: nat, c: nat, name: string, text: string, e: Env) returns (rc: int)
      requires Valid() && Refusal(Abs(), Request.UpdateChan(uid, c, name, text), e).None?
      modifies db`conn
      ensures Ended(Request.UpdateChan(uid, c, name, text), e, rc)
      ensures index.Parts() == old(index.Parts())
    {
      hide CacheOk, Counted, Refusal, Ended, Execute, Index.Parts;
      rc := db.UpdChan(c, name, text, FaultAt(e.tx, 0));
      assert index.Lists() == old(index.Lists()) && index.Entries() == old(index.Entries());
      SingleEnded(Request.UpdateChan(uid, c, name, text), e, rc);
    }

    method FollowUpd(uid: nat, c: nat, name: string, text: string, ghost t: Tables, ghost t': Tables)
      requires CacheOk(t) && Followed(t, t', Request.UpdateChan(uid, c, name, text)) && c in t.channels
      requires t.channels[c].name == name || forall d :: d in t.channels ==> t.channels[d].name != name
      modifies index`chansById, index`chansByName, index.Entries()`chan
      ensures CacheOk(t') && c in t'.channels && index.enabled == old(index.enabled)
      ensures index.OnlyNew()
    {
      hide Index.Valid, Index.Infos, Infos, Index.Parts;
      Cached(t);
      index.ChanSub(index.chansById[c].info.(name := name, text := text), t.subs);
      InfosOf(t, c);
      InfosKeys(t, t');
    }

    static lemma InfosKeys(t: Tables, t': Tables)
      requires Infos(t').Keys == Infos(t).Keys
      ensures t'.channels.Keys == t.channels.Keys
    {
      assert forall c :: c in t.channels <==> c in Infos(t);
      assert forall c :: c in t'.channels <==> c in Infos(t');
    }

    // The row is stored: the channel object is replaced, and the audience told.
    method AcceptUpd(uid: nat, c: nat, name: string, text: string, e: Env, ghost o: Snapshot)
      returns (resp: Resp, told: seq<Dest>)
      requires CacheOk(o.conn.committed) && index.enabled == o.enabled && c in o.conn.committed.channels
      requires Took(Seen(o), Request.UpdateChan(uid, c, name, text), e, db.conn)
      requires o.conn.committed.channels[c].name == name ||
               forall d :: d in o.conn.committed.channels ==> o.conn.committed.channels[d].name != name
      modifies index`chansById, index`chansByName, index.Entries()`chan
      ensures Obeys(o, Request.UpdateChan(uid, c, name, text), e, resp, told, Observed())
      ensures index.OnlyNew()
    {
      hide CacheOk, Counted, Stuck, Next, Followed, NoDup, Index.Parts, Obeys;
      FollowUpd(uid, c, name, text, o.conn.committed, db.conn.committed);
      resp := Done(0);
      told := TellChannel(c, db.conn.committed);
      Concluded(o, Request.UpdateChan(uid, c, name, text), e, resp, told);
    }

    // hdl_upd_chan_req
    method HandleUpdateChan(uid: nat, c: nat, name: string, text: string, e: Env) returns (resp: Resp, told: seq<Dest>)
      requires Valid()
      modifies db`conn, index`chansById, index`chansByName, index.Entries()`chan
      ensures Follows(Request.UpdateChan(uid, c, name, text), e, resp, told)
      ensures index.OnlyNew()
    {
      hide CacheOk, Counted, Index.Valid, Index.Parts, Obeys;
      ghost var r := Request.UpdateChan(uid, c, name, text);
      ghost var t, o := db.conn.committed, Observed();
      Cached(t);
      told := [];
      if uid != OWNER_USER_ID {
        resp := Failed(NotAuthorized);
        TurnedDown(r, e, NotAuthorized);
      } else if c !in index.chansById {
        resp := Failed(NotExist);
        TurnedDown(r, e, NotExist);
      } else if index.chansById[c].info.name != name && name in index.chansByName {
        resp := Failed(AlreadyExists);
        TurnedDown(r, e, AlreadyExists);
      } else {
        var rc := StoreUpd(uid, c, name, text, e);
        if rc < 0 {
          resp := Failed(InternalError);
        } else {
          resp, told := AcceptUpd(uid, c, name, text, e, o);
        }
      }
    }

    // A user is in the table of active subscribers exactly when notified somewhere.
    lemma Active(uid: nat, t: Tables)
      requires CacheOk(t)
      ensures uid in index.ass <==> UserDests(Abs(), uid) != {}
      ensures forall d :: d in index.enabled <==> d.uid in index.ass && d.node in index.ass[d.uid].ndpass
    {
      hide Index.ChansOk, Index.EntriesOk, Index.LinksDown, Index.LinksUp;
      if uid in index.ass {
        var n :| n in index.ass[uid].ndpass;
        assert Dest(uid, n) in UserDests(Abs(), uid);
      }
    }

    // Requests that only concern who is notified store nothing.
    twostate lemma NothingStored(new r: Request, new e: Env)
      requires old(Valid()) && db.conn == old(db.conn) && Refusal(old(Abs()), r, e).None?
               && (r.EnableNotif? || r.Disconnect?)
      ensures Took(old(Abs()), r, e, db.conn)
    {
      hide CacheOk, Counted, Refusal;
    }

    method EnableFor(d: Dest, rows: seq<nat>, ghost t: Tables)
      requires Counted(t) && CacheOk(t) && d !in index.enabled
      requires NoDup(rows) && forall c :: c in rows <==> Sub(d.uid, c) in t.subs
      modifies index`ass, index`nds, index`enabled, index`links
      modifies index.ass.Values`ndpass, index.nds.Values`ndpass, index.Lists()`items
      ensures CacheOk(t) && index.enabled == old(index.enabled) + {d}
      ensures index.OnlyNew()
    {
      hide Index.Valid, Index.Infos, Infos, PostsCounted, LikesCounted, NoDup, Index.Parts;
      Cached(t);
      index.Enable(d, rows, t.subs);
    }

    // hdl_enbl_notif_req; rows are what db_iter_sub_chans reads
    method HandleEnableNotif(d: Dest, rows: seq<nat>, e: Env) returns (resp: Resp)
      requires Valid()
      requires NoDup(rows) && forall c :: c in rows <==> Sub(d.uid, c) in db.conn.committed.subs
      modifies index`ass, index`nds, index`enabled, index`links
      modifies index.ass.Values`ndpass, index.nds.Values`ndpass, index.Lists()`items
      ensures Follows(EnableNotif(d), e, resp, [])
      ensures index.OnlyNew()
    {
      hide CacheOk, Counted, Index.Valid, Follows, Index.Parts;
      ghost var r := EnableNotif(d);
      ghost var t := db.conn.committed;
      Active(d.uid, t);
      if d.uid !in index.ass && !e.query {
        resp := Failed(InternalError);
        TurnedDown(r, e, InternalError);
      } else {
        if !(d.uid in index.ass && d.node in index.ass[d.uid].ndpass) {
          EnableFor(d, rows, t);
        }
        resp := Done(0);
        NothingStored(r, e);
        Finished(r, e, resp, []);
      }
    }

    // feeds_deactivate_suber
    method HandleDisconnect(node: NodeId, e: Env)
      requires Valid()
      modifies index`ass, index`nds, index`enabled, index`links, index.Lists()`items, index.ass.Values`ndpass
      ensures Follows(Disconnect(node), e, Done(0), [])
      ensures index.OnlyNew()
    {
      hide Counted, Index.Valid, Follows, Infos, Index.Infos, Index.Parts;
      ghost var r := Disconnect(node);
      index.Deactivate(node, db.conn.committed.subs);
      NothingStored(r, e);
      Finished(r, e, Done(0), []);
    }

    // -----------------------------------------------------------------------
    // Requests one after the other
    // -----------------------------------------------------------------------

    // db_iter_sub_chans: each channel a user is subscribed to, in some order.
    method SubRowsOf(uid: nat) returns (rows: seq<nat>)
      ensures NoDup(rows) && forall c :: c in rows <==> Sub(uid, c) in db.conn.committed.subs
    {
      rows := [];
      var todo := set x | x in db.conn.committed.subs && x.uid == uid;
      while todo != {}
        invariant forall x :: x in todo ==> x.uid == uid && x in db.conn.committed.subs
        invariant NoDup(rows)
        invariant forall c :: Sub(uid, c) in db.conn.committed.subs <==> c in rows || Sub(uid, c) in todo
        invariant forall c :: c in rows ==> Sub(uid, c) !in todo
        decreases todo
      {
        var x :| x in todo;
        assert x == Sub(uid, x.chan);
        rows := rows + [x.chan];
        todo := todo - {x};
      }
    }

    method EnableNotifFor(d: Dest, e: Env) returns (resp: Resp)
      requires Valid()
      modifies index`ass, index`nds, index`enabled, index`links
      modifies index.ass.Values`ndpass, index.nds.Values`ndpass, index.Lists()`items
      ensures Follows(EnableNotif(d), e, resp, []) && index.OnlyNew()
    {
      hide InSync, Obeys, Index.Valid, Index.Parts;
      var rows := SubRowsOf(d.uid);
      assert index.Lists() == old(index.Lists()) && index.Entries() == old(index.Entries());
      assert Observed() == old(Observed()) && index.Parts() == old(index.Parts());
      resp := HandleEnableNotif(d, rows, e);
    }

    lemma PartsReach()
      ensures forall u :: u in index.ass ==> index.ass[u] in index.Parts()
      ensures forall n :: n in index.nds ==> index.nds[n] in index.Parts()
      ensures forall c :: c in index.chansById ==> index.chansById[c] in index.Parts()
      ensures forall l :: l in index.Lists() ==> l in index.Parts()
      ensures forall a :: a in index.Entries() ==> a in index.Parts()
    {
    }

    // A request goes to its handler.
    method Handle(r: Request, e: Env) returns (resp: Resp, told: seq<Dest>)
      requires Valid()
      modifies this`nxtChanId, db`conn, index, index.Parts()
      ensures Follows(r, e, resp, told) && index.OnlyNew()
    {
      hide *;
      PartsReach();
      told := [];
      match r {
        case CreateChan(uid, name, text) => resp := HandleCreateChan(uid, name, text, e);
        case UpdateChan(uid, c, name, text) => resp, told := HandleUpdateChan(uid, c, name, text, e);
        case Publish(uid, c) => resp, told := HandlePublish(uid, c, e);
        case Comment(uid, key, replyTo) => resp, told := HandleComment(uid, key, replyTo, e);
        case PostLike(l) => resp, told := HandleLike(l, e);
        case PostUnlike(l) => resp := HandleUnlike(l, e);
        case Subscribe(x) => resp, told := HandleSubscribe(x, e);
        case Unsubscribe(x) => resp := HandleUnsubscribe(x, e);
        case EnableNotif(d) => resp := EnableNotifFor(d, e);
        case Disconnect(node) =>
          HandleDisconnect(node, e);
          resp := Done(0);
      }
    }

    // After a request the service is in step, or a transaction is open.
    twostate lemma Stepped(new r: Request, new e: Env, new resp: Resp, new told: seq<Dest>)
      requires Follows(r, e, resp, told)
      ensures Obeys(old(Observed()), r, e, resp, told, Observed()) && (Valid() <==> !db.conn.inTx)
    {
      hide Next, Stuck, NoDup, Counted, CacheOk;
    }

    // Requests are handled in order, until a ROLLBACK is refused: that is a run.
    method Serve(evs: seq<Event>) returns (n: nat, resps: seq<Resp>, told: seq<seq<Dest>>, ghost seen: seq<Snapshot>)
      requires Valid()
      modifies this`nxtChanId, db`conn, index, index.Parts()
      ensures n <= |evs| && |seen| == n + 1 && seen[0] == old(Observed()) && seen[n] == Observed()
      ensures Serves(Served(seen, resps, told), evs[..n]) && forall i :: 0 <= i < n ==> InSync(seen[i])
      ensures Valid() <==> Healthy(old(Abs()), evs[..n])
      ensures n == |evs| || !Healthy(old(Abs()), evs[..n])
      ensures Healthy(old(Abs()), evs[..n]) ==> Abs() == Run(old(Abs()), evs[..n])
      ensures index.OnlyNew()
    {
      hide Serves, Obeys, Healthy, Run, InSync, Valid, CacheOk, Abs, Index.Parts, Follows;
      AtRest();
      n, resps, told, seen := 0, [], [], [Observed()];
      ServesNothing(seen[0], evs);
      while n < |evs| && !db.conn.inTx
        invariant n <= |evs| && |seen| == n + 1 && seen[0] == old(Observed()) && seen[n] == Observed()
        invariant Serves(Served(seen, resps, told), evs[..n])
        invariant forall i :: 0 <= i < n ==> InSync(seen[i])
        invariant Valid() <==> !db.conn.inTx
        invariant index.OnlyNew()
      {
        label before:
        AtRest();
        var resp, one := Handle(evs[n].request, evs[n].env);
        Stepped@before(evs[n].request, evs[n].env, resp, one);
        ServesMore(Served(seen, resps, told), evs, n, resp, one, Observed());
        seen, resps, told, n := seen + [Observed()], resps + [resp], told + [one], n + 1;
      }
      ServedUntil(Served(seen, resps, told), evs, n);
      Seeing();
    }

    lemma AtRest()
      requires Valid()
      ensures InSync(Observed()) && !db.conn.inTx && Seen(Observed()) == Abs()
    {
    }

    lemma Seeing()
      ensures (Valid() <==> InSync(Observed())) && Seen(Observed()) == Abs()
    {
    }
  }

  // A start from any database and what follows: the service is in step until a ROLLBACK is
  // refused, and every counter stored is right even then.
  method StartService(stored: Tables, rows: seq<nat>, evs: seq<Event>)
    returns (n: nat, resps: seq<Resp>, told: seq<seq<Dest>>, now: Tables, ghost seen: seq<Snapshot>)
    requires Counted(stored) && ChanRows(rows, stored)
    ensures n <= |evs| && Serves(Served(seen, resps, told), evs[..n]) && Seen(seen[0]) == State(stored, {})
    ensures n == |evs| || !Healthy(State(stored, {}), evs[..n])
    ensures Healthy(State(stored, {}), evs[..n]) ==> now == Run(State(stored, {}), evs[..n]).tables
    ensures Counted(now) && (now.lastChanId == stored.lastChanId || now.lastChanId <= 5)
  {
    hide Serves, Healthy, Run, Counted, Feeds.Valid, ChanRows;
    var f := new Feeds.Load(stored, rows, |rows|);
    n, resps, told, seen := f.Serve(evs);
    now := f.db.conn.committed;
    StoredCounted(Served(seen, resps, told), evs, n);
  }

  // A new service starts from an empty database.
  method NewService(evs: seq<Event>) returns (n: nat, resps: seq<Resp>, told: seq<seq<Dest>>, now: Tables,
      ghost seen: seq<Snapshot>)
    ensures n <= |evs| && Serves(Served(seen, resps, told), evs[..n]) && Seen(seen[0]) == State(EMPTY, {})
    ensures n == |evs| || !Healthy(State(EMPTY, {}), evs[..n])
    ensures Healthy(State(EMPTY, {}), evs[..n]) ==> now == Run(State(EMPTY, {}), evs[..n]).tables
    ensures Counted(now) && now.lastChanId <= 5
  {
    hide Serves, Healthy, Run, Counted, ChanRows;
    EmptyCounted();
    NoRows();
    n, resps, told, now, seen := StartService(EMPTY, [], evs);
  }

  lemma NoRows()
    ensures ChanRows([], EMPTY)
  {
  }
}
