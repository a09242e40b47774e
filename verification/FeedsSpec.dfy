/** What the channel requests of feeds.c mean, on values: the stored tables, the relation
    of who enabled notifications on which node, and one step per request. */
module FeedsSpec {
  import opened Wrappers
  import opened Tables
  import opened Database
  import opened ChannelIndex

  const MAX_FEEDS := 5
  const OWNER_USER_ID: nat := 1
  const CHAN_ID_START: nat := 1

  datatype State = State(tables: Tables, enabled: set<Dest>)

  datatype ErrorCode = NotAuthorized | NotExist | AlreadyExists | WrongState | MaxFeedsLimit | DbError | InternalError

  datatype Resp = Done(value: int) | Failed(code: ErrorCode)

  // The luck of one request: whether its look-ups succeed, and the faults of the
  // statements that change tables.
  datatype Env = Env(query: bool, query2: bool, tx: Faults)

  datatype Request =
    | CreateChan(uid: nat, name: string, text: string)
    | UpdateChan(uid: nat, chan: nat, name: string, text: string)
    | Publish(uid: nat, chan: nat)
    | Comment(uid: nat, key: PostKey, replyTo: nat)
    | PostLike(like: Like)
    | PostUnlike(like: Like)
    | Subscribe(sub: Sub)
    | Unsubscribe(sub: Sub)
    | EnableNotif(dest: Dest)
    | Disconnect(node: NodeId)

  datatype Step = Step(state: State, resp: Resp, told: set<Dest>)

  function Infos(t: Tables): map<nat, ChanInfo> {
    map c | c in t.channels :: Info(c, t.channels[c])
  }

  function Info(c: nat, r: ChanRow): ChanInfo {
    ChanInfo(c, r.name, r.text, r.subscribers, r.nextPostId)
  }

  // Who hears about a channel: the subscriptions joined with the enabled destinations.
  function Audience(s: State, c: nat): set<Dest> {
    set d | d in s.enabled && Sub(d.uid, c) in s.tables.subs
  }

  function UserDests(s: State, uid: nat): set<Dest> {
    set d | d in s.enabled && d.uid == uid
  }

  predicate PostExists(t: Tables, key: PostKey) {
    key.chan in t.channels && key.post < t.channels[key.chan].nextPostId
  }

  // Why a request is turned down before anything is changed.
  function Refusal(s: State, r: Request, e: Env): Option<ErrorCode> {
    var t := s.tables;
    match r
    case CreateChan(uid, name, text) =>
      if !e.query then Some(DbError)
      else if |t.channels| >= MAX_FEEDS then Some(MaxFeedsLimit)
      else if uid != OWNER_USER_ID then Some(NotAuthorized)
      else if exists c :: c in t.channels && t.channels[c].name == name then Some(AlreadyExists)
      else None
    case UpdateChan(uid, c, name, text) =>
      if uid != OWNER_USER_ID then Some(NotAuthorized)
      else if c !in t.channels then Some(NotExist)
      else if t.channels[c].name != name && exists d :: d in t.channels && t.channels[d].name == name then
        Some(AlreadyExists)
      else None
    case Publish(uid, c) =>
      if uid != OWNER_USER_ID then Some(NotAuthorized)
      else if c !in t.channels then Some(NotExist)
      else None
    case Comment(uid, key, replyTo) =>
      if !PostExists(t, key) then Some(NotExist)
      else if replyTo != 0 && (!e.query || Subject(key, replyTo) !in t.cmts) then Some(NotExist)
      else None
    case PostLike(l) =>
      if !PostExists(t, l.subject.key) then Some(NotExist)
      else if l.subject.cmt != 0 && (!e.query || l.subject !in t.cmts) then Some(NotExist)
      else if !e.query2 || l in t.likes then Some(WrongState)
      else None
    case PostUnlike(l) =>
      if l.subject.key.chan !in t.channels then Some(NotExist)
      else if !e.query || l !in t.likes then Some(WrongState)
      else None
    case Subscribe(x) =>
      if x.chan !in t.channels then Some(NotExist)
      else if !e.query || x in t.subs then Some(WrongState)
      else None
    case Unsubscribe(x) =>
      if x.chan !in t.channels then Some(NotExist)
      else if !e.query || x !in t.subs then Some(WrongState)
      else None
    case EnableNotif(d) =>
      if UserDests(s, d.uid) == {} && !e.query then Some(InternalError) else None
    case Disconnect(_) => None
  }

  predicate InTransaction(r: Request) {
    r.Publish? || r.Comment? || r.PostLike? || r.PostUnlike? || r.Subscribe? || r.Unsubscribe?
  }

  function Stmts(t: Tables, r: Request): seq<Stmt>
    requires InTransaction(r)
    requires r.Publish? ==> r.chan in t.channels
  {
    match r
    case Publish(_, c) => AddPostStmts(PostKey(c, t.channels[c].nextPostId))
    case Comment(uid, key, _) => AddCmtStmts(key, uid)
    case PostLike(l) => AddLikeStmts(l)
    case PostUnlike(l) => RmLikeStmts(l)
    case Subscribe(x) => AddSubStmts(x)
    case Unsubscribe(x) => UnsubStmts(x)
  }

  // The tables after the request's statements, if all of them succeed.
  ghost function Stored(t: Tables, r: Request, f: Faults): Option<Tables>
    requires r.Publish? ==> r.chan in t.channels
  {
    if InTransaction(r) then
      if NoFaults(f, 0, |Stmts(t, r)| + 2) then ApplyAll(t, Stmts(t, r)) else None
    else if r.CreateChan? then
      if FaultAt(f, 0) == NoFault then Single(t, InsertChan(r.name, r.text)) else None
    else if r.UpdateChan? then
      if FaultAt(f, 0) == NoFault then Single(t, Stmt.UpdateChan(r.chan, r.name, r.text)) else None
    else Some(t)
  }

  function Single(t: Tables, s: Stmt): Option<Tables> {
    match Exec(t, s)
    case None => None
    case Some(row) => Some(row.tables)
  }

  // The id or total a successful request reports.
  function Reported(t: Tables, t': Tables, r: Request): int {
    match r
    case CreateChan(_, _, _) => t.lastChanId + 1
    case Publish(_, c) => if c in t.channels then t.channels[c].nextPostId else 0
    case Comment(_, key, _) => if key in t'.posts then t'.posts[key].nextCmtId - 1 else 0
    case PostLike(l) => if HasSubject(t', l.subject) then StoredLikes(t', l.subject) else 0
    case Subscribe(x) => if x.chan in t'.channels then t'.channels[x.chan].subscribers else 0
    case _ => 0
  }

  function Told(s: State, r: Request): set<Dest> {
    match r
    case UpdateChan(_, c, _, _) => Audience(s, c)
    case Publish(_, c) => Audience(s, c)
    case Comment(_, key, _) => Audience(s, key.chan)
    case PostLike(l) => Audience(s, l.subject.key.chan)
    case Subscribe(_) => UserDests(s, OWNER_USER_ID)
    case _ => {}
  }

  function EnabledAfter(enabled: set<Dest>, r: Request): set<Dest> {
    match r
    case EnableNotif(d) => enabled + {d}
    case Disconnect(node) => set d | d in enabled && d.node != node
    case _ => enabled
  }

  ghost function Next(s: State, r: Request, e: Env): Step {
    match Refusal(s, r, e)
    case Some(code) => Step(s, Failed(code), {})
    case None =>
      match Stored(s.tables, r, e.tx)
      case None => Step(s, Failed(InternalError), {})
      case Some(t) =>
        var s' := State(t, EnabledAfter(s.enabled, r));
        Step(s', Done(Reported(s.tables, t, r)), Told(s', r))
  }

  // The request's transaction fails and ROLLBACK is refused: the transaction stays open,
  // and what is said here of later requests does not apply to the service any more.
  ghost predicate Stuck(s: State, r: Request, e: Env) {
    && Refusal(s, r, e).None? && InTransaction(r)
    && RollbackRefused(Conn(s.tables, s.tables, false), Stmts(s.tables, r), e.tx)
  }

  // -------------------------------------------------------------------------
  // What every step keeps
  // -------------------------------------------------------------------------

  lemma ChannelCount(t: Tables)
    requires ChannelsCounted(t)
    ensures |t.channels| == t.lastChanId
  {
    UpTo(t.channels.Keys, t.lastChanId);
  }

  lemma {:induction false} UpTo(ids: set<nat>, n: nat)
    requires forall c :: c in ids <==> 1 <= c <= n
    ensures |ids| == n
  {
    if n > 0 {
      UpTo(ids - {n}, n - 1);
    } else {
      assert ids == {};
    }
  }

  // Only INSERT INTO channels moves the last id.
  lemma {:induction false} LastChanKept(t: Tables, stmts: seq<Stmt>)
    requires forall s :: s in stmts ==> !s.InsertChan?
    requires ApplyAll(t, stmts).Some?
    ensures ApplyAll(t, stmts).value.lastChanId == t.lastChanId
    decreases |stmts|
  {
    if stmts != [] {
      LastChanKept(Exec(t, stmts[0]).value.tables, stmts[1..]);
    }
  }

  lemma CreateCounted(t: Tables, r: Request, e: Env, s: State)
    requires Counted(t) && s.tables == t && Refusal(s, r, e).None? && r.CreateChan?
    ensures var q := Single(t, InsertChan(r.name, r.text));
            q.Some? && Counted(q.value) && ChannelsLimited(t, q.value)
  {
    hide PostsCounted, LikesCounted;
    ChannelCount(t);
    InsertChanCounted(t, r.name, r.text);
  }

  lemma UpdateCounted(t: Tables, r: Request, e: Env, s: State)
    requires Counted(t) && s.tables == t && Refusal(s, r, e).None? && r.UpdateChan?
    ensures var q := Single(t, Stmt.UpdateChan(r.chan, r.name, r.text));
            q.Some? && Counted(q.value) && ChannelsLimited(t, q.value)
  {
    hide PostsCounted, LikesCounted;
    UpdateChanCounted(t, r.chan, r.name, r.text);
  }

  lemma SingleCounted(t: Tables, r: Request, e: Env, s: State)
    requires Counted(t) && s.tables == t && Refusal(s, r, e).None? && (r.CreateChan? || r.UpdateChan?)
    ensures FaultAt(e.tx, 0) == NoFault ==> Stored(t, r, e.tx).Some?
    ensures Stored(t, r, e.tx).Some? ==>
              Counted(Stored(t, r, e.tx).value) && ChannelsLimited(t, Stored(t, r, e.tx).value)
  {
    hide Counted, Refusal, Single, Stmts, ChannelsLimited;
    if r.CreateChan? {
      CreateCounted(t, r, e, s);
    } else {
      UpdateCounted(t, r, e, s);
    }
  }

  lemma TransactionCounted(s: State, r: Request, e: Env)
    requires Counted(s.tables) && Refusal(s, r, e).None? && InTransaction(r)
    ensures Stored(s.tables, r, e.tx).Some? ==>
              && Counted(Stored(s.tables, r, e.tx).value)
              && Stored(s.tables, r, e.tx).value.lastChanId == s.tables.lastChanId
  {
    hide Counted, ApplyAll;
    var t := s.tables;
    match r {
      case Publish(_, c) =>
        AddPostApply(t, PostKey(c, t.channels[c].nextPostId));
        AddPostCounted(t, PostKey(c, t.channels[c].nextPostId));
      case Comment(uid, key, _) => AddCmtCounted(t, key, uid);
      case PostLike(l) => AddLikeCounted(t, l);
      case PostUnlike(l) => RmLikeCounted(t, l);
      case Subscribe(x) => AddSubCounted(t, x);
      case Unsubscribe(x) => UnsubCounted(t, x);
    }
    if ApplyAll(t, Stmts(t, r)).Some? {
      LastChanKept(t, Stmts(t, r));
    }
  }

  // A channel is added only below the limit.
  predicate ChannelsLimited(was: Tables, now: Tables) {
    now.lastChanId == was.lastChanId || now.lastChanId == was.lastChanId + 1 <= 5
  }

  // In every reachable state each stored counter is the number of rows it counts.
  lemma StepCounted(s: State, r: Request, e: Env)
    requires Counted(s.tables)
    ensures Counted(Next(s, r, e).state.tables) && ChannelsLimited(s.tables, Next(s, r, e).state.tables)
  {
    hide Counted, Refusal, Reported, Told, InTransaction;
    if Refusal(s, r, e).None? {
      if InTransaction(r) {
        TransactionCounted(s, r, e);
      } else if r.CreateChan? || r.UpdateChan? {
        SingleCounted(s.tables, r, e, s);
      }
    }
  }

  // Which requests are done: the rights and the rows each needs, the look-ups it makes, and
  // no fault in its statements.
  lemma DoneExactly(s: State, r: Request, e: Env)
    requires Counted(s.tables)
    ensures var t := s.tables;
            Next(s, r, e).resp.Done? <==>
              match r
              case CreateChan(uid, name, _) =>
                && uid == 1 && |t.channels| < 5 && (forall c :: c in t.channels ==> t.channels[c].name != name)
                && e.query && FaultAt(e.tx, 0) == NoFault
              case UpdateChan(uid, c, name, _) =>
                && uid == 1 && c in t.channels
                && (forall d :: d in t.channels && d != c ==> t.channels[d].name != name)
                && FaultAt(e.tx, 0) == NoFault
              case Publish(uid, c) => uid == 1 && c in t.channels && NoFaults(e.tx, 0, 4)
              case Comment(_, key, replyTo) =>
                && key in t.posts && (replyTo != 0 ==> Subject(key, replyTo) in t.cmts && e.query)
                && NoFaults(e.tx, 0, 5)
              case PostLike(l) =>
                && l.subject.key in t.posts && (l.subject.cmt != 0 ==> l.subject in t.cmts && e.query)
                && l !in t.likes && e.query2 && NoFaults(e.tx, 0, 5)
              case PostUnlike(l) => l in t.likes && e.query && NoFaults(e.tx, 0, 4)
              case Subscribe(x) => x.chan in t.channels && x !in t.subs && e.query && NoFaults(e.tx, 0, 4)
              case Unsubscribe(x) => x in t.subs && e.query && NoFaults(e.tx, 0, 4)
              case EnableNotif(d) => e.query || exists n :: Dest(d.uid, n) in s.enabled
              case Disconnect(_) => true
  {
    hide Counted, ApplyAll, Told, Reported;
    match r {
      case CreateChan(_, _, _) => CreateDone(s, r, e);
      case UpdateChan(_, _, _, _) => UpdateDone(s, r, e);
      case Publish(_, c) => PublishDone(s, r, e);
      case Comment(_, _, _) => CommentDone(s, r, e);
      case PostLike(_) => LikeDone(s, r, e);
      case PostUnlike(_) => UnlikeDone(s, r, e);
      case Subscribe(x) => AddSubCounted(s.tables, x);
      case Unsubscribe(_) => UnsubscribeDone(s, r, e);
      case EnableNotif(d) => EnableDone(s, r, e);
      case Disconnect(_) =>
    }
  }

  lemma CreateDone(s: State, r: Request, e: Env)
    requires Counted(s.tables) && r.CreateChan?
    ensures var t := s.tables;
            Next(s, r, e).resp.Done? <==>
            r.uid == 1 && |t.channels| < 5 && (forall c :: c in t.channels ==> t.channels[c].name != r.name)
            && e.query && FaultAt(e.tx, 0) == NoFault
  {
    hide Counted, Stored, Reported;
    if Refusal(s, r, e).None? {
      SingleCounted(s.tables, r, e, s);
      StoredFaultless(s.tables, r, e);
    }
  }

  lemma UpdateDone(s: State, r: Request, e: Env)
    requires Counted(s.tables) && r.UpdateChan?
    ensures var t := s.tables;
            Next(s, r, e).resp.Done? <==>
            r.uid == 1 && r.chan in t.channels
            && (forall d :: d in t.channels && d != r.chan ==> t.channels[d].name != r.name)
            && FaultAt(e.tx, 0) == NoFault
  {
    hide Counted, Stored, Reported;
    if Refusal(s, r, e).None? {
      SingleCounted(s.tables, r, e, s);
      StoredFaultless(s.tables, r, e);
    }
    NamesDiffer(s.tables);
  }

  lemma NamesDiffer(t: Tables)
    requires Counted(t)
    ensures forall c, d :: c in t.channels && d in t.channels && c != d ==> t.channels[c].name != t.channels[d].name
  {
    hide PostsCounted, LikesCounted;
  }

  lemma StoredFaultless(t: Tables, r: Request, e: Env)
    requires r.CreateChan? || r.UpdateChan?
    ensures Stored(t, r, e.tx).Some? ==> FaultAt(e.tx, 0) == NoFault
  {
    hide Single;
  }

  lemma PublishDone(s: State, r: Request, e: Env)
    requires Counted(s.tables) && r.Publish?
    ensures Next(s, r, e).resp.Done? <==> r.uid == 1 && r.chan in s.tables.channels && NoFaults(e.tx, 0, 4)
  {
    hide Counted, ApplyAll, Reported;
    if r.chan in s.tables.channels {
      AddPostApply(s.tables, PostKey(r.chan, s.tables.channels[r.chan].nextPostId));
      AddPostCounted(s.tables, PostKey(r.chan, s.tables.channels[r.chan].nextPostId));
    }
  }

  lemma RowsKnown(t: Tables, key: PostKey)
    requires Counted(t)
    ensures key in t.posts ==> PostExists(t, key)
    ensures forall l :: l in t.likes ==> HasSubject(t, l.subject)
    ensures forall x :: x in t.subs ==> x.chan in t.channels
    ensures forall u :: u in t.cmts ==> u.key in t.posts
  {
  }

  lemma CommentDone(s: State, r: Request, e: Env)
    requires Counted(s.tables) && r.Comment?
    ensures Next(s, r, e).resp.Done? <==>
            && r.key in s.tables.posts && (r.replyTo != 0 ==> Subject(r.key, r.replyTo) in s.tables.cmts && e.query)
            && NoFaults(e.tx, 0, 5)
  {
    hide Counted, ApplyAll, Reported, PostExists;
    RowsKnown(s.tables, r.key);
    AddCmtCounted(s.tables, r.key, r.uid);
  }

  lemma LikeDone(s: State, r: Request, e: Env)
    requires Counted(s.tables) && r.PostLike?
    ensures var l := r.like;
            Next(s, r, e).resp.Done? <==>
            && l.subject.key in s.tables.posts && (l.subject.cmt != 0 ==> l.subject in s.tables.cmts && e.query)
            && l !in s.tables.likes && e.query2 && NoFaults(e.tx, 0, 5)
  {
    hide Counted, ApplyAll, Reported, PostExists;
    RowsKnown(s.tables, r.like.subject.key);
    AddLikeCounted(s.tables, r.like);
  }

  lemma UnlikeDone(s: State, r: Request, e: Env)
    requires Counted(s.tables) && r.PostUnlike?
    ensures Next(s, r, e).resp.Done? <==> r.like in s.tables.likes && e.query && NoFaults(e.tx, 0, 4)
  {
    hide Counted, ApplyAll, Reported;
    RowsKnown(s.tables, r.like.subject.key);
    RmLikeCounted(s.tables, r.like);
  }

  lemma UnsubscribeDone(s: State, r: Request, e: Env)
    requires Counted(s.tables) && r.Unsubscribe?
    ensures Next(s, r, e).resp.Done? <==> r.sub in s.tables.subs && e.query && NoFaults(e.tx, 0, 4)
  {
    hide Counted, ApplyAll, Reported;
    RowsKnown(s.tables, PostKey(0, 0));
    UnsubCounted(s.tables, r.sub);
  }

  lemma EnableDone(s: State, r: Request, e: Env)
    requires r.EnableNotif?
    ensures Next(s, r, e).resp.Done? <==> e.query || exists n :: Dest(r.dest.uid, n) in s.enabled
  {
    hide Stored, Reported;
    StoredNothing(s.tables, r, e);
    if UserDests(s, r.dest.uid) != {} {
      var d :| d in UserDests(s, r.dest.uid);
      assert Dest(r.dest.uid, d.node) == d;
    }
    if n :| Dest(r.dest.uid, n) in s.enabled {
      assert Dest(r.dest.uid, n) in UserDests(s, r.dest.uid);
    }
  }

  lemma StoredNothing(t: Tables, r: Request, e: Env)
    requires r.EnableNotif?
    ensures Stored(t, r, e.tx) == Some(t)
  {
  }

  lemma StoredAlways(t: Tables, r: Request, e: Env)
    requires r.Disconnect?
    ensures Stored(t, r, e.tx) == Some(t)
  {
  }

  // Otherwise nothing changes, nobody is told, and the code says why.
  lemma RefusedBecause(s: State, r: Request, e: Env)
    requires Counted(s.tables) && Next(s, r, e).resp.Failed?
    ensures var t, code := s.tables, Next(s, r, e).resp.code;
            && Next(s, r, e).state == s && Next(s, r, e).told == {}
            && (code == NotAuthorized ==> (r.CreateChan? || r.UpdateChan? || r.Publish?) && r.uid != 1)
            && (code == MaxFeedsLimit <==> r.CreateChan? && e.query && |t.channels| >= 5)
            && (code == DbError <==> r.CreateChan? && !e.query)
            && (code == AlreadyExists ==>
                  && (r.CreateChan? || r.UpdateChan?) && r.uid == 1
                  && exists c :: c in t.channels && t.channels[c].name == r.name)
            && (code == WrongState ==>
                  match r
                  case PostLike(l) => !e.query2 || l in t.likes
                  case PostUnlike(l) => !e.query || l !in t.likes
                  case Subscribe(x) => !e.query || x in t.subs
                  case Unsubscribe(x) => !e.query || x !in t.subs
                  case _ => false)
            && (code == NotExist ==>
                  match r
                  case UpdateChan(_, c, _, _) => c !in t.channels
                  case Publish(_, c) => c !in t.channels
                  case Comment(_, key, replyTo) =>
                    key !in t.posts || (replyTo != 0 && (!e.query || Subject(key, replyTo) !in t.cmts))
                  case PostLike(l) =>
                    l.subject.key !in t.posts || (l.subject.cmt != 0 && (!e.query || l.subject !in t.cmts))
                  case PostUnlike(l) => l.subject.key.chan !in t.channels
                  case Subscribe(x) => x.chan !in t.channels
                  case Unsubscribe(x) => x.chan !in t.channels
                  case _ => false)
            && (code == InternalError ==>
                  match r
                  case CreateChan(uid, _, _) => uid == 1 && |t.channels| < 5
                  case UpdateChan(uid, c, _, _) => uid == 1 && c in t.channels
                  case Publish(uid, c) => uid == 1 && c in t.channels
                  case Comment(_, key, _) => key.chan in t.channels && key.post < t.channels[key.chan].nextPostId
                  case PostLike(l) =>
                    && l.subject.key.chan in t.channels
                    && l.subject.key.post < t.channels[l.subject.key.chan].nextPostId && l !in t.likes
                  case PostUnlike(l) => l in t.likes
                  case Subscribe(x) => x.chan in t.channels && x !in t.subs
                  case Unsubscribe(x) => x in t.subs
                  case EnableNotif(d) => !e.query
                  case Disconnect(_) => false)
  {
    hide Counted, Stored, Told, Reported;
    if r.EnableNotif? {
      StoredNothing(s.tables, r, e);
    } else if r.Disconnect? {
      StoredAlways(s.tables, r, e);
    }
    var key := match r case Comment(_, k, _) => k case PostLike(l) => l.subject.key case _ => PostKey(0, 0);
    RowsKnown(s.tables, key);
  }

  // The ids and totals reported are those just stored, and what they say of the rows.
  lemma StepReports(s: State, r: Request, e: Env)
    requires Counted(s.tables) && Next(s, r, e).resp.Done?
    ensures var n := Next(s, r, e);
            var t, t', v := s.tables, n.state.tables, n.resp.value;
            match r
            case CreateChan(_, name, text) =>
              v == t'.lastChanId && v !in t.channels && v in t'.channels && t'.channels[v] == ChanRow(name, text, 1, 0)
            case UpdateChan(_, c, name, text) =>
              c in t.channels && t' == t.(channels := t.channels[c := t.channels[c].(name := name, text := text)])
            case Publish(_, c) =>
              v >= 1 && PostKey(c, v) !in t.posts && t'.posts.Keys == t.posts.Keys + {PostKey(c, v)}
            case Comment(uid, key, _) =>
              v >= 1 && Subject(key, v) !in t.cmts && t'.cmts == t.cmts[Subject(key, v) := CmtRow(uid, 0)]
            case PostLike(l) => l !in t.likes && t'.likes == t.likes + {l} && v == |LikesOn(t'.likes, l.subject)|
            case PostUnlike(l) => l in t.likes && t'.likes == t.likes - {l}
            case Subscribe(x) => x !in t.subs && t'.subs == t.subs + {x} && v == |SubsOn(t'.subs, x.chan)|
            case Unsubscribe(x) => x in t.subs && t'.subs == t.subs - {x}
            case _ => t'.subs == t.subs && t'.likes == t.likes && t'.posts == t.posts && t'.cmts == t.cmts
  {
    hide ApplyAll, ChannelsCounted, PostsCounted, LikesCounted, SubsOn, LikesOn;
    var t := s.tables;
    match r {
      case CreateChan(_, _, _) => CreateReports(s, r, e);
      case Publish(_, _) => PublishReports(s, r, e);
      case Comment(_, _, _) => CommentReports(s, r, e);
      case PostLike(l) => AddLikeCounted(t, l);
      case PostUnlike(l) => RmLikeCounted(t, l);
      case Subscribe(x) => SubscribeReports(s, r, e);
      case Unsubscribe(x) => UnsubCounted(t, x);
      case _ =>
    }
  }

  lemma CreateReports(s: State, r: Request, e: Env)
    requires Counted(s.tables) && r.CreateChan? && Next(s, r, e).resp.Done?
    ensures var t, t', v := s.tables, Next(s, r, e).state.tables, Next(s, r, e).resp.value;
            v == t'.lastChanId && v !in t.channels && v in t'.channels
                && t'.channels[v] == ChanRow(r.name, r.text, 1, 0)
  {
    hide PostsCounted, LikesCounted;
  }

  lemma PublishReports(s: State, r: Request, e: Env)
    requires Counted(s.tables) && r.Publish? && Next(s, r, e).resp.Done?
    ensures var t, t', v := s.tables, Next(s, r, e).state.tables, Next(s, r, e).resp.value;
            v >= 1 && PostKey(r.chan, v) !in t.posts && t'.posts.Keys == t.posts.Keys + {PostKey(r.chan, v)}
  {
    hide ApplyAll, LikesCounted;
    AddPostApply(s.tables, PostKey(r.chan, s.tables.channels[r.chan].nextPostId));
  }

  lemma SubscribeReports(s: State, r: Request, e: Env)
    requires Counted(s.tables) && r.Subscribe? && Next(s, r, e).resp.Done?
    ensures var t, t', v, x := s.tables, Next(s, r, e).state.tables, Next(s, r, e).resp.value, r.sub;
            x !in t.subs && t'.subs == t.subs + {x} && v == |SubsOn(t'.subs, x.chan)|
  {
    hide ApplyAll, PostsCounted, LikesCounted, SubsOn;
    AddSubCounted(s.tables, r.sub);
    StepCounted(s, r, e);
  }

  lemma CommentReports(s: State, r: Request, e: Env)
    requires Counted(s.tables) && r.Comment? && Next(s, r, e).resp.Done?
    ensures var t, t', v := s.tables, Next(s, r, e).state.tables, Next(s, r, e).resp.value;
            v >= 1 && Subject(r.key, v) !in t.cmts && t'.cmts == t.cmts[Subject(r.key, v) := CmtRow(r.uid, 0)]
  {
    hide ApplyAll, LikesCounted;
    AddCmtCounted(s.tables, r.key, r.uid);
  }

  predicate TouchesChannels(s: Stmt) {
    s.InsertChan? || s.UpdateChan? || s.BumpNextPost? || s.AddSubscribers? || s.InsertSub? || s.DeleteSub?
  }

  lemma {:induction false} ChannelsKept(t: Tables, stmts: seq<Stmt>)
    requires forall s :: s in stmts ==> !TouchesChannels(s)
    requires ApplyAll(t, stmts).Some?
    ensures ApplyAll(t, stmts).value.channels == t.channels && ApplyAll(t, stmts).value.subs == t.subs
    decreases |stmts|
  {
    if stmts != [] {
      assert !TouchesChannels(stmts[0]);
      ChannelsKept(Exec(t, stmts[0]).value.tables, stmts[1..]);
    }
  }

  // What the cache has to do to follow a successful request.
  function InfosAfter(infos: map<nat, ChanInfo>, next: nat, r: Request): map<nat, ChanInfo> {
    match r
    case CreateChan(_, name, text) => infos[next := ChanInfo(next, name, text, 0, 1)]
    case UpdateChan(_, c, name, text) => if c in infos then infos[c := infos[c].(name := name, text := text)] else infos
    case Publish(_, c) => if c in infos then infos[c := infos[c].(nextPostId := infos[c].nextPostId + 1)] else infos
    case Subscribe(x) =>
      if x.chan in infos then infos[x.chan := infos[x.chan].(subs := infos[x.chan].subs + 1)] else infos
    case Unsubscribe(x) =>
      if x.chan in infos then infos[x.chan := infos[x.chan].(subs := infos[x.chan].subs - 1)] else infos
    case _ => infos
  }

  function SubsAfter(subs: set<Sub>, r: Request): set<Sub> {
    match r
    case Subscribe(x) => subs + {x}
    case Unsubscribe(x) => subs - {x}
    case _ => subs
  }

  lemma SubsFollowed(s: State, r: Request, e: Env)
    requires Counted(s.tables) && (r.Subscribe? || r.Unsubscribe?) && Next(s, r, e).resp.Done?
    ensures var t, t' := s.tables, Next(s, r, e).state.tables;
            Infos(t') == InfosAfter(Infos(t), t.lastChanId + 1, r) && t'.subs == SubsAfter(t.subs, r)
  {
    hide Counted, ApplyAll;
    if r.Subscribe? {
      AddSubCounted(s.tables, r.sub);
    } else {
      UnsubCounted(s.tables, r.sub);
    }
  }

  lemma PostsFollowed(s: State, r: Request, e: Env)
    requires Counted(s.tables) && InTransaction(r) && !r.Subscribe? && !r.Unsubscribe? && Next(s, r, e).resp.Done?
    ensures var t, t' := s.tables, Next(s, r, e).state.tables;
            Infos(t') == InfosAfter(Infos(t), t.lastChanId + 1, r) && t'.subs == SubsAfter(t.subs, r)
  {
    hide Counted, ApplyAll;
    var t := s.tables;
    if r.Publish? {
      AddPostApply(t, PostKey(r.chan, t.channels[r.chan].nextPostId));
    } else {
      ChannelsKept(t, Stmts(t, r));
    }
  }

  lemma LastChanFollowed(s: State, r: Request, e: Env)
    requires InTransaction(r) && Next(s, r, e).resp.Done?
    ensures Next(s, r, e).state.tables.lastChanId == s.tables.lastChanId
  {
    hide ApplyAll, Reported, Told;
    LastChanKept(s.tables, Stmts(s.tables, r));
  }

  lemma SinglesFollowed(s: State, r: Request, e: Env)
    requires !InTransaction(r) && Next(s, r, e).resp.Done?
    ensures var t, t' := s.tables, Next(s, r, e).state.tables;
            && Infos(t') == InfosAfter(Infos(t), t.lastChanId + 1, r)
            && t'.subs == SubsAfter(t.subs, r)
            && t'.lastChanId == t.lastChanId + (if r.CreateChan? then 1 else 0)
  {
    hide Stmts, ApplyAll, Told;
  }

  lemma StepFollowed(s: State, r: Request, e: Env)
    requires Counted(s.tables) && Next(s, r, e).resp.Done?
    ensures var t, t' := s.tables, Next(s, r, e).state.tables;
            && Infos(t') == InfosAfter(Infos(t), t.lastChanId + 1, r)
            && t'.subs == SubsAfter(t.subs, r)
            && t'.lastChanId == t.lastChanId + (if r.CreateChan? then 1 else 0)
  {
    hide Counted, Next, Infos, InfosAfter, SubsAfter;
    if r.Subscribe? || r.Unsubscribe? {
      SubsFollowed(s, r, e);
      LastChanFollowed(s, r, e);
    } else if InTransaction(r) {
      PostsFollowed(s, r, e);
      LastChanFollowed(s, r, e);
    } else {
      SinglesFollowed(s, r, e);
    }
  }

  // -------------------------------------------------------------------------
  // Runs
  // -------------------------------------------------------------------------

  datatype Event = Event(request: Request, env: Env)

  ghost function Run(s: State, evs: seq<Event>): State
    decreases |evs|, 0
  {
    if evs == [] then s
    else StepAt(s, evs, |evs| - 1).state
  }

  ghost function StepAt(s: State, evs: seq<Event>, i: nat): Step
    requires i < |evs|
    decreases i, 1
  {
    Next(Run(s, evs[..i]), evs[i].request, evs[i].env)
  }

  lemma {:induction false} RunCounted(s: State, evs: seq<Event>)
    requires Counted(s.tables)
    ensures Counted(Run(s, evs).tables)
    ensures var n := Run(s, evs).tables.lastChanId; n == s.tables.lastChanId || n <= 5
    decreases |evs|
  {
    hide Next, Counted;
    if evs != [] {
      var i := |evs| - 1;
      RunCounted(s, evs[..i]);
      StepCounted(Run(s, evs[..i]), evs[i].request, evs[i].env);
    }
  }

  lemma EmptyCounted()
    ensures Counted(EMPTY)
  {
    assert SubsOn({}, 0) == {};
  }

  lemma StepAtPrefix(s: State, evs: seq<Event>, n: nat, i: nat)
    requires i < n <= |evs|
    ensures StepAt(s, evs[..n], i) == StepAt(s, evs, i)
  {
    hide Next;
    assert evs[..n][..i] == evs[..i];
  }

  // -------------------------------------------------------------------------
  // The two relations, told from the history alone
  // -------------------------------------------------------------------------

  ghost predicate Happened(s: State, evs: seq<Event>, i: nat, r: Request)
    requires i < |evs|
  {
    evs[i].request == r && StepAt(s, evs, i).resp.Done?
  }

  ghost predicate Since(s: State, evs: seq<Event>, on: Request, off: Request) {
    exists i :: 0 <= i < |evs| && Happened(s, evs, i, on) && NeverFrom(s, evs, i + 1, off)
  }

  ghost predicate NeverFrom(s: State, evs: seq<Event>, from: nat, r: Request) {
    forall i :: from <= i < |evs| ==> !Happened(s, evs, i, r)
  }

  // Subscribed, and not unsubscribed since.
  ghost predicate StillSubscribed(s: State, evs: seq<Event>, x: Sub) {
    || Since(s, evs, Subscribe(x), Unsubscribe(x))
    || (x in s.tables.subs && NeverFrom(s, evs, 0, Unsubscribe(x)))
  }

  // Notifications enabled there, and the node not disconnected since.
  ghost predicate StillEnabled(s: State, evs: seq<Event>, d: Dest) {
    || Since(s, evs, EnableNotif(d), Disconnect(d.node))
    || (d in s.enabled && NeverFrom(s, evs, 0, Disconnect(d.node)))
  }

  // How a history grows by one event.
  lemma NeverGrows(s: State, evs: seq<Event>, from: nat, off: Request)
    requires evs != [] && from < |evs|
    ensures var n := |evs| - 1;
            NeverFrom(s, evs, from, off) <==> NeverFrom(s, evs[..n], from, off) && !Happened(s, evs, n, off)
  {
    hide StepAt;
    var n := |evs| - 1;
    forall i | from <= i < n
      ensures Happened(s, evs[..n], i, off) <==> Happened(s, evs, i, off)
    {
      StepAtPrefix(s, evs, n, i);
    }
  }

  lemma HappenedPrefix(s: State, evs: seq<Event>, i: nat, r: Request)
    requires evs != [] && i < |evs| - 1
    ensures Happened(s, evs[..|evs| - 1], i, r) <==> Happened(s, evs, i, r)
  {
    hide StepAt;
    StepAtPrefix(s, evs, |evs| - 1, i);
  }

  lemma SinceShrinks(s: State, evs: seq<Event>, on: Request, off: Request)
    requires evs != [] && Since(s, evs, on, off) && !Happened(s, evs, |evs| - 1, on)
    ensures Since(s, evs[..|evs| - 1], on, off) && !Happened(s, evs, |evs| - 1, off)
  {
    hide Happened, NeverFrom;
    var i :| 0 <= i < |evs| && Happened(s, evs, i, on) && NeverFrom(s, evs, i + 1, off);
    HappenedPrefix(s, evs, i, on);
    NeverGrows(s, evs, i + 1, off);
  }

  lemma SinceGrows(s: State, evs: seq<Event>, on: Request, off: Request)
    requires evs != [] && on != off
    ensures var n := |evs| - 1;
            Since(s, evs, on, off) <==>
            Happened(s, evs, n, on) || (Since(s, evs[..n], on, off) && !Happened(s, evs, n, off))
  {
    hide Happened, NeverFrom;
    var n := |evs| - 1;
    var was := evs[..n];
    if Happened(s, evs, n, on) {
      NothingAfter(s, evs, off);
      assert Since(s, evs, on, off);
    } else if Since(s, evs, on, off) {
      SinceShrinks(s, evs, on, off);
    } else if Since(s, was, on, off) && !Happened(s, evs, n, off) {
      var i :| 0 <= i < n && Happened(s, was, i, on) && NeverFrom(s, was, i + 1, off);
      HappenedPrefix(s, evs, i, on);
      NeverGrows(s, evs, i + 1, off);
    }
  }

  lemma NothingAfter(s: State, evs: seq<Event>, off: Request)
    ensures NeverFrom(s, evs, |evs|, off)
  {
  }

  // One step changes the relations by its own request only.
  lemma StepRelations(s: State, r: Request, e: Env)
    requires Counted(s.tables)
    ensures var n := Next(s, r, e);
            && (forall d :: d in n.state.enabled <==>
                  || (n.resp.Done? && r == EnableNotif(d))
                  || (d in s.enabled && !(n.resp.Done? && r == Disconnect(d.node))))
            && (forall x :: x in n.state.tables.subs <==>
                  (n.resp.Done? && r == Subscribe(x)) || (x in s.tables.subs && !(n.resp.Done? && r == Unsubscribe(x))))
  {
    hide Counted;
    if Next(s, r, e).resp.Done? {
      StepFollowed(s, r, e);
    }
  }

  // The enabled destinations and the subscriptions are what the history says.
  lemma {:induction false} RelationsByHistory(s: State, evs: seq<Event>)
    requires Counted(s.tables)
    ensures forall d :: d in Run(s, evs).enabled <==> StillEnabled(s, evs, d)
    ensures forall x :: x in Run(s, evs).tables.subs <==> StillSubscribed(s, evs, x)
    decreases |evs|
  {
    hide Next, Counted, Since, NeverFrom;
    if evs == [] {
      NoHistory(s);
    } else {
      var n := |evs| - 1;
      var was := evs[..n];
      var now := Run(s, was);
      RelationsByHistory(s, was);
      RunCounted(s, was);
      StepRelations(now, evs[n].request, evs[n].env);
      forall d
        ensures d in Run(s, evs).enabled <==> StillEnabled(s, evs, d)
      {
        EnabledGrows(s, evs, d);
      }
      forall x
        ensures x in Run(s, evs).tables.subs <==> StillSubscribed(s, evs, x)
      {
        SubscribedGrows(s, evs, x);
      }
    }
  }

  lemma NoHistory(s: State)
    ensures forall d :: d in s.enabled <==> StillEnabled(s, [], d)
    ensures forall x :: x in s.tables.subs <==> StillSubscribed(s, [], x)
  {
  }

  lemma EnabledGrows(s: State, evs: seq<Event>, d: Dest)
    requires evs != []
    ensures var n := |evs| - 1;
            StillEnabled(s, evs, d) <==>
              || Happened(s, evs, n, EnableNotif(d))
              || (StillEnabled(s, evs[..n], d) && !Happened(s, evs, n, Disconnect(d.node)))
  {
    hide Since, NeverFrom, Happened;
    SinceGrows(s, evs, EnableNotif(d), Disconnect(d.node));
    NeverGrows(s, evs, 0, Disconnect(d.node));
  }

  lemma SubscribedGrows(s: State, evs: seq<Event>, x: Sub)
    requires evs != []
    ensures var n := |evs| - 1;
            StillSubscribed(s, evs, x) <==>
              || Happened(s, evs, n, Subscribe(x))
              || (StillSubscribed(s, evs[..n], x) && !Happened(s, evs, n, Unsubscribe(x)))
  {
    hide Since, NeverFrom, Happened;
    SinceGrows(s, evs, Subscribe(x), Unsubscribe(x));
    NeverGrows(s, evs, 0, Unsubscribe(x));
  }

  // Who hears of a request, told from the history alone.
  lemma {:induction false} ToldByHistory(s: State, evs: seq<Event>, i: nat, d: Dest)
    requires Counted(s.tables) && i < |evs|
    ensures var was := evs[..i];
            d in StepAt(s, evs, i).told <==>
              && StepAt(s, evs, i).resp.Done? && StillEnabled(s, was, d)
              && match evs[i].request
                 case UpdateChan(_, c, _, _) => StillSubscribed(s, was, Sub(d.uid, c))
                 case Publish(_, c) => StillSubscribed(s, was, Sub(d.uid, c))
                 case Comment(_, key, _) => StillSubscribed(s, was, Sub(d.uid, key.chan))
                 case PostLike(l) => StillSubscribed(s, was, Sub(d.uid, l.subject.key.chan))
                 case Subscribe(_) => d.uid == 1
                 case _ => false
  {
    hide Counted, StillEnabled, StillSubscribed, Next;
    RelationsByHistory(s, evs[..i]);
    RunCounted(s, evs[..i]);
    ToldNow(Run(s, evs[..i]), evs[i].request, evs[i].env, d);
  }

  lemma ToldNow(s: State, r: Request, e: Env, d: Dest)
    requires Counted(s.tables)
    ensures d in Next(s, r, e).told <==>
              && Next(s, r, e).resp.Done? && d in s.enabled
              && match r
                 case UpdateChan(_, c, _, _) => Sub(d.uid, c) in s.tables.subs
                 case Publish(_, c) => Sub(d.uid, c) in s.tables.subs
                 case Comment(_, key, _) => Sub(d.uid, key.chan) in s.tables.subs
                 case PostLike(l) => Sub(d.uid, l.subject.key.chan) in s.tables.subs
                 case Subscribe(_) => d.uid == 1
                 case _ => false
  {
    hide Counted, Refusal, Stored, Reported;
    if Next(s, r, e).resp.Done? {
      StepFollowed(s, r, e);
    }
  }

  // Nothing is ever addressed to a node between its disconnection and the next time
  // notifications are enabled there.
  lemma {:induction false} DisconnectedHearsNothing(s: State, evs: seq<Event>, i: nat, j: nat, d: Dest)
    requires Counted(s.tables) && j < i < |evs|
    requires evs[j].request == Disconnect(d.node)
    requires forall k :: j < k < i ==> evs[k].request != EnableNotif(d)
    ensures d !in StepAt(s, evs, i).told
  {
    hide Counted, Next, Since, NeverFrom;
    var was := evs[..i];
    RelationsByHistory(s, was);
    RunCounted(s, was);
    ToldAreEnabled(Run(s, was), evs[i].request, evs[i].env);
    if StillEnabled(s, was, d) {
      NotSince(s, was, j, d);
    }
  }

  lemma ToldAreEnabled(s: State, r: Request, e: Env)
    ensures forall d :: d in Next(s, r, e).told ==> d in s.enabled
  {
  }

  lemma NotSince(s: State, evs: seq<Event>, j: nat, d: Dest)
    requires j < |evs| && evs[j].request == Disconnect(d.node)
    requires forall k :: j < k < |evs| ==> evs[k].request != EnableNotif(d)
    ensures !StillEnabled(s, evs, d)
  {
    assert Happened(s, evs, j, Disconnect(d.node));
    hide StepAt;
  }

  // -------------------------------------------------------------------------
  // Restarting
  // -------------------------------------------------------------------------

  // A restart keeps what is stored and forgets who had enabled notifications.
  function Restarted(s: State): State {
    State(s.tables, {})
  }

  // A user asks for notifications whose subscriptions cannot be read, and who is active only
  // where that was asked for before the restart.
  ghost predicate ActiveBefore(s: State, evs: seq<Event>, i: nat)
    requires i < |evs|
  {
    FailsInactive(Run(s, evs[..i]), Run(Restarted(s), evs[..i]).enabled, evs[i].request, evs[i].env)
  }

  // The look-up fails, which matters with the fewer destinations only.
  predicate FailsInactive(s: State, fewer: set<Dest>, r: Request, e: Env) {
    && r.EnableNotif? && !e.query
    && UserDests(s, r.dest.uid) != {} && UserDests(State(s.tables, fewer), r.dest.uid) == {}
  }

  // Later requests leave the same tables as without the restart and notify no one new, and
  // get the same replies, ids and totals, but for users who were active before.
  lemma {:induction false} RestartIsInvisible(s: State, evs: seq<Event>)
    ensures Run(Restarted(s), evs).tables == Run(s, evs).tables
    ensures Run(Restarted(s), evs).enabled <= Run(s, evs).enabled
    ensures forall i :: 0 <= i < |evs| ==>
              && (StepAt(Restarted(s), evs, i).resp == StepAt(s, evs, i).resp <==> !ActiveBefore(s, evs, i))
              && StepAt(Restarted(s), evs, i).told <= StepAt(s, evs, i).told
    decreases |evs|
  {
    hide Next, FailsInactive;
    if evs != [] {
      var n := |evs| - 1;
      var was := evs[..n];
      RestartIsInvisible(s, was);
      FewerEnabled(Run(s, was), Run(Restarted(s), was).enabled, evs[n].request, evs[n].env);
      forall i | 0 <= i < |evs|
        ensures StepAt(Restarted(s), evs, i).resp == StepAt(s, evs, i).resp <==> !ActiveBefore(s, evs, i)
        ensures StepAt(Restarted(s), evs, i).told <= StepAt(s, evs, i).told
      {
        if i < n {
          assert was[..i] == evs[..i];
          StepAtPrefix(s, evs, n, i);
          StepAtPrefix(Restarted(s), evs, n, i);
        }
      }
    }
  }

  lemma FewerEnabled(s: State, fewer: set<Dest>, r: Request, e: Env)
    requires fewer <= s.enabled
    ensures var n, m := Next(s, r, e), Next(State(s.tables, fewer), r, e);
            && m.state.tables == n.state.tables && m.state.enabled <= n.state.enabled && m.told <= n.told
            && (m.resp == n.resp <==> !FailsInactive(s, fewer, r, e))
  {
    hide Stored, Reported;
    if r.EnableNotif? {
      StoredNothing(s.tables, r, e);
      assert UserDests(State(s.tables, fewer), r.dest.uid) <= UserDests(s, r.dest.uid);
    }
  }
}
