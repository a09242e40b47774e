/** The stored tables, the effect of one SQL statement on them, and the invariant that
    ties every stored counter to the rows it counts. */
module Tables {
  import opened Wrappers

  datatype ChanRow = ChanRow(name: string, text: string, nextPostId: nat, subscribers: int)
  datatype PostRow = PostRow(nextCmtId: nat, likes: int)
  datatype CmtRow = CmtRow(uid: nat, likes: int)

  datatype PostKey = PostKey(chan: nat, post: nat)

  // A comment id of 0 stands for the post itself.
  datatype Subject = Subject(key: PostKey, cmt: nat)

  datatype Like = Like(uid: nat, subject: Subject)
  datatype Sub = Sub(uid: nat, chan: nat)

  datatype Tables = Tables(
    lastChanId: nat,
    channels: map<nat, ChanRow>,
    posts: map<PostKey, PostRow>,
    cmts: map<Subject, CmtRow>,
    likes: set<Like>,
    subs: set<Sub>)

  datatype Stmt =
    | InsertChan(name: string, text: string)
    | UpdateChan(chan: nat, name: string, text: string)
    | InsertPost(key: PostKey)
    | BumpNextPost(chan: nat)
    | InsertCmt(key: PostKey, uid: nat)
    | BumpNextCmt(key: PostKey)
    | SelectLastCmt(key: PostKey)
    | AddLikes(subject: Subject, delta: int)
    | InsertLike(like: Like)
    | DeleteLike(like: Like)
    | SelectLikes(subject: Subject)
    | InsertSub(sub: Sub)
    | DeleteSub(sub: Sub)
    | AddSubscribers(chan: nat, delta: int)

  datatype Row = Row(tables: Tables, value: int)

  predicate NameTaken(channels: map<nat, ChanRow>, name: string, except: nat) {
    exists c :: c in channels && c != except && channels[c].name == name
  }

  // One statement: None when a constraint rejects it or a SELECT finds no row. An UPDATE
  // or DELETE that matches no row succeeds.
  function Exec(t: Tables, s: Stmt): Option<Row> {
    match s
    case InsertChan(name, text) =>
      var id := t.lastChanId + 1;
      if NameTaken(t.channels, name, id) || id in t.channels then None
      else Some(Row(t.(lastChanId := id, channels := t.channels[id := ChanRow(name, text, 1, 0)]), 0))
    case UpdateChan(c, name, text) =>
      if c !in t.channels then Some(Row(t, 0))
      else if NameTaken(t.channels, name, c) then None
      else Some(Row(t.(channels := t.channels[c := t.channels[c].(name := name, text := text)]), 0))
    case InsertPost(key) =>
      if key in t.posts then None else Some(Row(t.(posts := t.posts[key := PostRow(1, 0)]), 0))
    case BumpNextPost(c) =>
      if c !in t.channels then Some(Row(t, 0))
      else
        var r := t.channels[c];
        Some(Row(t.(channels := t.channels[c := r.(nextPostId := r.nextPostId + 1)]), 0))
    case InsertCmt(key, uid) =>
      if key !in t.posts then None  // the sub-select yields NULL, which the column refuses
      else
        var id := Subject(key, t.posts[key].nextCmtId);
        if id in t.cmts then None else Some(Row(t.(cmts := t.cmts[id := CmtRow(uid, 0)]), 0))
    case BumpNextCmt(key) =>
      if key !in t.posts then Some(Row(t, 0))
      else
        var r := t.posts[key];
        Some(Row(t.(posts := t.posts[key := r.(nextCmtId := r.nextCmtId + 1)]), 0))
    case SelectLastCmt(key) =>
      if key !in t.posts then None else Some(Row(t, t.posts[key].nextCmtId - 1))
    case AddLikes(s, delta) =>
      if s.cmt != 0 then
        if s !in t.cmts then Some(Row(t, 0))
        else Some(Row(t.(cmts := t.cmts[s := t.cmts[s].(likes := t.cmts[s].likes + delta)]), 0))
      else
        if s.key !in t.posts then Some(Row(t, 0))
        else Some(Row(t.(posts := t.posts[s.key := t.posts[s.key].(likes := t.posts[s.key].likes + delta)]), 0))
    case InsertLike(l) =>
      if l in t.likes then None else Some(Row(t.(likes := t.likes + {l}), 0))
    case DeleteLike(l) => Some(Row(t.(likes := t.likes - {l}), 0))
    case SelectLikes(s) =>
      if !HasSubject(t, s) then None else Some(Row(t, StoredLikes(t, s)))
    case InsertSub(x) =>
      if x in t.subs then None else Some(Row(t.(subs := t.subs + {x}), 0))
    case DeleteSub(x) => Some(Row(t.(subs := t.subs - {x}), 0))
    case AddSubscribers(c, delta) =>
      if c !in t.channels then Some(Row(t, 0))
      else
        var r := t.channels[c];
        Some(Row(t.(channels := t.channels[c := r.(subscribers := r.subscribers + delta)]), 0))
  }

  predicate HasSubject(t: Tables, s: Subject) {
    if s.cmt != 0 then s in t.cmts else s.key in t.posts
  }

  function StoredLikes(t: Tables, s: Subject): int
    requires HasSubject(t, s)
  {
    if s.cmt != 0 then t.cmts[s].likes else t.posts[s.key].likes
  }

  // -------------------------------------------------------------------------
  // The counter invariant
  // -------------------------------------------------------------------------

  function LikesOn(likes: set<Like>, s: Subject): set<Like> {
    set l | l in likes && l.subject == s
  }

  function SubsOn(subs: set<Sub>, c: nat): set<Sub> {
    set x | x in subs && x.chan == c
  }

  ghost predicate ChannelsCounted(t: Tables) {
    && (forall c :: c in t.channels <==> 1 <= c <= t.lastChanId)
    && (forall c, d :: c in t.channels && d in t.channels && c != d ==> t.channels[c].name != t.channels[d].name)
    && (forall c :: c in t.channels ==> t.channels[c].nextPostId >= 1)
    && (forall c :: c in t.channels ==> t.channels[c].subscribers == |SubsOn(t.subs, c)|)
    && (forall x :: x in t.subs ==> x.chan in t.channels)
  }

  ghost predicate PostsCounted(t: Tables) {
    && (forall k :: k in t.posts <==> k.chan in t.channels && 1 <= k.post < t.channels[k.chan].nextPostId)
    && (forall k :: k in t.posts ==> t.posts[k].nextCmtId >= 1)
    && (forall s :: s in t.cmts <==> s.key in t.posts && 1 <= s.cmt < t.posts[s.key].nextCmtId)
  }

  ghost predicate LikesCounted(t: Tables) {
    && (forall s :: HasSubject(t, s) ==> StoredLikes(t, s) == |LikesOn(t.likes, s)|)
    && (forall l :: l in t.likes ==> HasSubject(t, l.subject))
  }

  ghost predicate Counted(t: Tables) {
    ChannelsCounted(t) && PostsCounted(t) && LikesCounted(t)
  }

  const EMPTY := Tables(0, map[], map[], map[], {}, {})

  function ApplyAll(t: Tables, stmts: seq<Stmt>): Option<Tables>
    decreases |stmts|
  {
    if stmts == [] then Some(t)
    else
      match Exec(t, stmts[0])
      case None => None
      case Some(r) => ApplyAll(r.tables, stmts[1..])
  }

  function AddPostStmts(key: PostKey): seq<Stmt> {
    [InsertPost(key), BumpNextPost(key.chan)]
  }

  function AddCmtStmts(key: PostKey, uid: nat): seq<Stmt> {
    [InsertCmt(key, uid), BumpNextCmt(key), SelectLastCmt(key)]
  }

  function AddLikeStmts(l: Like): seq<Stmt> {
    [AddLikes(l.subject, 1), InsertLike(l), SelectLikes(l.subject)]
  }

  function RmLikeStmts(l: Like): seq<Stmt> {
    [AddLikes(l.subject, -1), DeleteLike(l)]
  }

  function AddSubStmts(x: Sub): seq<Stmt> {
    [InsertSub(x), AddSubscribers(x.chan, 1)]
  }

  function UnsubStmts(x: Sub): seq<Stmt> {
    [DeleteSub(x), AddSubscribers(x.chan, -1)]
  }

  lemma ApplyTwo(t: Tables, a: Stmt, b: Stmt)
    ensures ApplyAll(t, [a, b]) ==
            match Exec(t, a)
            case None => None
            case Some(r) => (match Exec(r.tables, b) case None => None case Some(q) => Some(q.tables))
  {
    assert [a, b][1..] == [b];
    var one := [b];
    assert one[1..] == [];
    match Exec(t, a) {
      case None =>
      case Some(r) =>
        assert ApplyAll(r.tables, one) ==
               match Exec(r.tables, b) case None => None case Some(q) => ApplyAll(q.tables, one[1..]);
    }
  }

  lemma ApplyThree(t: Tables, a: Stmt, b: Stmt, c: Stmt)
    ensures ApplyAll(t, [a, b, c]) ==
            match Exec(t, a) case None => None case Some(r) => ApplyAll(r.tables, [b, c])
  {
    assert [a, b, c][1..] == [b, c];
  }

  lemma LikesOnAdd(likes: set<Like>, l: Like, s: Subject)
    requires l !in likes
    ensures |LikesOn(likes + {l}, s)| == |LikesOn(likes, s)| + (if l.subject == s then 1 else 0)
  {
    if l.subject == s {
      assert LikesOn(likes + {l}, s) == LikesOn(likes, s) + {l};
    } else {
      assert LikesOn(likes + {l}, s) == LikesOn(likes, s);
    }
  }

  lemma SubsOnAdd(subs: set<Sub>, x: Sub, c: nat)
    requires x !in subs
    ensures |SubsOn(subs + {x}, c)| == |SubsOn(subs, c)| + (if x.chan == c then 1 else 0)
  {
    if x.chan == c {
      assert SubsOn(subs + {x}, c) == SubsOn(subs, c) + {x};
    } else {
      assert SubsOn(subs + {x}, c) == SubsOn(subs, c);
    }
  }

  // -------------------------------------------------------------------------
  // Posts
  // -------------------------------------------------------------------------

  function WithPost(t: Tables, key: PostKey): Tables
    requires key.chan in t.channels
  {
    var r := t.channels[key.chan];
    t.(posts := t.posts[key := PostRow(1, 0)],
       channels := t.channels[key.chan := r.(nextPostId := r.nextPostId + 1)])
  }

  // Rows and liked subjects unchanged but for a new subject nobody has liked.
  lemma NewSubjectCounted(t: Tables, t': Tables, s: Subject)
    requires LikesCounted(t) && !HasSubject(t, s) && t'.likes == t.likes
    requires HasSubject(t', s) && StoredLikes(t', s) == 0
    requires forall u :: u != s ==> (HasSubject(t', u) <==> HasSubject(t, u))
    requires forall u :: u != s && HasSubject(t, u) ==> StoredLikes(t', u) == StoredLikes(t, u)
    ensures LikesCounted(t')
  {
    hide HasSubject, StoredLikes;
    assert LikesOn(t.likes, s) == {};
  }

  lemma WithPostCounted(t: Tables, key: PostKey)
    requires Counted(t) && key.chan in t.channels && key.post == t.channels[key.chan].nextPostId
    ensures key !in t.posts && Counted(WithPost(t, key))
  {
    hide ChannelsCounted, PostsCounted, LikesCounted;
    WithPostChannels(t, key);
    WithPostPosts(t, key);
    NewSubjectCounted(t, WithPost(t, key), Subject(key, 0));
  }

  lemma WithPostChannels(t: Tables, key: PostKey)
    requires ChannelsCounted(t) && key.chan in t.channels && key.post == t.channels[key.chan].nextPostId
    ensures key.post >= 1 && ChannelsCounted(WithPost(t, key))
  {
    hide SubsOn;
    var t' := WithPost(t, key);
    assert t'.channels.Keys == t.channels.Keys;
  }

  lemma WithPostPosts(t: Tables, key: PostKey)
    requires PostsCounted(t) && key.chan in t.channels && key.post == t.channels[key.chan].nextPostId >= 1
    ensures key !in t.posts && PostsCounted(WithPost(t, key))
  {
    var t' := WithPost(t, key);
    assert key !in t.posts;
    forall s: Subject
      ensures s in t'.cmts <==> s.key in t'.posts && 1 <= s.cmt < t'.posts[s.key].nextCmtId
    {
      assert s in t.cmts <==> s.key in t.posts && 1 <= s.cmt < t.posts[s.key].nextCmtId;
    }
  }

  lemma AddPostApply(t: Tables, key: PostKey)
    requires key.chan in t.channels
    ensures ApplyAll(t, AddPostStmts(key)) == if key in t.posts then None else Some(WithPost(t, key))
  {
    ApplyTwo(t, InsertPost(key), BumpNextPost(key.chan));
  }

  // A post row and its channel's counter move together, provided the new id is the
  // stored next one; with any other id the counter stops describing the rows.
  lemma AddPostCounted(t: Tables, key: PostKey)
    requires Counted(t) && key.chan in t.channels
    ensures var r := ApplyAll(t, AddPostStmts(key));
            (r.Some? && Counted(r.value)) <==> key.post == t.channels[key.chan].nextPostId
  {
    hide ApplyAll;
    AddPostApply(t, key);
    var n := t.channels[key.chan].nextPostId;
    if key.post == n {
      WithPostCounted(t, key);
    } else if key !in t.posts {
      WithWrongPost(t, key);
    }
  }

  lemma WithWrongPost(t: Tables, key: PostKey)
    requires PostsCounted(t) && key.chan in t.channels && key.post != t.channels[key.chan].nextPostId >= 1
    ensures !PostsCounted(WithPost(t, key))
  {
    var t' := WithPost(t, key);
    var n := PostKey(key.chan, t.channels[key.chan].nextPostId);
    assert n !in t'.posts && t'.channels[n.chan].nextPostId == n.post + 1;
  }

  // -------------------------------------------------------------------------
  // Comments
  // -------------------------------------------------------------------------

  function WithCmt(t: Tables, key: PostKey, uid: nat): Tables
    requires key in t.posts
  {
    var r := t.posts[key];
    t.(cmts := t.cmts[Subject(key, r.nextCmtId) := CmtRow(uid, 0)],
       posts := t.posts[key := r.(nextCmtId := r.nextCmtId + 1)])
  }

  lemma WithCmtCounted(t: Tables, key: PostKey, uid: nat)
    requires Counted(t) && key in t.posts
    ensures Subject(key, t.posts[key].nextCmtId) !in t.cmts && Counted(WithCmt(t, key, uid))
  {
    hide LikesCounted, HasSubject;
    var t' := WithCmt(t, key, uid);
    var id := Subject(key, t.posts[key].nextCmtId);
    assert id !in t.cmts;
    assert ChannelsCounted(t') by {
      hide PostsCounted;
    }
    WithCmtPosts(t, key, uid);
    forall u: Subject
      ensures u != id ==> (HasSubject(t', u) <==> HasSubject(t, u))
      ensures u != id && HasSubject(t, u) ==> StoredLikes(t', u) == StoredLikes(t, u)
      ensures HasSubject(t', id) && StoredLikes(t', id) == 0 && !HasSubject(t, id)
    {
      WithCmtSubjects(t, key, uid, u);
    }
    NewSubjectCounted(t, t', id);
  }

  lemma WithCmtSubjects(t: Tables, key: PostKey, uid: nat, u: Subject)
    requires PostsCounted(t) && key in t.posts
    ensures var t' := WithCmt(t, key, uid);
            var id := Subject(key, t.posts[key].nextCmtId);
            && HasSubject(t', id) && StoredLikes(t', id) == 0 && !HasSubject(t, id)
            && (u != id ==> (HasSubject(t', u) <==> HasSubject(t, u)))
            && (u != id && HasSubject(t, u) ==> StoredLikes(t', u) == StoredLikes(t, u))
  {
  }

  lemma WithCmtPosts(t: Tables, key: PostKey, uid: nat)
    requires PostsCounted(t) && key in t.posts
    ensures PostsCounted(WithCmt(t, key, uid))
  {
    var t' := WithCmt(t, key, uid);
    forall s: Subject
      ensures s in t'.cmts <==> s.key in t'.posts && 1 <= s.cmt < t'.posts[s.key].nextCmtId
    {
      assert s in t.cmts <==> s.key in t.posts && 1 <= s.cmt < t.posts[s.key].nextCmtId;
    }
  }

  lemma AddCmtApply(t: Tables, key: PostKey, uid: nat)
    ensures ApplyAll(t, AddCmtStmts(key, uid)) ==
            if key in t.posts && Subject(key, t.posts[key].nextCmtId) !in t.cmts then Some(WithCmt(t, key, uid))
                else None
  {
    ApplyThree(t, InsertCmt(key, uid), BumpNextCmt(key), SelectLastCmt(key));
    var r := Exec(t, InsertCmt(key, uid));
    if r.Some? {
      ApplyTwo(r.value.tables, BumpNextCmt(key), SelectLastCmt(key));
    }
  }

  // Adding a comment is refused exactly when the post is missing, and otherwise keeps
  // every counter; the id reported is the one just stored.
  lemma AddCmtCounted(t: Tables, key: PostKey, uid: nat)
    requires Counted(t)
    ensures var r := ApplyAll(t, AddCmtStmts(key, uid));
            && (r.Some? <==> key in t.posts)
            && (r.Some? ==>
                  && Counted(r.value)
                  && r.value == WithCmt(t, key, uid)
                  && key in r.value.posts
                  && Subject(key, r.value.posts[key].nextCmtId - 1) !in t.cmts)
  {
    hide ApplyAll;
    AddCmtApply(t, key, uid);
    if key in t.posts {
      WithCmtCounted(t, key, uid);
    }
  }

  // -------------------------------------------------------------------------
  // Likes
  // -------------------------------------------------------------------------

  function WithLikes(t: Tables, s: Subject, delta: int, likes: set<Like>): Tables
    requires HasSubject(t, s)
  {
    if s.cmt != 0 then t.(cmts := t.cmts[s := t.cmts[s].(likes := t.cmts[s].likes + delta)], likes := likes)
    else t.(posts := t.posts[s.key := t.posts[s.key].(likes := t.posts[s.key].likes + delta)], likes := likes)
  }

  lemma WithLikesSubjects(t: Tables, s: Subject, delta: int, likes: set<Like>, u: Subject)
    requires HasSubject(t, s)
    ensures var t' := WithLikes(t, s, delta, likes);
            && (HasSubject(t', u) <==> HasSubject(t, u))
            && (HasSubject(t, u) ==> StoredLikes(t', u) == StoredLikes(t, u) + (if u == s then delta else 0))
  {
  }

  lemma WithLikesPosts(t: Tables, s: Subject, delta: int, likes: set<Like>)
    requires PostsCounted(t) && HasSubject(t, s)
    ensures PostsCounted(WithLikes(t, s, delta, likes))
  {
    var t' := WithLikes(t, s, delta, likes);
    forall u: Subject
      ensures u in t'.cmts <==> u.key in t'.posts && 1 <= u.cmt < t'.posts[u.key].nextCmtId
    {
      assert u in t.cmts <==> u.key in t.posts && 1 <= u.cmt < t.posts[u.key].nextCmtId;
    }
  }

  // The counter of one subject and the like rows change; all else is counted as before.
  lemma WithLikesCounted(t: Tables, s: Subject, delta: int, likes: set<Like>)
    requires Counted(t) && HasSubject(t, s)
    requires forall l :: l in likes ==> HasSubject(t, l.subject)
    requires forall u :: |LikesOn(likes, u)| == |LikesOn(t.likes, u)| + (if u == s then delta else 0)
    ensures Counted(WithLikes(t, s, delta, likes))
  {
    hide HasSubject, StoredLikes, LikesOn, PostsCounted;
    var t' := WithLikes(t, s, delta, likes);
    forall u: Subject
      ensures HasSubject(t', u) <==> HasSubject(t, u)
      ensures HasSubject(t', u) ==> StoredLikes(t', u) == |LikesOn(t'.likes, u)|
    {
      WithLikesSubjects(t, s, delta, likes, u);
    }
    WithLikesPosts(t, s, delta, likes);
  }

  lemma AddLikesRow(t: Tables, s: Subject, delta: int)
    ensures Exec(t, AddLikes(s, delta)) == Some(Row(if HasSubject(t, s) then WithLikes(t, s, delta, t.likes) else t, 0))
  {
  }

  lemma DeleteLikeRow(t: Tables, l: Like)
    ensures Exec(t, DeleteLike(l)) == Some(Row(t.(likes := t.likes - {l}), 0))
  {
  }

  lemma RmLikeApply(t: Tables, l: Like)
    ensures ApplyAll(t, RmLikeStmts(l)) ==
            Some(if HasSubject(t, l.subject) then WithLikes(t, l.subject, -1, t.likes - {l})
                 else t.(likes := t.likes - {l}))
  {
    hide ApplyAll, Exec;
    ApplyTwo(t, AddLikes(l.subject, -1), DeleteLike(l));
    AddLikesRow(t, l.subject, -1);
    DeleteLikeRow(Exec(t, AddLikes(l.subject, -1)).value.tables, l);
  }

  lemma AddLikeApply(t: Tables, l: Like)
    ensures ApplyAll(t, AddLikeStmts(l)) ==
            if HasSubject(t, l.subject) && l !in t.likes then Some(WithLikes(t, l.subject, 1, t.likes + {l})) else None
  {
    hide ApplyAll;
    var s := l.subject;
    ApplyThree(t, AddLikes(s, 1), InsertLike(l), SelectLikes(s));
    ApplyTwo(Exec(t, AddLikes(s, 1)).value.tables, InsertLike(l), SelectLikes(s));
  }

  // Adding a like is refused exactly when the subject is missing or already liked by the
  // user, and otherwise keeps every counter; the total reported is the one stored.
  lemma AddLikeCounted(t: Tables, l: Like)
    requires Counted(t)
    ensures var r := ApplyAll(t, AddLikeStmts(l));
            && (r.Some? <==> HasSubject(t, l.subject) && l !in t.likes)
            && (r.Some? ==>
                  && Counted(r.value) && r.value.likes == t.likes + {l}
                  && HasSubject(r.value, l.subject)
                  && StoredLikes(r.value, l.subject) == |LikesOn(r.value.likes, l.subject)|)
  {
    hide ApplyAll, ChannelsCounted, PostsCounted;
    var s := l.subject;
    AddLikeApply(t, l);
    if HasSubject(t, s) && l !in t.likes {
      forall u: Subject
        ensures |LikesOn(t.likes + {l}, u)| == |LikesOn(t.likes, u)| + (if u == s then 1 else 0)
      {
        LikesOnAdd(t.likes, l, u);
      }
      WithLikesCounted(t, s, 1, t.likes + {l});
      WithLikesSubjects(t, s, 1, t.likes + {l}, s);
    }
  }

  // Removing a like never fails, but it takes one off the counter whether or not there
  // is a row to delete: the counters survive exactly when the row (or no subject) exists.
  lemma RmLikeCounted(t: Tables, l: Like)
    requires Counted(t)
    ensures var r := ApplyAll(t, RmLikeStmts(l));
            && r.Some? && r.value.likes == t.likes - {l}
            && (Counted(r.value) <==> l in t.likes || !HasSubject(t, l.subject))
  {
    hide ApplyAll, ChannelsCounted, PostsCounted;
    var s := l.subject;
    RmLikeApply(t, l);
    var t' := ApplyAll(t, RmLikeStmts(l)).value;
    if HasSubject(t, s) {
      if l in t.likes {
        forall u: Subject
          ensures |LikesOn(t.likes - {l}, u)| == |LikesOn(t.likes, u)| + (if u == s then -1 else 0)
        {
          LikesOnAdd(t.likes - {l}, l, u);
          assert t.likes - {l} + {l} == t.likes;
        }
        WithLikesCounted(t, s, -1, t.likes - {l});
      } else {
        assert t.likes - {l} == t.likes;
        assert HasSubject(t', s) && StoredLikes(t', s) == StoredLikes(t, s) - 1;
      }
    } else {
      assert l !in t.likes && t.likes - {l} == t.likes;
      assert t' == t;
    }
  }

  // -------------------------------------------------------------------------
  // Subscriptions and channels
  // -------------------------------------------------------------------------

  function WithSubs(t: Tables, c: nat, delta: int, subs: set<Sub>): Tables
    requires c in t.channels
  {
    t.(channels := t.channels[c := t.channels[c].(subscribers := t.channels[c].subscribers + delta)], subs := subs)
  }

  // Subjects and likes do not depend on the channel and subscription tables.
  lemma SameSubjects(t: Tables, t': Tables)
    requires LikesCounted(t) && t'.posts == t.posts && t'.cmts == t.cmts && t'.likes == t.likes
    ensures LikesCounted(t')
  {
    assert forall s :: HasSubject(t', s) <==> HasSubject(t, s);
    forall s | HasSubject(t', s)
      ensures StoredLikes(t', s) == |LikesOn(t'.likes, s)|
    {
      assert HasSubject(t, s) && StoredLikes(t', s) == StoredLikes(t, s);
    }
  }

  lemma WithSubsChannels(t: Tables, c: nat, delta: int, subs: set<Sub>)
    requires ChannelsCounted(t) && c in t.channels
    requires forall x :: x in subs ==> x.chan in t.channels
    requires forall d :: |SubsOn(subs, d)| == |SubsOn(t.subs, d)| + (if d == c then delta else 0)
    ensures ChannelsCounted(WithSubs(t, c, delta, subs))
  {
    hide SubsOn;
    var t' := WithSubs(t, c, delta, subs);
    assert t'.channels.Keys == t.channels.Keys;
    assert forall d :: d in t.channels ==>
      t'.channels[d].name == t.channels[d].name && t'.channels[d].nextPostId == t.channels[d].nextPostId;
  }

  lemma WithSubsPosts(t: Tables, c: nat, delta: int, subs: set<Sub>)
    requires PostsCounted(t) && c in t.channels
    ensures PostsCounted(WithSubs(t, c, delta, subs))
  {
  }

  lemma WithSubsCounted(t: Tables, c: nat, delta: int, subs: set<Sub>)
    requires Counted(t) && c in t.channels
    requires forall x :: x in subs ==> x.chan in t.channels
    requires forall d :: |SubsOn(subs, d)| == |SubsOn(t.subs, d)| + (if d == c then delta else 0)
    ensures Counted(WithSubs(t, c, delta, subs))
  {
    hide ChannelsCounted, PostsCounted, LikesCounted, SubsOn;
    WithSubsChannels(t, c, delta, subs);
    WithSubsPosts(t, c, delta, subs);
    SameSubjects(t, WithSubs(t, c, delta, subs));
  }

  lemma DeleteSubRow(t: Tables, x: Sub)
    ensures Exec(t, DeleteSub(x)) == Some(Row(t.(subs := t.subs - {x}), 0))
  {
  }

  lemma SubscribersRow(t: Tables, c: nat, delta: int, subs: set<Sub>)
    ensures var mid := t.(subs := subs);
            Exec(mid, AddSubscribers(c, delta)) ==
            Some(Row(if c in t.channels then WithSubs(t, c, delta, subs) else mid, 0))
  {
  }

  // What the statements make of the tables.
  lemma AddSubApply(t: Tables, x: Sub)
    ensures ApplyAll(t, AddSubStmts(x)) ==
            if x in t.subs then None
            else if x.chan in t.channels then Some(WithSubs(t, x.chan, 1, t.subs + {x}))
            else Some(t.(subs := t.subs + {x}))
  {
    hide ApplyAll;
    ApplyTwo(t, InsertSub(x), AddSubscribers(x.chan, 1));
    SubscribersRow(t, x.chan, 1, t.subs + {x});
  }

  lemma UnsubApply(t: Tables, x: Sub)
    ensures ApplyAll(t, UnsubStmts(x)) ==
            if x.chan in t.channels then Some(WithSubs(t, x.chan, -1, t.subs - {x}))
            else Some(t.(subs := t.subs - {x}))
  {
    hide ApplyAll, Exec, WithSubs;
    ApplyTwo(t, DeleteSub(x), AddSubscribers(x.chan, -1));
    DeleteSubRow(t, x);
    SubscribersRow(t, x.chan, -1, t.subs - {x});
  }

  // A subscription row is refused exactly when it is there already; the counters survive
  // exactly when its channel exists.
  lemma AddSubCounted(t: Tables, x: Sub)
    requires Counted(t)
    ensures var r := ApplyAll(t, AddSubStmts(x));
            && (r.Some? <==> x !in t.subs)
            && (r.Some? ==> r.value.subs == t.subs + {x} && (Counted(r.value) <==> x.chan in t.channels))
            && (r.Some? && x.chan in t.channels ==> r.value == WithSubs(t, x.chan, 1, t.subs + {x}))
  {
    hide ApplyAll, PostsCounted, LikesCounted, SubsOn;
    AddSubApply(t, x);
    if x !in t.subs {
      if x.chan in t.channels {
        forall d: nat
          ensures |SubsOn(t.subs + {x}, d)| == |SubsOn(t.subs, d)| + (if d == x.chan then 1 else 0)
        {
          SubsOnAdd(t.subs, x, d);
        }
        WithSubsCounted(t, x.chan, 1, t.subs + {x});
      } else {
        assert x in ApplyAll(t, AddSubStmts(x)).value.subs;
      }
    }
  }

  // Unsubscribing never fails; the counters survive exactly when there was a row to
  // delete, or no channel to count for.
  lemma UnsubCounted(t: Tables, x: Sub)
    requires Counted(t)
    ensures var r := ApplyAll(t, UnsubStmts(x));
            && r.Some? && r.value.subs == t.subs - {x}
            && (Counted(r.value) <==> x in t.subs || x.chan !in t.channels)
            && (x.chan in t.channels ==> r.value == WithSubs(t, x.chan, -1, t.subs - {x}))
  {
    hide ApplyAll, PostsCounted, LikesCounted, SubsOn;
    UnsubApply(t, x);
    if x.chan in t.channels {
      if x in t.subs {
        forall d: nat
          ensures |SubsOn(t.subs - {x}, d)| == |SubsOn(t.subs, d)| + (if d == x.chan then -1 else 0)
        {
          SubsOnAdd(t.subs - {x}, x, d);
          assert t.subs - {x} + {x} == t.subs;
        }
        WithSubsCounted(t, x.chan, -1, t.subs - {x});
      } else {
        assert t.subs - {x} == t.subs;
        var t' := WithSubs(t, x.chan, -1, t.subs);
        assert t'.channels[x.chan].subscribers == t.channels[x.chan].subscribers - 1;
        assert !ChannelsCounted(t');
      }
    } else {
      assert x !in t.subs && t.subs - {x} == t.subs;
    }
  }

  // Adding a channel without rows, or renaming one.
  ghost predicate ChannelChange(t: Tables, c: nat, row: ChanRow, last: nat) {
    && !NameTaken(t.channels, row.name, c)
    && if c in t.channels then
         && last == t.lastChanId && row.nextPostId == t.channels[c].nextPostId
         && row.subscribers == t.channels[c].subscribers
       else
         last == c == t.lastChanId + 1 && row.nextPostId == 1 && row.subscribers == 0
  }

  lemma SetChannelNames(t: Tables, c: nat, row: ChanRow, last: nat)
    requires ChannelsCounted(t) && ChannelChange(t, c, row, last)
    ensures ChannelsCounted(t.(lastChanId := last, channels := t.channels[c := row]))
  {
    if c !in t.channels {
      assert SubsOn(t.subs, c) == {};
    }
  }

  lemma SetChannelPosts(t: Tables, c: nat, row: ChanRow, last: nat)
    requires PostsCounted(t) && ChannelChange(t, c, row, last)
    ensures PostsCounted(t.(lastChanId := last, channels := t.channels[c := row]))
  {
    hide NameTaken;
    var t' := t.(lastChanId := last, channels := t.channels[c := row]);
    forall k: PostKey
      ensures k in t'.posts <==> k.chan in t'.channels && 1 <= k.post < t'.channels[k.chan].nextPostId
    {
      assert k in t.posts <==> k.chan in t.channels && 1 <= k.post < t.channels[k.chan].nextPostId;
    }
  }

  lemma SetChannelCounted(t: Tables, c: nat, row: ChanRow, last: nat)
    requires Counted(t) && ChannelChange(t, c, row, last)
    ensures Counted(t.(lastChanId := last, channels := t.channels[c := row]))
  {
    hide ChannelsCounted, PostsCounted, LikesCounted, ChannelChange;
    SetChannelNames(t, c, row, last);
    SetChannelPosts(t, c, row, last);
    SameSubjects(t, t.(lastChanId := last, channels := t.channels[c := row]));
  }

  // A new channel gets the id after the last one and is refused exactly when its name is
  // taken.
  lemma InsertChanCounted(t: Tables, name: string, text: string)
    requires Counted(t)
    ensures var r := Exec(t, InsertChan(name, text));
            && (r.Some? <==> forall c :: c in t.channels ==> t.channels[c].name != name)
            && (r.Some? ==> Counted(r.value.tables))
  {
    hide PostsCounted, LikesCounted;
    assert t.lastChanId + 1 !in t.channels;
    if Exec(t, InsertChan(name, text)).Some? {
      SetChannelCounted(t, t.lastChanId + 1, ChanRow(name, text, 1, 0), t.lastChanId + 1);
    }
  }

  lemma UpdateChanCounted(t: Tables, c: nat, name: string, text: string)
    requires Counted(t) && c in t.channels
    ensures var r := Exec(t, UpdateChan(c, name, text));
            && (r.Some? <==> forall d :: d in t.channels && d != c ==> t.channels[d].name != name)
            && (r.Some? ==> Counted(r.value.tables))
  {
    hide PostsCounted, LikesCounted;
    if Exec(t, UpdateChan(c, name, text)).Some? {
      SetChannelCounted(t, c, t.channels[c].(name := name, text := text), t.lastChanId);
    }
  }
}
