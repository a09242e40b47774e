/** The stored tables read as counters and rows, before and after a start-up: whatever mix
    of old, current and new tables is migrated, every counter and every row it counts stay. */
module MigratedCounters {
  import opened Wrappers
  import opened Migration
  import T = Tables

  function Natural(v: Value): nat {
    if v.Num? && v.n >= 0 then v.n else 0
  }

  function Number(v: Value): int {
    if v.Num? then v.n else 0
  }

  function Characters(v: Value): string {
    if v.Str? then v.s else ""
  }

  ghost function TableOf(s: Schema, id: TableId): (t: Table)
    requires Proper(s)
    ensures WellFormed(t)
  {
    if Newest(id) in s.tables then s.tables[Newest(id)] else Table([], [])
  }

  function Field(t: Table, i: nat, c: Column): Value
    requires WellFormed(t) && i < |t.rows|
  {
    if c in t.cols then ValueAt(t, i, c) else Num(0)
  }

  function ChannelIdAt(t: Table, i: nat): nat
    requires WellFormed(t) && i < |t.rows|
  {
    Natural(Field(t, i, ChannelId))
  }

  function PostKeyAt(t: Table, i: nat): T.PostKey
    requires WellFormed(t) && i < |t.rows|
  {
    T.PostKey(Natural(Field(t, i, ChannelId)), Natural(Field(t, i, PostId)))
  }

  function SubjectAt(t: Table, i: nat): T.Subject
    requires WellFormed(t) && i < |t.rows|
  {
    T.Subject(PostKeyAt(t, i), Natural(Field(t, i, CommentId)))
  }

  function LikeAt(t: Table, i: nat): T.Like
    requires WellFormed(t) && i < |t.rows|
  {
    T.Like(Natural(Field(t, i, UserId)), SubjectAt(t, i))
  }

  function SubAt(t: Table, i: nat): T.Sub
    requires WellFormed(t) && i < |t.rows|
  {
    T.Sub(Natural(Field(t, i, UserId)), ChannelIdAt(t, i))
  }

  // The first n rows of each table, as the operations of the service see them.
  function ChannelsIn(t: Table, n: nat): map<nat, T.ChanRow>
    requires WellFormed(t) && n <= |t.rows|
  {
    if n == 0 then map[]
    else
      var row := T.ChanRow(Characters(Field(t, n - 1, Name)), Characters(Field(t, n - 1, Intro)),
                           Natural(Field(t, n - 1, NextPostId)), Number(Field(t, n - 1, Subscribers)));
      ChannelsIn(t, n - 1)[ChannelIdAt(t, n - 1) := row]
  }

  function PostsIn(t: Table, n: nat): map<T.PostKey, T.PostRow>
    requires WellFormed(t) && n <= |t.rows|
  {
    if n == 0 then map[]
    else
      var row := T.PostRow(Natural(Field(t, n - 1, NextCommentId)), Number(Field(t, n - 1, LikeCount)));
      PostsIn(t, n - 1)[PostKeyAt(t, n - 1) := row]
  }

  function CommentsIn(t: Table, n: nat): map<T.Subject, T.CmtRow>
    requires WellFormed(t) && n <= |t.rows|
  {
    if n == 0 then map[]
    else
      var row := T.CmtRow(Natural(Field(t, n - 1, UserId)), Number(Field(t, n - 1, LikeCount)));
      CommentsIn(t, n - 1)[SubjectAt(t, n - 1) := row]
  }

  function LikesIn(t: Table, n: nat): set<T.Like>
    requires WellFormed(t) && n <= |t.rows|
  {
    if n == 0 then {}
    else LikesIn(t, n - 1) + {LikeAt(t, n - 1)}
  }

  function SubsIn(t: Table, n: nat): set<T.Sub>
    requires WellFormed(t) && n <= |t.rows|
  {
    if n == 0 then {}
    else SubsIn(t, n - 1) + {SubAt(t, n - 1)}
  }

  // What is read: each row under its key, and nothing else; with keys that differ, each row's
  // own values.
  lemma {:induction false} ChannelsRead(t: Table, n: nat)
    requires WellFormed(t) && n <= |t.rows|
    ensures forall k :: k in ChannelsIn(t, n) <==> exists i :: 0 <= i < n && ChannelIdAt(t, i) == k
    ensures (forall i, j :: 0 <= i < j < n ==> ChannelIdAt(t, i) != ChannelIdAt(t, j)) ==>
              forall i :: 0 <= i < n ==> ChannelsIn(t, n)[ChannelIdAt(t, i)] == T.ChanRow(
                  Characters(Field(t, i, Name)), Characters(Field(t, i, Intro)), Natural(Field(t, i, NextPostId)),
                  Number(Field(t, i, Subscribers)))
  {
    hide Field;
    if n > 0 {
      ChannelsRead(t, n - 1);
    }
  }

  lemma {:induction false} PostsRead(t: Table, n: nat)
    requires WellFormed(t) && n <= |t.rows|
    ensures forall k :: k in PostsIn(t, n) <==> exists i :: 0 <= i < n && PostKeyAt(t, i) == k
    ensures (forall i, j :: 0 <= i < j < n ==> PostKeyAt(t, i) != PostKeyAt(t, j)) ==>
              forall i :: 0 <= i < n ==> PostsIn(t, n)[PostKeyAt(t, i)] == T.PostRow(
                  Natural(Field(t, i, NextCommentId)), Number(Field(t, i, LikeCount)))
  {
    hide Field;
    if n > 0 {
      PostsRead(t, n - 1);
    }
  }

  lemma {:induction false} CommentsRead(t: Table, n: nat)
    requires WellFormed(t) && n <= |t.rows|
    ensures forall k :: k in CommentsIn(t, n) <==> exists i :: 0 <= i < n && SubjectAt(t, i) == k
    ensures (forall i, j :: 0 <= i < j < n ==> SubjectAt(t, i) != SubjectAt(t, j)) ==>
              forall i :: 0 <= i < n ==> CommentsIn(t, n)[SubjectAt(t, i)] == T.CmtRow(
                  Natural(Field(t, i, UserId)), Number(Field(t, i, LikeCount)))
  {
    hide Field;
    if n > 0 {
      CommentsRead(t, n - 1);
    }
  }

  lemma {:induction false} LikesRead(t: Table, n: nat)
    requires WellFormed(t) && n <= |t.rows|
    ensures forall l :: l in LikesIn(t, n) <==>
              exists i :: 0 <= i < n && LikeAt(t, i) == l
  {
    hide Field;
    if n > 0 {
      LikesRead(t, n - 1);
    }
  }

  lemma {:induction false} SubsRead(t: Table, n: nat)
    requires WellFormed(t) && n <= |t.rows|
    ensures forall x :: x in SubsIn(t, n) <==>
              exists i :: 0 <= i < n && SubAt(t, i) == x
  {
    hide Field;
    if n > 0 {
      SubsRead(t, n - 1);
    }
  }

  // Channels are never deleted, so there are as many as the last id says.
  ghost function Decoded(s: Schema): T.Tables
    requires Proper(s)
  {
    var channels, posts, cmts := TableOf(s, Channels), TableOf(s, Posts), TableOf(s, Comments);
    var likes, subs := TableOf(s, Likes), TableOf(s, Subscriptions);
    var chans := ChannelsIn(channels, |channels.rows|);
    T.Tables(|chans|, chans, PostsIn(posts, |posts.rows|), CommentsIn(cmts, |cmts.rows|), LikesIn(likes, |likes.rows|),
             SubsIn(subs, |subs.rows|))
  }

  // The tables read are the rows stored, and nothing else.
  lemma DecodedReads(s: Schema)
    requires Proper(s)
    requires forall id :: id in {Channels, Posts, Comments, Likes, Subscriptions} ==> Newest(id) in s.tables
    ensures var d := Decoded(s);
            var channels, posts := s.tables[Newest(Channels)], s.tables[Newest(Posts)];
            var cmts := s.tables[Newest(Comments)];
            var likes, subs := s.tables[Newest(Likes)], s.tables[Newest(Subscriptions)];
            && d.lastChanId == |d.channels|
            && (forall c :: c in d.channels <==> exists i :: 0 <= i < |channels.rows| && ChannelIdAt(channels, i) == c)
            && (forall k :: k in d.posts <==> exists i :: 0 <= i < |posts.rows| && PostKeyAt(posts, i) == k)
            && (forall u :: u in d.cmts <==> exists i :: 0 <= i < |cmts.rows| && SubjectAt(cmts, i) == u)
            && (forall l :: l in d.likes <==> exists i :: 0 <= i < |likes.rows| && LikeAt(likes, i) == l)
            && (forall x :: x in d.subs <==> exists i :: 0 <= i < |subs.rows| && SubAt(subs, i) == x)
  {
    hide ChannelsIn, PostsIn, CommentsIn, LikesIn, SubsIn, Field;
    assert Newest(Channels) in s.tables && Newest(Posts) in s.tables && Newest(Comments) in s.tables;
    assert Newest(Likes) in s.tables && Newest(Subscriptions) in s.tables;
    ChannelsRead(s.tables[Newest(Channels)], |s.tables[Newest(Channels)].rows|);
    PostsRead(s.tables[Newest(Posts)], |s.tables[Newest(Posts)].rows|);
    CommentsRead(s.tables[Newest(Comments)], |s.tables[Newest(Comments)].rows|);
    LikesRead(s.tables[Newest(Likes)], |s.tables[Newest(Likes)].rows|);
    SubsRead(s.tables[Newest(Subscriptions)], |s.tables[Newest(Subscriptions)].rows|);
  }

  // Two tables with the same rows, as far as some columns go.
  ghost predicate SameFields(was: Table, now: Table, cols: set<Column>) {
    && WellFormed(was) && WellFormed(now) && |now.rows| == |was.rows|
    && forall i, c :: 0 <= i < |was.rows| && c in cols ==> Field(now, i, c) == Field(was, i, c)
  }

  lemma {:induction false} SameChannels(was: Table, now: Table, n: nat)
    requires SameFields(was, now, {ChannelId, Name, Intro, NextPostId, Subscribers}) && n <= |was.rows|
    ensures ChannelsIn(now, n) == ChannelsIn(was, n)
  {
    hide Field;
    if n > 0 {
      SameChannels(was, now, n - 1);
    }
  }

  lemma {:induction false} SamePosts(was: Table, now: Table, n: nat)
    requires SameFields(was, now, {ChannelId, PostId, NextCommentId, LikeCount}) && n <= |was.rows|
    ensures PostsIn(now, n) == PostsIn(was, n)
  {
    hide Field;
    if n > 0 {
      SamePosts(was, now, n - 1);
    }
  }

  lemma {:induction false} SameComments(was: Table, now: Table, n: nat)
    requires SameFields(was, now, {ChannelId, PostId, CommentId, UserId, LikeCount}) && n <= |was.rows|
    ensures CommentsIn(now, n) == CommentsIn(was, n)
  {
    hide Field;
    if n > 0 {
      SameComments(was, now, n - 1);
    }
  }

  lemma {:induction false} SameLikes(was: Table, now: Table, n: nat)
    requires SameFields(was, now, {ChannelId, PostId, CommentId, UserId}) && n <= |was.rows|
    ensures LikesIn(now, n) == LikesIn(was, n)
  {
    hide Field;
    if n > 0 {
      SameLikes(was, now, n - 1);
    }
  }

  lemma {:induction false} SameSubs(was: Table, now: Table, n: nat)
    requires SameFields(was, now, {UserId, ChannelId}) && n <= |was.rows|
    ensures SubsIn(now, n) == SubsIn(was, n)
  {
    hide Field;
    if n > 0 {
      SameSubs(was, now, n - 1);
    }
  }

  // Whatever a table was taken for, its carried columns read as before.
  lemma OutcomeSameFields(s: Schema, s': Schema, op: Op, c: Condition, cols: set<Column>)
    requires Proper(s) && Proper(s') && Outcome(s, s', op, c)
    requires forall col :: col in cols ==> Carried(op, col)
    ensures SameFields(TableOf(s, op.id), TableOf(s', op.id), cols)
  {
    hide Carried, ValueAt;
    var was, now := TableOf(s, op.id), TableOf(s', op.id);
    if c.Older? {
      forall i, col | 0 <= i < |was.rows| && col in cols
        ensures Field(now, i, col) == Field(was, i, col)
      {
        assert KeptAt(was, now, i, col);
      }
    }
  }

  // One registered table of a successful start-up.
  lemma StartUpSameFields(s: Schema, now: Value, looks: seq<Look>, faults: seq<bool>, i: nat, cols: set<Column>)
    requires Proper(s) && |looks| == 9 && i < 9 && RunOps(s, Registry(now), looks, 0, faults).Some?
    requires forall col :: col in cols ==> Carried(Registry(now)[i], col)
    ensures var s', id := RunOps(s, Registry(now), looks, 0, faults).value, Registry(now)[i].id;
            Proper(s') && SameFields(TableOf(s, id), TableOf(s', id), cols)
  {
    hide RunOps, Outcome, Carried, SameFields;
    var s' := RunOps(s, Registry(now), looks, 0, faults).value;
    StartUpKeepsMeaning(s, now, looks, faults, i);
    OutcomeSameFields(s, s', Registry(now)[i], Judged(s, Registry(now)[i], looks[i]), cols);
  }

  // Every successful start-up, under any look-ups and faults and for every mix of old,
  // current and missing tables, leaves all counters and all rows they count as they were;
  // so if each counter was right, it is.
  lemma StartUpKeepsCounters(s: Schema, now: Value, looks: seq<Look>, faults: seq<bool>)
    requires Proper(s) && |looks| == 9 && RunOps(s, Registry(now), looks, 0, faults).Some?
    ensures var s' := RunOps(s, Registry(now), looks, 0, faults).value;
            Proper(s') && Decoded(s') == Decoded(s) && (T.Counted(Decoded(s')) <==> T.Counted(Decoded(s)))
  {
    hide RunOps, Carried, SameFields, T.Counted, ChannelsIn, PostsIn, CommentsIn, LikesIn, SubsIn, TableOf;
    var s' := RunOps(s, Registry(now), looks, 0, faults).value;
    ChannelsCarried();
    PostsCarried();
    CommentsCarried();
    LikesCarried();
    SubscriptionsCarried(now);
    StartUpSameFields(s, now, looks, faults, 0, {ChannelId, Name, Intro, NextPostId, Subscribers});
    StartUpSameFields(s, now, looks, faults, 1, {ChannelId, PostId, NextCommentId, LikeCount});
    StartUpSameFields(s, now, looks, faults, 2, {ChannelId, PostId, CommentId, UserId, LikeCount});
    StartUpSameFields(s, now, looks, faults, 4, {UserId, ChannelId});
    StartUpSameFields(s, now, looks, faults, 5, {ChannelId, PostId, CommentId, UserId});
    DecodedSame(s, s');
  }

  lemma SameRows(was: Table, now: Table, cols: set<Column>)
    requires SameFields(was, now, cols)
    ensures |now.rows| == |was.rows|
  {
  }

  lemma DecodedSame(s: Schema, s': Schema)
    requires Proper(s) && Proper(s')
    requires SameFields(TableOf(s, Channels), TableOf(s', Channels), {ChannelId, Name, Intro, NextPostId, Subscribers})
    requires SameFields(TableOf(s, Posts), TableOf(s', Posts), {ChannelId, PostId, NextCommentId, LikeCount})
    requires SameFields(TableOf(s, Comments), TableOf(s', Comments), {ChannelId, PostId, CommentId, UserId, LikeCount})
    requires SameFields(TableOf(s, Subscriptions), TableOf(s', Subscriptions), {UserId, ChannelId})
    requires SameFields(TableOf(s, Likes), TableOf(s', Likes), {ChannelId, PostId, CommentId, UserId})
    ensures Decoded(s') == Decoded(s)
  {
    hide SameFields, ChannelsIn, PostsIn, CommentsIn, LikesIn, SubsIn, TableOf;
    SameRows(TableOf(s, Channels), TableOf(s', Channels), {ChannelId, Name, Intro, NextPostId, Subscribers});
    SameRows(TableOf(s, Posts), TableOf(s', Posts), {ChannelId, PostId, NextCommentId, LikeCount});
    SameRows(TableOf(s, Comments), TableOf(s', Comments), {ChannelId, PostId, CommentId, UserId, LikeCount});
    SameRows(TableOf(s, Subscriptions), TableOf(s', Subscriptions), {UserId, ChannelId});
    SameRows(TableOf(s, Likes), TableOf(s', Likes), {ChannelId, PostId, CommentId, UserId});
    SameChannels(TableOf(s, Channels), TableOf(s', Channels), |TableOf(s, Channels).rows|);
    SamePosts(TableOf(s, Posts), TableOf(s', Posts), |TableOf(s, Posts).rows|);
    SameComments(TableOf(s, Comments), TableOf(s', Comments), |TableOf(s, Comments).rows|);
    SameSubs(TableOf(s, Subscriptions), TableOf(s', Subscriptions), |TableOf(s, Subscriptions).rows|);
    SameLikes(TableOf(s, Likes), TableOf(s', Likes), |TableOf(s, Likes).rows|);
  }

  // Starting the service, successfully or not, never changes a counter or what it counts.
  method StartUp(c: Connection, now: Value, luck: Luck) returns (rc: int)
    requires Proper(c.stored) && c.working == c.stored && |luck.looks| == 9
    modifies c
    ensures Proper(c.stored) && Decoded(c.stored) == Decoded(old(c.stored))
    ensures rc == 0 ==> forall i :: 0 <= i < 9 ==>
              Outcome(old(c.stored), c.stored, Registry(now)[i], Judged(old(c.stored), Registry(now)[i], luck.looks[i]))
  {
    hide RunOps, Decoded, Registered, Outcome, Proper, AllReady, Statements, T.Counted;
    RegistryFits(now);
    rc := c.DbInit(Registry(now), luck);
    if rc == 0 {
      StartUpKeepsCounters(old(c.stored), now, luck.looks, luck.faults);
    }
  }
}
