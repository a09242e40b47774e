/** What an upgrade makes of every row, column by column: what is kept and what is reset, for
    the six tables that have a backup; and the columns and indexes of all nine. */
module MigratedRows {
  import opened Wrappers
  import opened Migration

  // The value of a column the table has.
  ghost predicate Has(t: Table, cols: set<Column>) {
    forall c :: c in cols ==> c in t.cols
  }

  // A registered table after a successful start-up that took it for an older one.
  lemma Upgrading(s: Schema, now: Value, looks: seq<Look>, faults: seq<bool>, k: nat)
    requires Proper(s) && |looks| == 9 && k < 6 && RunOps(s, Registry(now), looks, 0, faults).Some?
    requires Judged(s, Registry(now)[k], looks[k]).Older?
    ensures var s', op := RunOps(s, Registry(now), looks, 0, faults).value, Registry(now)[k];
            && Newest(op.id) in s.tables && Newest(op.id) in s'.tables && Backup(op.id) in s'.tables
            && Selectable(op.retrieve, s.tables[Newest(op.id)].cols)
            && s'.tables[Newest(op.id)] == Table(op.cols, SelectAll(op.retrieve, s.tables[Newest(op.id)]))
  {
    hide RunOps, SelectAll, Registered, Selectable, Judged;
    RegistryFits(now);
    RunOpsEffect(s, Registry(now), looks, 0, faults, k);
  }

  // One item of a SELECT list.
  lemma Selected(exprs: seq<Expr>, t: Table, i: nat, j: nat)
    requires WellFormed(t) && Selectable(exprs, t.cols) && i < |t.rows| && j < |exprs|
    ensures |Select(exprs, t.cols, t.rows[i])| == |exprs|
    ensures match exprs[j]
            case Col(c) => c in t.cols && Select(exprs, t.cols, t.rows[i])[j] == ValueAt(t, i, c)
            case Const(v) => Select(exprs, t.cols, t.rows[i])[j] == v
  {
  }

  lemma ChannelsKept(t: Table)
    requires Selectable(CHANNELS.retrieve, t.cols)
    ensures Has(t, {ChannelId, CreatedAt, UpdatedAt, Name, Intro, NextPostId, Subscribers, Avatar})
  {
    assert CHANNELS.retrieve[0] == Col(ChannelId);
    assert CHANNELS.retrieve[1] == Col(CreatedAt);
    assert CHANNELS.retrieve[2] == Col(UpdatedAt);
    assert CHANNELS.retrieve[3] == Col(Name);
    assert CHANNELS.retrieve[4] == Col(Intro);
    assert CHANNELS.retrieve[5] == Col(NextPostId);
    assert CHANNELS.retrieve[6] == Col(Subscribers);
    assert CHANNELS.retrieve[12] == Col(Avatar);
  }

  lemma ChannelsRow(t: Table, i: nat)
    requires WellFormed(t) && Selectable(CHANNELS.retrieve, t.cols) && i < |t.rows|
    requires Has(t, {ChannelId, CreatedAt, UpdatedAt, Name, Intro, NextPostId, Subscribers, Avatar})
    ensures Select(CHANNELS.retrieve, t.cols, t.rows[i]) ==
            [ValueAt(t, i, ChannelId), ValueAt(t, i, CreatedAt), ValueAt(t, i, UpdatedAt), ValueAt(t, i, Name),
             ValueAt(t, i, Intro), ValueAt(t, i, NextPostId), ValueAt(t, i, Subscribers), Num(0), Str("NA"),
             Str("NA"), Str("NA"), Str("NA"), ValueAt(t, i, Avatar)]
  {
    hide Select, ValueAt, Selectable;
    var r := Select(CHANNELS.retrieve, t.cols, t.rows[i]);
    Selected(CHANNELS.retrieve, t, i, 0);
    Selected(CHANNELS.retrieve, t, i, 1);
    Selected(CHANNELS.retrieve, t, i, 2);
    Selected(CHANNELS.retrieve, t, i, 3);
    Selected(CHANNELS.retrieve, t, i, 4);
    Selected(CHANNELS.retrieve, t, i, 5);
    Selected(CHANNELS.retrieve, t, i, 6);
    Selected(CHANNELS.retrieve, t, i, 7);
    Selected(CHANNELS.retrieve, t, i, 8);
    Selected(CHANNELS.retrieve, t, i, 9);
    Selected(CHANNELS.retrieve, t, i, 10);
    Selected(CHANNELS.retrieve, t, i, 11);
    Selected(CHANNELS.retrieve, t, i, 12);
  }

  // Channels: what is kept of each row, and what is reset.
  lemma ChannelsUpgraded(s: Schema, now: Value, looks: seq<Look>, faults: seq<bool>)
    requires Proper(s) && |looks| == 9 && RunOps(s, Registry(now), looks, 0, faults).Some?
    requires Judged(s, Registry(now)[0], looks[0]).Older?
    ensures var s', id := RunOps(s, Registry(now), looks, 0, faults).value, Newest(Channels);
            && id in s.tables && id in s'.tables && Backup(Channels) in s'.tables
            && var t, t' := s.tables[id], s'.tables[id];
            && Has(t, {ChannelId, CreatedAt, UpdatedAt, Name, Intro, NextPostId, Subscribers, Avatar})
            && t'.cols ==
               [ChannelId, CreatedAt, UpdatedAt, Name, Intro, NextPostId, Subscribers, Status, Iid, TipMethods,
                Proof, Memo, Avatar]
            && |t'.rows| == |t.rows|
            && forall i :: 0 <= i < |t.rows| ==>
                 t'.rows[i] ==
                 [ValueAt(t, i, ChannelId), ValueAt(t, i, CreatedAt), ValueAt(t, i, UpdatedAt),
                  ValueAt(t, i, Name), ValueAt(t, i, Intro), ValueAt(t, i, NextPostId),
                  ValueAt(t, i, Subscribers), Num(0), Str("NA"), Str("NA"), Str("NA"), Str("NA"),
                  ValueAt(t, i, Avatar)]
  {
    hide RunOps, Judged, Selectable, Select, Has;
    Upgrading(s, now, looks, faults, 0);
    var t := s.tables[Newest(Channels)];
    ChannelsKept(t);
    forall i | 0 <= i < |t.rows|
      ensures Select(CHANNELS.retrieve, t.cols, t.rows[i]) ==
              [ValueAt(t, i, ChannelId), ValueAt(t, i, CreatedAt), ValueAt(t, i, UpdatedAt),
               ValueAt(t, i, Name), ValueAt(t, i, Intro), ValueAt(t, i, NextPostId),
               ValueAt(t, i, Subscribers), Num(0), Str("NA"), Str("NA"), Str("NA"), Str("NA"),
               ValueAt(t, i, Avatar)]
    {
      ChannelsRow(t, i);
    }
  }

  lemma PostsKept(t: Table)
    requires Selectable(POSTS.retrieve, t.cols)
    ensures Has(t, {ChannelId, PostId, CreatedAt, UpdatedAt, NextCommentId, LikeCount, Status, Content})
  {
    assert POSTS.retrieve[0] == Col(ChannelId);
    assert POSTS.retrieve[1] == Col(PostId);
    assert POSTS.retrieve[2] == Col(CreatedAt);
    assert POSTS.retrieve[3] == Col(UpdatedAt);
    assert POSTS.retrieve[4] == Col(NextCommentId);
    assert POSTS.retrieve[5] == Col(LikeCount);
    assert POSTS.retrieve[6] == Col(Status);
    assert POSTS.retrieve[13] == Col(Content);
  }

  lemma PostsRow(t: Table, i: nat)
    requires WellFormed(t) && Selectable(POSTS.retrieve, t.cols) && i < |t.rows|
    requires Has(t, {ChannelId, PostId, CreatedAt, UpdatedAt, NextCommentId, LikeCount, Status, Content})
    ensures Select(POSTS.retrieve, t.cols, t.rows[i]) ==
            [ValueAt(t, i, ChannelId), ValueAt(t, i, PostId), ValueAt(t, i, CreatedAt),
             ValueAt(t, i, UpdatedAt), ValueAt(t, i, NextCommentId), ValueAt(t, i, LikeCount),
             ValueAt(t, i, Status), Str("NA"), Str("NA"), Str("NA"), Str("NA"), Str("NA"), Blob([0xA0]),
             ValueAt(t, i, Content)]
  {
    hide Select, ValueAt, Selectable;
    var r := Select(POSTS.retrieve, t.cols, t.rows[i]);
    Selected(POSTS.retrieve, t, i, 0);
    Selected(POSTS.retrieve, t, i, 1);
    Selected(POSTS.retrieve, t, i, 2);
    Selected(POSTS.retrieve, t, i, 3);
    Selected(POSTS.retrieve, t, i, 4);
    Selected(POSTS.retrieve, t, i, 5);
    Selected(POSTS.retrieve, t, i, 6);
    Selected(POSTS.retrieve, t, i, 7);
    Selected(POSTS.retrieve, t, i, 8);
    Selected(POSTS.retrieve, t, i, 9);
    Selected(POSTS.retrieve, t, i, 10);
    Selected(POSTS.retrieve, t, i, 11);
    Selected(POSTS.retrieve, t, i, 12);
    Selected(POSTS.retrieve, t, i, 13);
  }

  // Posts: what is kept of each row, and what is reset.
  lemma PostsUpgraded(s: Schema, now: Value, looks: seq<Look>, faults: seq<bool>)
    requires Proper(s) && |looks| == 9 && RunOps(s, Registry(now), looks, 0, faults).Some?
    requires Judged(s, Registry(now)[1], looks[1]).Older?
    ensures var s', id := RunOps(s, Registry(now), looks, 0, faults).value, Newest(Posts);
            && id in s.tables && id in s'.tables && Backup(Posts) in s'.tables
            && var t, t' := s.tables[id], s'.tables[id];
            && Has(t, {ChannelId, PostId, CreatedAt, UpdatedAt, NextCommentId, LikeCount, Status, Content})
            && t'.cols ==
               [ChannelId, PostId, CreatedAt, UpdatedAt, NextCommentId, LikeCount, Status, Iid, HashId, Proof,
                OriginPostUrl, Memo, Thumbnails, Content]
            && |t'.rows| == |t.rows|
            && forall i :: 0 <= i < |t.rows| ==>
                 t'.rows[i] ==
                 [ValueAt(t, i, ChannelId), ValueAt(t, i, PostId), ValueAt(t, i, CreatedAt),
                  ValueAt(t, i, UpdatedAt), ValueAt(t, i, NextCommentId), ValueAt(t, i, LikeCount),
                  ValueAt(t, i, Status), Str("NA"), Str("NA"), Str("NA"), Str("NA"), Str("NA"), Blob([0xA0]),
                  ValueAt(t, i, Content)]
  {
    hide RunOps, Judged, Selectable, Select, Has;
    Upgrading(s, now, looks, faults, 1);
    var t := s.tables[Newest(Posts)];
    PostsKept(t);
    forall i | 0 <= i < |t.rows|
      ensures Select(POSTS.retrieve, t.cols, t.rows[i]) ==
              [ValueAt(t, i, ChannelId), ValueAt(t, i, PostId), ValueAt(t, i, CreatedAt),
               ValueAt(t, i, UpdatedAt), ValueAt(t, i, NextCommentId), ValueAt(t, i, LikeCount),
               ValueAt(t, i, Status), Str("NA"), Str("NA"), Str("NA"), Str("NA"), Str("NA"), Blob([0xA0]),
               ValueAt(t, i, Content)]
    {
      PostsRow(t, i);
    }
  }

  lemma CommentsKept(t: Table)
    requires Selectable(COMMENTS.retrieve, t.cols)
    ensures Has(t, {ChannelId, PostId, CommentId, RefcommentId, UserId, CreatedAt, UpdatedAt, LikeCount, Status,
                    Content})
  {
    assert COMMENTS.retrieve[0] == Col(ChannelId);
    assert COMMENTS.retrieve[1] == Col(PostId);
    assert COMMENTS.retrieve[2] == Col(CommentId);
    assert COMMENTS.retrieve[3] == Col(RefcommentId);
    assert COMMENTS.retrieve[4] == Col(UserId);
    assert COMMENTS.retrieve[5] == Col(CreatedAt);
    assert COMMENTS.retrieve[6] == Col(UpdatedAt);
    assert COMMENTS.retrieve[7] == Col(LikeCount);
    assert COMMENTS.retrieve[8] == Col(Status);
    assert COMMENTS.retrieve[14] == Col(Content);
  }

  lemma CommentsRow(t: Table, i: nat)
    requires WellFormed(t) && Selectable(COMMENTS.retrieve, t.cols) && i < |t.rows|
    requires Has(t, {ChannelId, PostId, CommentId, RefcommentId, UserId, CreatedAt, UpdatedAt, LikeCount, Status,
                    Content})
    ensures Select(COMMENTS.retrieve, t.cols, t.rows[i]) ==
            [ValueAt(t, i, ChannelId), ValueAt(t, i, PostId), ValueAt(t, i, CommentId),
             ValueAt(t, i, RefcommentId), ValueAt(t, i, UserId), ValueAt(t, i, CreatedAt),
             ValueAt(t, i, UpdatedAt), ValueAt(t, i, LikeCount), ValueAt(t, i, Status), Str("NA"), Str("NA"),
             Str("NA"), Str("NA"), Blob([0xA0]), ValueAt(t, i, Content)]
  {
    hide Select, ValueAt, Selectable;
    var r := Select(COMMENTS.retrieve, t.cols, t.rows[i]);
    Selected(COMMENTS.retrieve, t, i, 0);
    Selected(COMMENTS.retrieve, t, i, 1);
    Selected(COMMENTS.retrieve, t, i, 2);
    Selected(COMMENTS.retrieve, t, i, 3);
    Selected(COMMENTS.retrieve, t, i, 4);
    Selected(COMMENTS.retrieve, t, i, 5);
    Selected(COMMENTS.retrieve, t, i, 6);
    Selected(COMMENTS.retrieve, t, i, 7);
    Selected(COMMENTS.retrieve, t, i, 8);
    Selected(COMMENTS.retrieve, t, i, 9);
    Selected(COMMENTS.retrieve, t, i, 10);
    Selected(COMMENTS.retrieve, t, i, 11);
    Selected(COMMENTS.retrieve, t, i, 12);
    Selected(COMMENTS.retrieve, t, i, 13);
    Selected(COMMENTS.retrieve, t, i, 14);
  }

  // Comments: what is kept of each row, and what is reset.
  lemma CommentsUpgraded(s: Schema, now: Value, looks: seq<Look>, faults: seq<bool>)
    requires Proper(s) && |looks| == 9 && RunOps(s, Registry(now), looks, 0, faults).Some?
    requires Judged(s, Registry(now)[2], looks[2]).Older?
    ensures var s', id := RunOps(s, Registry(now), looks, 0, faults).value, Newest(Comments);
            && id in s.tables && id in s'.tables && Backup(Comments) in s'.tables
            && var t, t' := s.tables[id], s'.tables[id];
            && Has(t, {ChannelId, PostId, CommentId, RefcommentId, UserId, CreatedAt, UpdatedAt, LikeCount, Status,
                    Content})
            && t'.cols ==
               [ChannelId, PostId, CommentId, RefcommentId, UserId, CreatedAt, UpdatedAt, LikeCount, Status,
                Iid, HashId, Proof, Memo, Thumbnails, Content]
            && |t'.rows| == |t.rows|
            && forall i :: 0 <= i < |t.rows| ==>
                 t'.rows[i] ==
                 [ValueAt(t, i, ChannelId), ValueAt(t, i, PostId), ValueAt(t, i, CommentId),
                  ValueAt(t, i, RefcommentId), ValueAt(t, i, UserId), ValueAt(t, i, CreatedAt),
                  ValueAt(t, i, UpdatedAt), ValueAt(t, i, LikeCount), ValueAt(t, i, Status), Str("NA"),
                  Str("NA"), Str("NA"), Str("NA"), Blob([0xA0]), ValueAt(t, i, Content)]
  {
    hide RunOps, Judged, Selectable, Select, Has;
    Upgrading(s, now, looks, faults, 2);
    var t := s.tables[Newest(Comments)];
    CommentsKept(t);
    forall i | 0 <= i < |t.rows|
      ensures Select(COMMENTS.retrieve, t.cols, t.rows[i]) ==
              [ValueAt(t, i, ChannelId), ValueAt(t, i, PostId), ValueAt(t, i, CommentId),
               ValueAt(t, i, RefcommentId), ValueAt(t, i, UserId), ValueAt(t, i, CreatedAt),
               ValueAt(t, i, UpdatedAt), ValueAt(t, i, LikeCount), ValueAt(t, i, Status), Str("NA"), Str("NA"),
               Str("NA"), Str("NA"), Blob([0xA0]), ValueAt(t, i, Content)]
    {
      CommentsRow(t, i);
    }
  }

  lemma UsersKept(now: Value, t: Table)
    requires Selectable(UsersOp(now).retrieve, t.cols)
    ensures Has(t, {UserId, DidColumn, Name, Email})
  {
    assert UsersOp(now).retrieve[0] == Col(UserId);
    assert UsersOp(now).retrieve[1] == Col(DidColumn);
    assert UsersOp(now).retrieve[2] == Col(Name);
    assert UsersOp(now).retrieve[3] == Col(Email);
  }

  lemma UsersRow(now: Value, t: Table, i: nat)
    requires WellFormed(t) && Selectable(UsersOp(now).retrieve, t.cols) && i < |t.rows|
    requires Has(t, {UserId, DidColumn, Name, Email})
    ensures Select(UsersOp(now).retrieve, t.cols, t.rows[i]) ==
            [ValueAt(t, i, UserId), ValueAt(t, i, DidColumn), ValueAt(t, i, Name), ValueAt(t, i, Email),
             Str("NA"), now, Str("NA"), Blob([0xA0])]
  {
    hide Select, ValueAt, Selectable;
    var r := Select(UsersOp(now).retrieve, t.cols, t.rows[i]);
    Selected(UsersOp(now).retrieve, t, i, 0);
    Selected(UsersOp(now).retrieve, t, i, 1);
    Selected(UsersOp(now).retrieve, t, i, 2);
    Selected(UsersOp(now).retrieve, t, i, 3);
    Selected(UsersOp(now).retrieve, t, i, 4);
    Selected(UsersOp(now).retrieve, t, i, 5);
    Selected(UsersOp(now).retrieve, t, i, 6);
    Selected(UsersOp(now).retrieve, t, i, 7);
  }

  // Users: what is kept of each row, and what is reset.
  lemma UsersUpgraded(s: Schema, now: Value, looks: seq<Look>, faults: seq<bool>)
    requires Proper(s) && |looks| == 9 && RunOps(s, Registry(now), looks, 0, faults).Some?
    requires Judged(s, Registry(now)[3], looks[3]).Older?
    ensures var s', id := RunOps(s, Registry(now), looks, 0, faults).value, Newest(Users);
            && id in s.tables && id in s'.tables && Backup(Users) in s'.tables
            && var t, t' := s.tables[id], s'.tables[id];
            && Has(t, {UserId, DidColumn, Name, Email})
            && t'.cols ==
               [UserId, DidColumn, Name, Email, DisplayName, UpdateAt, Memo, Avatar]
            && |t'.rows| == |t.rows|
            && forall i :: 0 <= i < |t.rows| ==>
                 t'.rows[i] ==
                 [ValueAt(t, i, UserId), ValueAt(t, i, DidColumn), ValueAt(t, i, Name), ValueAt(t, i, Email),
                  Str("NA"), now, Str("NA"), Blob([0xA0])]
  {
    hide RunOps, Judged, Selectable, Select, Has;
    Upgrading(s, now, looks, faults, 3);
    var t := s.tables[Newest(Users)];
    UsersKept(now, t);
    forall i | 0 <= i < |t.rows|
      ensures Select(UsersOp(now).retrieve, t.cols, t.rows[i]) ==
              [ValueAt(t, i, UserId), ValueAt(t, i, DidColumn), ValueAt(t, i, Name), ValueAt(t, i, Email),
               Str("NA"), now, Str("NA"), Blob([0xA0])]
    {
      UsersRow(now, t, i);
    }
  }

  lemma SubscriptionsKept(now: Value, t: Table)
    requires Selectable(SubscriptionsOp(now).retrieve, t.cols)
    ensures Has(t, {UserId, ChannelId})
  {
    assert SubscriptionsOp(now).retrieve[0] == Col(UserId);
    assert SubscriptionsOp(now).retrieve[1] == Col(ChannelId);
  }

  lemma SubscriptionsRow(now: Value, t: Table, i: nat)
    requires WellFormed(t) && Selectable(SubscriptionsOp(now).retrieve, t.cols) && i < |t.rows|
    requires Has(t, {UserId, ChannelId})
    ensures Select(SubscriptionsOp(now).retrieve, t.cols, t.rows[i]) ==
            [ValueAt(t, i, UserId), ValueAt(t, i, ChannelId), now, Str("NA"), Str("NA")]
  {
    hide Select, ValueAt, Selectable;
    var r := Select(SubscriptionsOp(now).retrieve, t.cols, t.rows[i]);
    Selected(SubscriptionsOp(now).retrieve, t, i, 0);
    Selected(SubscriptionsOp(now).retrieve, t, i, 1);
    Selected(SubscriptionsOp(now).retrieve, t, i, 2);
    Selected(SubscriptionsOp(now).retrieve, t, i, 3);
    Selected(SubscriptionsOp(now).retrieve, t, i, 4);
  }

  // Subscriptions: what is kept of each row, and what is reset.
  lemma SubscriptionsUpgraded(s: Schema, now: Value, looks: seq<Look>, faults: seq<bool>)
    requires Proper(s) && |looks| == 9 && RunOps(s, Registry(now), looks, 0, faults).Some?
    requires Judged(s, Registry(now)[4], looks[4]).Older?
    ensures var s', id := RunOps(s, Registry(now), looks, 0, faults).value, Newest(Subscriptions);
            && id in s.tables && id in s'.tables && Backup(Subscriptions) in s'.tables
            && var t, t' := s.tables[id], s'.tables[id];
            && Has(t, {UserId, ChannelId})
            && t'.cols ==
               [UserId, ChannelId, CreateAt, Proof, Memo]
            && |t'.rows| == |t.rows|
            && forall i :: 0 <= i < |t.rows| ==>
                 t'.rows[i] ==
                 [ValueAt(t, i, UserId), ValueAt(t, i, ChannelId), now, Str("NA"), Str("NA")]
  {
    hide RunOps, Judged, Selectable, Select, Has;
    Upgrading(s, now, looks, faults, 4);
    var t := s.tables[Newest(Subscriptions)];
    SubscriptionsKept(now, t);
    forall i | 0 <= i < |t.rows|
      ensures Select(SubscriptionsOp(now).retrieve, t.cols, t.rows[i]) ==
              [ValueAt(t, i, UserId), ValueAt(t, i, ChannelId), now, Str("NA"), Str("NA")]
    {
      SubscriptionsRow(now, t, i);
    }
  }

  lemma LikesKept(t: Table)
    requires Selectable(LIKES.retrieve, t.cols)
    ensures Has(t, {ChannelId, PostId, CommentId, UserId, CreatedAt})
  {
    assert LIKES.retrieve[0] == Col(ChannelId);
    assert LIKES.retrieve[1] == Col(PostId);
    assert LIKES.retrieve[2] == Col(CommentId);
    assert LIKES.retrieve[3] == Col(UserId);
    assert LIKES.retrieve[4] == Col(CreatedAt);
  }

  lemma LikesRow(t: Table, i: nat)
    requires WellFormed(t) && Selectable(LIKES.retrieve, t.cols) && i < |t.rows|
    requires Has(t, {ChannelId, PostId, CommentId, UserId, CreatedAt})
    ensures Select(LIKES.retrieve, t.cols, t.rows[i]) ==
            [ValueAt(t, i, ChannelId), ValueAt(t, i, PostId), ValueAt(t, i, CommentId), ValueAt(t, i, UserId),
             ValueAt(t, i, CreatedAt), Str("NA"), Str("NA")]
  {
    hide Select, ValueAt, Selectable;
    var r := Select(LIKES.retrieve, t.cols, t.rows[i]);
    Selected(LIKES.retrieve, t, i, 0);
    Selected(LIKES.retrieve, t, i, 1);
    Selected(LIKES.retrieve, t, i, 2);
    Selected(LIKES.retrieve, t, i, 3);
    Selected(LIKES.retrieve, t, i, 4);
    Selected(LIKES.retrieve, t, i, 5);
    Selected(LIKES.retrieve, t, i, 6);
  }

  // Likes: what is kept of each row, and what is reset.
  lemma LikesUpgraded(s: Schema, now: Value, looks: seq<Look>, faults: seq<bool>)
    requires Proper(s) && |looks| == 9 && RunOps(s, Registry(now), looks, 0, faults).Some?
    requires Judged(s, Registry(now)[5], looks[5]).Older?
    ensures var s', id := RunOps(s, Registry(now), looks, 0, faults).value, Newest(Likes);
            && id in s.tables && id in s'.tables && Backup(Likes) in s'.tables
            && var t, t' := s.tables[id], s'.tables[id];
            && Has(t, {ChannelId, PostId, CommentId, UserId, CreatedAt})
            && t'.cols ==
               [ChannelId, PostId, CommentId, UserId, CreatedAt, Proof, Memo]
            && |t'.rows| == |t.rows|
            && forall i :: 0 <= i < |t.rows| ==>
                 t'.rows[i] ==
                 [ValueAt(t, i, ChannelId), ValueAt(t, i, PostId), ValueAt(t, i, CommentId),
                  ValueAt(t, i, UserId), ValueAt(t, i, CreatedAt), Str("NA"), Str("NA")]
  {
    hide RunOps, Judged, Selectable, Select, Has;
    Upgrading(s, now, looks, faults, 5);
    var t := s.tables[Newest(Likes)];
    LikesKept(t);
    forall i | 0 <= i < |t.rows|
      ensures Select(LIKES.retrieve, t.cols, t.rows[i]) ==
              [ValueAt(t, i, ChannelId), ValueAt(t, i, PostId), ValueAt(t, i, CommentId),
               ValueAt(t, i, UserId), ValueAt(t, i, CreatedAt), Str("NA"), Str("NA")]
    {
      LikesRow(t, i);
    }
  }

  // A table that was missing is created empty, with these columns.
  lemma CreatedColumns(s: Schema, now: Value, looks: seq<Look>, faults: seq<bool>, k: nat)
    requires Proper(s) && |looks| == 9 && k < 9 && RunOps(s, Registry(now), looks, 0, faults).Some?
    requires Judged(s, Registry(now)[k], looks[k]).Absent?
    ensures var s', id := RunOps(s, Registry(now), looks, 0, faults).value,
                          [Channels, Posts, Comments, Users, Subscriptions, Likes, ReportedComments, Tipping,
                           Notification][k];
            && Newest(id) !in s.tables && Newest(id) in s'.tables && s'.tables[Newest(id)].rows == []
            && s'.tables[Newest(id)].cols ==
               match id
               case Channels =>
                 [ChannelId, CreatedAt, UpdatedAt, Name, Intro, NextPostId, Subscribers, Status, Iid, TipMethods, Proof,
                  Memo, Avatar]
               case Posts =>
                 [ChannelId, PostId, CreatedAt, UpdatedAt, NextCommentId, LikeCount, Status, Iid, HashId, Proof,
                  OriginPostUrl, Memo, Thumbnails, Content]
               case Comments =>
                 [ChannelId, PostId, CommentId, RefcommentId, UserId, CreatedAt, UpdatedAt, LikeCount, Status, Iid,
                  HashId, Proof, Memo, Thumbnails, Content]
               case Users => [UserId, DidColumn, Name, Email, DisplayName, UpdateAt, Memo, Avatar]
               case Subscriptions => [UserId, ChannelId, CreateAt, Proof, Memo]
               case Likes => [ChannelId, PostId, CommentId, UserId, CreatedAt, Proof, Memo]
               case ReportedComments => [ChannelId, PostId, CommentId, ReporterId, CreatedAt, Reasons]
               case Tipping =>
                 [Id, ChannelId, PostId, CreatedAt, TokenMount, TokenSymbol, Proof, UserDid, UserName, Memo]
               case Notification =>
                 [NotificationId, ChannelId, PostId, CommentId, ActionType, UserDid, UserName, CreatedAt, Memo]
  {
    hide RunOps, Registered, Judged;
    RegistryFits(now);
    RunOpsEffect(s, Registry(now), looks, 0, faults, k);
  }

  // Channels, posts and comments created or upgraded have both their indexes.
  lemma IndexesMade(s: Schema, now: Value, looks: seq<Look>, faults: seq<bool>, k: nat)
    requires Proper(s) && |looks| == 9 && k < 3 && RunOps(s, Registry(now), looks, 0, faults).Some?
    requires !Judged(s, Registry(now)[k], looks[k]).Current?
    ensures var s', id := RunOps(s, Registry(now), looks, 0, faults).value, [Channels, Posts, Comments][k];
            CreatedAtIndex(id) in s'.indexes && UpdatedAtIndex(id) in s'.indexes
  {
    hide RunOps, Registered, Judged, SelectAll, Selectable;
    RegistryFits(now);
    RunOpsEffect(s, Registry(now), looks, 0, faults, k);
  }
}
