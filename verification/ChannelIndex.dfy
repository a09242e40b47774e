/** The in-memory tables of feeds.c: channels indexed by name and by id, active
    subscribers, notification destinations, and the entries that link them. */
module ChannelIndex {
  import opened Wrappers
  import opened Tables

  type NodeId = string

  datatype ChanInfo = ChanInfo(chanId: nat, name: string, text: string, subs: int, nextPostId: nat)

  // One notification: which subscriber, on which node.
  datatype Dest = Dest(uid: nat, node: NodeId)

  class AspcList {
    var items: seq<Aspc>

    constructor ()
      ensures items == []
    {
      items := [];
    }
  }

  class Chan {
    var info: ChanInfo
    const aspcs: AspcList  // shared by a channel and its replacement

    constructor (info: ChanInfo, aspcs: AspcList)
      ensures this.info == info && this.aspcs == aspcs
    {
      this.info, this.aspcs := info, aspcs;
    }
  }

  class ActiveSuber {
    const uid: nat
    var aspcs: map<nat, Aspc>
    var ndpass: map<NodeId, Ndpas>

    constructor (uid: nat)
      ensures this.uid == uid && aspcs == map[] && ndpass == map[]
    {
      this.uid, aspcs, ndpass := uid, map[], map[];
    }
  }

  class Aspc {
    var chan: Chan
    const suber: ActiveSuber

    constructor (suber: ActiveSuber, chan: Chan)
      ensures this.suber == suber && this.chan == chan
    {
      this.suber, this.chan := suber, chan;
    }
  }

  class NotifDest {
    const nodeId: NodeId
    var ndpass: seq<Ndpas>

    constructor (nodeId: NodeId)
      ensures this.nodeId == nodeId && ndpass == []
    {
      this.nodeId, ndpass := nodeId, [];
    }
  }

  class Ndpas {
    const suber: ActiveSuber
    const dest: NotifDest

    constructor (suber: ActiveSuber, dest: NotifDest)
      ensures this.suber == suber && this.dest == dest
    {
      this.suber, this.dest := suber, dest;
    }
  }

  ghost predicate NoDup<T>(s: seq<T>) {
    forall i, j :: 0 <= i < j < |s| ==> s[i] != s[j]
  }

  lemma NoDupTail<T>(x: T, s: seq<T>)
    requires NoDup([x] + s)
    ensures NoDup(s) && x !in s
  {
    var t := [x] + s;
    forall i, j | 0 <= i < j < |s|
      ensures s[i] != s[j]
    {
      assert t[i + 1] != t[j + 1];
    }
    forall i | 0 <= i < |s|
      ensures s[i] != x
    {
      assert t[0] != t[i + 1];
    }
  }

  lemma NoDupIndex<T>(s: seq<T>, i: nat)
    requires NoDup(s) && i < |s|
    ensures s[i] !in s[..i]
  {
  }

  function Without<T(==)>(s: seq<T>, x: T): (r: seq<T>)
    ensures forall y :: y in r ==> y in s && y != x
    ensures forall y :: y in s && y != x ==> y in r
  {
    if s == [] then []
    else if s[0] == x then Without(s[1..], x)
    else [s[0]] + Without(s[1..], x)
  }

  lemma {:induction false} WithoutNoDup<T>(s: seq<T>, x: T)
    requires NoDup(s)
    ensures NoDup(Without(s, x))
  {
    if s != [] {
      assert NoDup(s[1..]);
      WithoutNoDup(s[1..], x);
      var rest := Without(s[1..], x);
      assert s[0] !in s[1..];
      assert s[0] !in rest;
    }
  }

  class Index {
    var ass: map<nat, ActiveSuber>
    var nds: map<NodeId, NotifDest>
    var chansByName: map<string, Chan>
    var chansById: map<nat, Chan>
    ghost var enabled: set<Dest>  // who asked to be notified, and where
    ghost var links: map<NodeId, seq<Ndpas>>  // the nodes' lists, a node being dropped included

    ghost function Lists(): set<AspcList>
      reads this`chansById
    {
      set c | c in chansById :: chansById[c].aspcs
    }

    ghost function Entries(): set<Aspc>
      reads this`ass, ass.Values`aspcs
    {
      set u, c | u in ass && c in ass[u].aspcs :: ass[u].aspcs[c]
    }

    // The objects the tables are made of.
    ghost function Parts(): set<object>
      reads this`ass, this`nds, this`chansById, ass.Values`aspcs
    {
      var subers: set<object>, nodes: set<object>, chans: set<object> := ass.Values, nds.Values, chansById.Values;
      var lists: set<object>, entries: set<object> := Lists(), Entries();
      subers + nodes + chans + lists + entries
    }

    // What has been added to the tables is new.
    twostate predicate OnlyNew()
      reads this`ass, this`nds, this`chansById, ass.Values`aspcs
    {
      forall p :: p in Parts() ==> p in old(Parts()) || fresh(p)
    }

    ghost function Items(): map<nat, seq<Aspc>>
      reads this`chansById, Lists()`items
    {
      map c | c in chansById :: chansById[c].aspcs.items
    }

    ghost function ChanAt(c: nat): set<Chan>
      reads this`chansById
    {
      if c in chansById then {chansById[c]} else {}
    }

    ghost function ListAt(c: nat): set<AspcList>
      reads this`chansById
    {
      if c in chansById then {chansById[c].aspcs} else {}
    }

    ghost function SuberAt(uid: nat): set<ActiveSuber>
      reads this`ass
    {
      if uid in ass then {ass[uid]} else {}
    }

    // Both channel tables hold the same channels, each under its own name and id.
    ghost predicate ChansOk()
      reads this`chansById, this`chansByName, chansById.Values`info, chansByName.Values`info
    {
      && (forall c :: c in chansById ==>
            && chansById[c].info.chanId == c
            && chansById[c].info.name in chansByName
            && chansByName[chansById[c].info.name] == chansById[c])
      && (forall n :: n in chansByName ==>
            && chansByName[n].info.name == n
            && chansByName[n].info.chanId in chansById
            && chansById[chansByName[n].info.chanId] == chansByName[n])
    }

    ghost predicate ListsOk()
      reads this`chansById, Lists()`items
    {
      && (forall c, d :: c in chansById && d in chansById && c != d ==> chansById[c].aspcs != chansById[d].aspcs)
      && (forall c :: c in chansById ==> NoDup(chansById[c].aspcs.items))
    }

    ghost predicate UidsOk()
      reads this`ass
    {
      forall u :: u in ass ==> ass[u].uid == u
    }

    ghost predicate NodesOk()
      reads this`ass, ass.Values`ndpass
    {
      forall u :: u in ass ==> ass[u].ndpass != map[]
    }

    ghost predicate NodesOkBut(uid: nat)
      reads this`ass, ass.Values`ndpass
    {
      forall u :: u in ass && u != uid ==> ass[u].ndpass != map[]
    }

    // An entry in an active subscriber's table is in the list of the channel it is filed
    // under, and points at the channel object now indexed there.
    ghost predicate Filed(u: nat, c: nat)
      requires u in ass && c in ass[u].aspcs
      reads this`ass, this`chansById, ass.Values`aspcs, Lists()`items, Entries()`chan
    {
      && c in chansById
      && ass[u].aspcs[c].chan == chansById[c]
      && ass[u].aspcs[c].suber == ass[u]
      && ass[u].aspcs[c] in chansById[c].aspcs.items
    }

    ghost predicate EntriesDown()
      reads this`ass, this`chansById, ass.Values`aspcs, Lists()`items, Entries()`chan
    {
      forall u, c :: u in ass && c in ass[u].aspcs ==> Filed(u, c)
    }

    // An entry in a channel's list is in the table of its subscriber, who is active.
    ghost predicate Owned(c: nat, a: Aspc)
      reads this`ass, ass.Values`aspcs
    {
      && a.suber.uid in ass && ass[a.suber.uid] == a.suber
      && c in a.suber.aspcs && a.suber.aspcs[c] == a
    }

    ghost predicate EntriesUp()
      reads this`ass, this`chansById, ass.Values`aspcs, Lists()`items
    {
      forall c, a :: c in chansById && a in chansById[c].aspcs.items ==> Owned(c, a)
    }

    ghost predicate KeysOk(subs: set<Sub>)
      reads this`ass, ass.Values`aspcs
    {
      forall u, c :: u in ass ==> (c in ass[u].aspcs <==> Sub(u, c) in subs)
    }

    ghost function LinkLists(): map<NodeId, seq<Ndpas>>
      reads this`nds, nds.Values`ndpass
    {
      map n | n in nds :: nds[n].ndpass
    }

    ghost predicate NdsOk()
      reads this`nds
    {
      forall n :: n in nds ==> nds[n].nodeId == n
    }

    // The same for the links between active subscribers and nodes.
    ghost predicate LinksDown()
      reads this`ass, this`links, ass.Values`ndpass
    {
      forall u, n :: u in ass && n in ass[u].ndpass ==> Linked(u, n)
    }

    ghost predicate Linked(u: nat, n: NodeId)
      requires u in ass && n in ass[u].ndpass
      reads this`ass, this`links, ass.Values`ndpass
    {
      && n in links
      && ass[u].ndpass[n].suber == ass[u] && ass[u].ndpass[n].dest.nodeId == n
      && ass[u].ndpass[n] in links[n]
    }

    ghost predicate LinksUp()
      reads this`ass, this`links, ass.Values`ndpass
    {
      && (forall n :: n in links ==> NoDup(links[n]))
      && (forall n, l :: n in links && l in links[n] ==> Linking(n, l))
    }

    ghost predicate Linking(n: NodeId, l: Ndpas)
      reads this`ass, ass.Values`ndpass
    {
      && l.suber.uid in ass && ass[l.suber.uid] == l.suber
      && n in l.suber.ndpass && l.suber.ndpass[n] == l
    }

    ghost predicate EnabledOk()
      reads this`ass, this`enabled, ass.Values`ndpass
    {
      forall d :: d in enabled <==> d.uid in ass && d.node in ass[d.uid].ndpass
    }

    // Everything about channel lists and entries.
    ghost predicate EntriesOk(subs: set<Sub>)
      reads this`ass, this`chansById, ass.Values`aspcs, Lists()`items, Entries()`chan
    {
      ListsOk() && UidsOk() && EntriesDown() && EntriesUp() && KeysOk(subs)
    }

    // Everything about nodes and links, for a subscriber that may still lack a node.
    ghost predicate LinksOkBut(uid: nat)
      reads this`ass, this`nds, this`enabled, this`links, ass.Values`ndpass, nds.Values`ndpass
    {
      && NodesOkBut(uid) && NdsOk() && links == LinkLists() && LinksDown() && LinksUp() && EnabledOk()
    }

    // Everything about nodes and links; every active subscriber has a node.
    ghost predicate LinksOk()
      reads this`ass, this`nds, this`enabled, this`links, ass.Values`ndpass, nds.Values`ndpass
    {
      NodesOk() && NdsOk() && links == LinkLists() && LinksDown() && LinksUp() && EnabledOk()
    }

    ghost predicate Valid(subs: set<Sub>)
      reads this`ass, this`nds, this`chansByName, this`chansById, this`enabled, this`links
      reads ass.Values`aspcs, ass.Values`ndpass, nds.Values`ndpass
      reads chansById.Values`info, chansByName.Values`info, Lists()`items, Entries()`chan
    {
      ChansOk() && EntriesOk(subs) && LinksOk()
    }

    ghost function Infos(): map<nat, ChanInfo>
      reads this`chansById, chansById.Values`info
    {
      map c | c in chansById :: chansById[c].info
    }

    constructor (ghost subs: set<Sub>)
      ensures Valid(subs)
      ensures ass == map[] && chansById == map[] && chansByName == map[] && enabled == {} && Parts() == {}
    {
      ass, nds, chansByName, chansById := map[], map[], map[], map[];
      enabled, links := {}, map[];
    }

    // -----------------------------------------------------------------------
    // A new channel
    // -----------------------------------------------------------------------

    twostate lemma WasEntry(new u: nat, new c: nat)
      requires u in old(ass) && c in old(ass[u].aspcs)
      ensures old(ass[u].aspcs[c]) in old(Entries())
    {
    }

    twostate predicate ChannelAdded(new chan: Chan)
      reads *
    {
      var c := chan.info.chanId;
      && ass == old(ass) && c !in old(chansById) && chansById == old(chansById)[c := chan]
      && chan.info.name !in old(chansByName) && chansByName == old(chansByName)[chan.info.name := chan]
      && chan.aspcs.items == []
      && (forall d :: d in old(chansById) ==>
            && old(chansById)[d] != chan && chansById[d].info == old(chansById[d].info)
            && chansById[d].aspcs != chan.aspcs && chansById[d].aspcs.items == old(chansById[d].aspcs.items))
      && (forall u :: u in ass ==> ass[u].aspcs == old(ass[u].aspcs))
      && (forall a :: a in old(Entries()) ==> a.chan == old(a.chan))
    }

    twostate lemma AddedChannelTables(new chan: Chan)
      requires old(ChansOk()) && ChannelAdded(chan)
      ensures ChansOk()
    {
      hide Entries;
    }

    twostate lemma AddedChannelLists(new chan: Chan)
      requires old(ListsOk()) && ChannelAdded(chan)
      ensures ListsOk()
    {
      hide Entries;
    }

    twostate lemma AddedChannelInfos(new chan: Chan)
      requires ChannelAdded(chan)
      ensures Infos() == old(Infos())[chan.info.chanId := chan.info]
    {
      hide Entries;
    }

    twostate lemma AddedChannelDownAt(new chan: Chan, new u: nat, new c: nat)
      requires old(EntriesDown()) && ChannelAdded(chan)
      requires u in ass && c in ass[u].aspcs
      ensures Filed(u, c)
    {
      hide Entries;
      assert c in old(ass[u].aspcs) && ass[u].aspcs[c] == old(ass[u].aspcs[c]);
      WasEntry(u, c);
    }

    twostate lemma AddedChannelDown(new chan: Chan)
      requires old(EntriesDown()) && ChannelAdded(chan)
      ensures EntriesDown()
    {
      hide Entries, NoDup, Filed, ChannelAdded;
      forall u, c | u in ass && c in ass[u].aspcs
        ensures Filed(u, c)
      {
        AddedChannelDownAt(chan, u, c);
      }
    }

    twostate lemma AddedChannelUpAt(new chan: Chan, new c: nat, new a: Aspc)
      requires old(EntriesUp()) && ChannelAdded(chan)
      requires c in chansById && a in chansById[c].aspcs.items
      ensures Owned(c, a)
    {
      hide Entries;
      assert a in old(chansById[c].aspcs.items);
      assert a.suber.uid in old(ass) && old(a.suber.aspcs[c]) == a;
    }

    twostate lemma AddedChannelUp(new chan: Chan)
      requires old(EntriesUp()) && ChannelAdded(chan)
      ensures EntriesUp()
    {
      hide Entries, NoDup, Owned, ChannelAdded;
      forall c, a | c in chansById && a in chansById[c].aspcs.items
        ensures Owned(c, a)
      {
        AddedChannelUpAt(chan, c, a);
      }
    }

    twostate lemma AddedChannel(new chan: Chan)
      requires old(ChansOk()) && old(ListsOk()) && old(EntriesDown()) && old(EntriesUp()) && ChannelAdded(chan)
      ensures ChansOk() && ListsOk() && EntriesDown() && EntriesUp()
      ensures Infos() == old(Infos())[chan.info.chanId := chan.info]
    {
      hide ChannelAdded, ChansOk, ListsOk, EntriesDown, EntriesUp;
      AddedChannelTables(chan);
      AddedChannelLists(chan);
      AddedChannelInfos(chan);
      AddedChannelDown(chan);
      AddedChannelUp(chan);
    }

    twostate lemma AddedChannelParts(new chan: Chan)
      requires ChannelAdded(chan) && nds == old(nds)
      ensures Parts() <= old(Parts()) + {chan, chan.aspcs}
    {
      EntriesKept();
    }

    // Tables that are the same hold the same entries, but for a subscriber that may have left.
    twostate lemma EntriesKept()
      requires forall u :: u in ass ==> u in old(ass) && ass[u] == old(ass)[u] && ass[u].aspcs == old(ass[u].aspcs)
      ensures Entries() <= old(Entries())
    {
      hide Entries;
      forall a | a in Entries()
        ensures a in old(Entries())
      {
        FromTable(a);
        var u, c :| u in ass && c in ass[u].aspcs && ass[u].aspcs[c] == a;
        WasEntry(u, c);
      }
    }

    lemma FromTable(a: Aspc)
      requires a in Entries()
      ensures exists u, c :: u in ass && c in ass[u].aspcs && ass[u].aspcs[c] == a
    {
    }

    // chan_put for a channel just made.
    method PutChan(chan: Chan)
      requires chan.info.chanId !in chansById && chan.info.name !in chansByName && chan.aspcs.items == []
      requires forall d :: d in chansById ==> chansById[d] != chan && chansById[d].aspcs != chan.aspcs
      modifies this`chansById, this`chansByName
      ensures ChannelAdded(chan)
    {
      chansByName := chansByName[chan.info.name := chan];
      chansById := chansById[chan.info.chanId := chan];
    }

    method PutNew(chan: Chan, ghost subs: set<Sub>)
      requires Valid(subs) && chan.aspcs.items == []
      requires chan.info.chanId !in chansById && chan.info.name !in chansByName
      requires forall d :: d in chansById ==> chansById[d] != chan && chansById[d].aspcs != chan.aspcs
      modifies this`chansById, this`chansByName
      ensures Valid(subs)
      ensures Infos() == old(Infos())[chan.info.chanId := chan.info]
      ensures Parts() <= old(Parts()) + {chan, chan.aspcs}
    {
      hide ChansOk, ListsOk, EntriesDown, EntriesUp, KeysOk, LinksOk, Infos, Parts, ChannelAdded;
      PutChan(chan);
      AddedChannel(chan);
      AddedChannelParts(chan);
    }

    // chan_create and chan_put.
    method ChanPut(info: ChanInfo, ghost subs: set<Sub>)
      requires Valid(subs)
      requires info.chanId !in chansById && info.name !in chansByName
      modifies this`chansById, this`chansByName
      ensures Valid(subs)
      ensures Infos() == old(Infos())[info.chanId := info]
      ensures OnlyNew()
    {
      hide ChansOk, EntriesOk, LinksOk, Infos, Parts;
      var list := new AspcList();
      var chan := new Chan(info, list);
      assert Lists() == old(Lists()) && Entries() == old(Entries()) && Infos() == old(Infos());
      assert Parts() == old(Parts());
      PutNew(chan, subs);
    }

    // -----------------------------------------------------------------------
    // Subscribing and unsubscribing
    // -----------------------------------------------------------------------

    // Lists and tables are as before but for the list of one channel and the table of one
    // subscriber.
    twostate predicate OnlyEntryOf(new x: Sub)
      reads *
    {
      && ass == old(ass) && chansById == old(chansById) && x.uid in ass && x.chan in chansById
      && (forall d :: d in chansById && d != x.chan ==> chansById[d].aspcs.items == old(chansById[d].aspcs.items))
      && (forall u :: u in ass && u != x.uid ==> ass[u].aspcs == old(ass[u].aspcs))
      && (forall a :: a in old(Entries()) ==> a.chan == old(a.chan))
    }

    twostate predicate EntryAdded(new x: Sub)
      reads *
    {
      && OnlyEntryOf(x)
      && x.chan in ass[x.uid].aspcs
      && var aspc := ass[x.uid].aspcs[x.chan];
      && chansById[x.chan].aspcs.items == old(chansById[x.chan].aspcs.items) + [aspc]
      && ass[x.uid].aspcs == old(ass[x.uid].aspcs)[x.chan := aspc]
      && aspc.chan == chansById[x.chan] && aspc.suber == ass[x.uid]
      && aspc !in old(chansById[x.chan].aspcs.items) && x.chan !in old(ass[x.uid].aspcs)
    }

    twostate lemma AddedDownAt(new x: Sub, new u: nat, new c: nat)
      requires old(EntriesDown()) && EntryAdded(x)
      requires u in ass && c in ass[u].aspcs
      ensures Filed(u, c)
    {
      hide Entries;
      if u != x.uid || c != x.chan {
        assert c in old(ass[u].aspcs) && ass[u].aspcs[c] == old(ass[u].aspcs[c]);
        WasEntry(u, c);
      }
    }

    twostate lemma AddedDown(new x: Sub)
      requires old(EntriesDown()) && EntryAdded(x)
      ensures EntriesDown()
    {
      hide Entries, NoDup, Filed, EntryAdded;
      forall u, c | u in ass && c in ass[u].aspcs
        ensures Filed(u, c)
      {
        AddedDownAt(x, u, c);
      }
    }

    twostate lemma AddedUpAt(new x: Sub, new c: nat, new a: Aspc)
      requires old(EntriesUp()) && EntryAdded(x) && old(UidsOk())
      requires c in chansById && a in chansById[c].aspcs.items
      ensures Owned(c, a)
    {
      hide Entries, NoDup;
      if a in old(chansById[c].aspcs.items) {
        assert a.suber.uid in old(ass) && old(a.suber.aspcs[c]) == a;
      }
    }

    twostate lemma AddedUp(new x: Sub)
      requires old(EntriesUp()) && EntryAdded(x) && old(UidsOk())
      ensures EntriesUp()
    {
      hide Entries, NoDup, Owned, EntryAdded;
      forall c, a | c in chansById && a in chansById[c].aspcs.items
        ensures Owned(c, a)
      {
        AddedUpAt(x, c, a);
      }
    }

    twostate lemma AddedLists(new x: Sub)
      requires old(ListsOk()) && EntryAdded(x)
      ensures ListsOk()
    {
    }

    twostate lemma AddedKeys(new x: Sub, new subs: set<Sub>)
      requires old(KeysOk(subs)) && EntryAdded(x)
      ensures KeysOk(subs + {x})
    {
    }

    twostate predicate EntryRemoved(new x: Sub)
      reads *
    {
      && OnlyEntryOf(x)
      && x.chan in old(ass[x.uid].aspcs)
      && chansById[x.chan].aspcs.items == Without(old(chansById[x.chan].aspcs.items), old(ass[x.uid].aspcs[x.chan]))
      && ass[x.uid].aspcs == old(ass[x.uid].aspcs) - {x.chan}
    }

    twostate lemma RemovedDownAt(new x: Sub, new u: nat, new c: nat)
      requires old(EntriesDown()) && EntryRemoved(x) && old(UidsOk())
      requires u in ass && c in ass[u].aspcs
      ensures Filed(u, c)
    {
      hide Entries;
      assert c in old(ass[u].aspcs) && ass[u].aspcs[c] == old(ass[u].aspcs[c]);
      WasEntry(u, c);
    }

    twostate lemma RemovedDown(new x: Sub)
      requires old(EntriesDown()) && EntryRemoved(x) && old(UidsOk())
      ensures EntriesDown()
    {
      hide Entries, NoDup, Filed, EntryRemoved;
      forall u, c | u in ass && c in ass[u].aspcs
        ensures Filed(u, c)
      {
        RemovedDownAt(x, u, c);
      }
    }

    twostate lemma RemovedUpAt(new x: Sub, new c: nat, new a: Aspc)
      requires old(EntriesUp()) && old(EntriesDown()) && EntryRemoved(x) && old(UidsOk())
      requires c in chansById && a in chansById[c].aspcs.items
      ensures Owned(c, a)
    {
      hide Entries, NoDup;
      assert a in old(chansById[c].aspcs.items);
      assert a.suber.uid in old(ass) && old(a.suber.aspcs[c]) == a;
    }

    twostate lemma RemovedUp(new x: Sub)
      requires old(EntriesUp()) && old(EntriesDown()) && EntryRemoved(x) && old(UidsOk())
      ensures EntriesUp()
    {
      hide Entries, NoDup, Owned, EntryRemoved;
      forall c, a | c in chansById && a in chansById[c].aspcs.items
        ensures Owned(c, a)
      {
        RemovedUpAt(x, c, a);
      }
    }

    twostate lemma RemovedLists(new x: Sub)
      requires old(ListsOk()) && EntryRemoved(x)
      ensures ListsOk()
    {
      WithoutNoDup(old(chansById[x.chan].aspcs.items), old(ass[x.uid].aspcs[x.chan]));
    }

    twostate lemma RemovedKeys(new x: Sub, new subs: set<Sub>)
      requires old(KeysOk(subs)) && EntryRemoved(x)
      ensures KeysOk(subs - {x})
    {
    }

    // Subscriptions of a user who is not active do not concern the entries.
    lemma InactiveSub(uid: nat, subs: set<Sub>, subs': set<Sub>)
      requires EntriesOk(subs) && uid !in ass
      requires forall x :: x in subs + subs' && x.uid != uid ==> x in subs && x in subs'
      ensures EntriesOk(subs')
    {
      hide ListsOk, EntriesDown, EntriesUp;
    }

    twostate lemma InfoChanged(new c: nat)
      requires old(ChansOk()) && c in chansById && chansById == old(chansById) && chansByName == old(chansByName)
      requires forall d :: d in chansById && chansById[d] != chansById[c] ==>
               chansById[d].info == old(chansById[d].info)
      requires chansById[c].info.chanId == old(chansById[c].info.chanId)
      requires chansById[c].info.name == old(chansById[c].info.name)
      ensures ChansOk() && Infos() == old(Infos())[c := chansById[c].info]
    {
    }

    twostate lemma AddedEntry(new x: Sub, new subs: set<Sub>, new subs': set<Sub>)
      requires old(EntriesOk(subs)) && EntryAdded(x) && subs' == subs + {x}
      ensures EntriesOk(subs')
    {
      hide EntriesDown, EntriesUp, ListsOk, KeysOk;
      AddedDown(x);
      AddedUp(x);
      AddedLists(x);
      AddedKeys(x, subs);
    }

    twostate lemma RemovedEntry(new x: Sub, new subs: set<Sub>, new subs': set<Sub>)
      requires old(EntriesOk(subs)) && EntryRemoved(x) && subs' == subs - {x}
      ensures EntriesOk(subs')
    {
      hide EntriesDown, EntriesUp, ListsOk, KeysOk;
      RemovedDown(x);
      RemovedUp(x);
      RemovedLists(x);
      RemovedKeys(x, subs);
    }

    twostate lemma AddedParts(new x: Sub)
      requires EntryAdded(x) && nds == old(nds)
      ensures Parts() <= old(Parts()) + {ass[x.uid].aspcs[x.chan]}
    {
      hide Entries;
      forall a | a in Entries()
        ensures a in old(Entries()) || a == ass[x.uid].aspcs[x.chan]
      {
        FromTable(a);
        var u, c :| u in ass && c in ass[u].aspcs && ass[u].aspcs[c] == a;
        if u != x.uid || c != x.chan {
          WasEntry(u, c);
        }
      }
    }

    twostate lemma RemovedParts(new x: Sub)
      requires EntryRemoved(x) && nds == old(nds)
      ensures Parts() <= old(Parts())
    {
      hide Entries;
      forall a | a in Entries()
        ensures a in old(Entries())
      {
        FromTable(a);
        var u, c :| u in ass && c in ass[u].aspcs && ass[u].aspcs[c] == a;
        WasEntry(u, c);
      }
    }

    // aspc_create and aspc_put.
    method AspcPut(uid: nat, c: nat, ghost subs: set<Sub>)
      requires EntriesOk(subs) && uid in ass && c in chansById && Sub(uid, c) !in subs
      modifies ListAt(c)`items, SuberAt(uid)`aspcs
      ensures EntriesOk(subs + {Sub(uid, c)})
      ensures OnlyNew()
    {
      hide EntriesDown, EntriesUp, Parts;
      var chan, suber := chansById[c], ass[uid];
      var aspc := new Aspc(suber, chan);
      chan.aspcs.items := chan.aspcs.items + [aspc];
      suber.aspcs := suber.aspcs[c := aspc];
      AddedEntry(Sub(uid, c), subs, subs + {Sub(uid, c)});
      AddedParts(Sub(uid, c));
    }

    // aspc_remove for an active subscriber.
    method AspcRemove(uid: nat, c: nat, ghost subs: set<Sub>)
      requires EntriesOk(subs) && uid in ass && c in chansById && Sub(uid, c) in subs
      modifies ListAt(c)`items, SuberAt(uid)`aspcs
      ensures EntriesOk(subs - {Sub(uid, c)})
      ensures Parts() <= old(Parts())
    {
      hide EntriesDown, EntriesUp, Parts;
      var chan, suber := chansById[c], ass[uid];
      var aspc := suber.aspcs[c];
      suber.aspcs := suber.aspcs - {c};
      chan.aspcs.items := Without(chan.aspcs.items, aspc);
      RemovedEntry(Sub(uid, c), subs, subs - {Sub(uid, c)});
      RemovedParts(Sub(uid, c));
    }

    // Counters kept in a channel object.
    method SetInfo(c: nat, info: ChanInfo)
      requires ChansOk() && c in chansById
      requires info.chanId == chansById[c].info.chanId && info.name == chansById[c].info.name
      modifies ChanAt(c)`info
      ensures ChansOk()
      ensures Infos() == old(Infos())[c := info]
      ensures Lists() == old(Lists()) && Entries() == old(Entries()) && Parts() == old(Parts())
    {
      chansById[c].info := info;
      InfoChanged(c);
    }

    // A new entry when the user is active.
    method EntryFor(uid: nat, c: nat, ghost subs: set<Sub>)
      requires Valid(subs) && c in chansById && Sub(uid, c) !in subs
      modifies ListAt(c)`items, SuberAt(uid)`aspcs
      ensures Valid(subs + {Sub(uid, c)}) && OnlyNew()
    {
      hide ChansOk, EntriesOk, LinksOk, Parts;
      if uid in ass {
        AspcPut(uid, c, subs);
      } else {
        InactiveSub(uid, subs, subs + {Sub(uid, c)});
      }
    }

    method EntryGone(uid: nat, c: nat, ghost subs: set<Sub>)
      requires Valid(subs) && c in chansById && Sub(uid, c) in subs
      modifies ListAt(c)`items, SuberAt(uid)`aspcs
      ensures Valid(subs - {Sub(uid, c)}) && Parts() <= old(Parts())
    {
      hide ChansOk, EntriesOk, LinksOk, Parts;
      if uid in ass {
        AspcRemove(uid, c, subs);
      } else {
        InactiveSub(uid, subs, subs - {Sub(uid, c)});
      }
    }

    // The counters of a channel, in a graph otherwise left alone.
    method Count(c: nat, info: ChanInfo, ghost subs: set<Sub>)
      requires Valid(subs) && c in chansById
      requires info.chanId == chansById[c].info.chanId && info.name == chansById[c].info.name
      modifies ChanAt(c)`info
      ensures Valid(subs) && Infos() == old(Infos())[c := info] && Parts() == old(Parts())
    {
      hide ChansOk, EntriesOk, LinksOk, Infos, Parts;
      SetInfo(c, info);
    }

    // The index part of a subscription.
    method AddSub(uid: nat, c: nat, ghost subs: set<Sub>)
      requires Valid(subs) && c in chansById && Sub(uid, c) !in subs
      modifies ChanAt(c)`info, ListAt(c)`items, SuberAt(uid)`aspcs
      ensures Valid(subs + {Sub(uid, c)})
      ensures Infos() == old(Infos())[c := old(chansById[c].info).(subs := old(chansById[c].info.subs) + 1)]
      ensures OnlyNew()
    {
      hide Valid, Infos, Parts;
      EntryFor(uid, c, subs);
      Count(c, chansById[c].info.(subs := chansById[c].info.subs + 1), subs + {Sub(uid, c)});
    }

    // aspc_remove and the counter, after the row is gone.
    method RemoveSub(uid: nat, c: nat, ghost subs: set<Sub>)
      requires Valid(subs) && c in chansById && Sub(uid, c) in subs
      modifies ChanAt(c)`info, ListAt(c)`items, SuberAt(uid)`aspcs
      ensures Valid(subs - {Sub(uid, c)})
      ensures Infos() == old(Infos())[c := old(chansById[c].info).(subs := old(chansById[c].info.subs) - 1)]
      ensures Parts() <= old(Parts())
    {
      hide Valid, Infos, Parts;
      EntryGone(uid, c, subs);
      Count(c, chansById[c].info.(subs := chansById[c].info.subs - 1), subs - {Sub(uid, c)});
    }

    // The cached next post id.
    method BumpNextPostId(c: nat, ghost subs: set<Sub>)
      requires Valid(subs) && c in chansById
      modifies ChanAt(c)`info
      ensures Valid(subs)
      ensures Infos() == old(Infos())[c := old(chansById[c].info).(nextPostId := old(chansById[c].info.nextPostId) + 1)]
      ensures Parts() == old(Parts())
    {
      hide Valid, Infos, Parts;
      Count(c, chansById[c].info.(nextPostId := chansById[c].info.nextPostId + 1), subs);
    }

    // -----------------------------------------------------------------------
    // Replacing a channel object
    // -----------------------------------------------------------------------

    twostate predicate ChannelReplaced(new upd: Chan)
      reads *
    {
      var c := upd.info.chanId;
      && ass == old(ass) && c in old(chansById) && chansById == old(chansById)[c := upd]
      && (upd.info.name == old(chansById[c].info.name) || upd.info.name !in old(chansByName))
      && chansByName == (old(chansByName) - {old(chansById[c].info.name)})[upd.info.name := upd]
      && upd.aspcs == old(chansById)[c].aspcs
      && (forall d :: d in old(chansById) ==>
            && old(chansById)[d] != upd && (d != c ==> chansById[d].info == old(chansById[d].info))
            && chansById[d].aspcs.items == old(chansById[d].aspcs.items))
      && (forall u :: u in ass ==> ass[u].aspcs == old(ass[u].aspcs))
      && (forall a :: a in old(Entries()) ==> a.chan == if a in upd.aspcs.items then upd else old(a.chan))
    }

    twostate lemma ReplacedTables(new upd: Chan)
      requires old(ChansOk()) && ChannelReplaced(upd)
      ensures ChansOk()
    {
      hide Entries;
    }

    twostate lemma ReplacedInfos(new upd: Chan)
      requires ChannelReplaced(upd)
      ensures Infos() == old(Infos())[upd.info.chanId := upd.info]
    {
      hide Entries;
    }

    twostate lemma ReplacedLists(new upd: Chan)
      requires old(ListsOk()) && ChannelReplaced(upd)
      ensures ListsOk()
    {
    }

    twostate lemma ReplacedUpAt(new upd: Chan, new d: nat, new a: Aspc)
      requires old(EntriesUp()) && ChannelReplaced(upd)
      requires d in chansById && a in chansById[d].aspcs.items
      ensures Owned(d, a)
    {
      hide Entries, NoDup;
      assert d in old(chansById) && chansById[d].aspcs.items == old(chansById[d].aspcs.items);
      assert a in old(chansById[d].aspcs.items) && a.suber.uid in ass;
      assert ass[a.suber.uid].aspcs == old(ass[a.suber.uid].aspcs);
    }

    twostate lemma ReplacedUp(new upd: Chan)
      requires old(EntriesUp()) && ChannelReplaced(upd)
      ensures EntriesUp()
    {
      hide Entries, NoDup, Owned, ChannelReplaced;
      forall d, a | d in chansById && a in chansById[d].aspcs.items
        ensures Owned(d, a)
      {
        ReplacedUpAt(upd, d, a);
      }
    }

    // An entry is in one channel's list only, so only the replaced channel's entries move.
    twostate lemma ReplacedDownAt(new upd: Chan, new u: nat, new d: nat)
      requires old(EntriesDown()) && old(EntriesUp()) && old(ListsOk()) && ChannelReplaced(upd)
      requires u in ass && d in ass[u].aspcs
      ensures Filed(u, d)
    {
      hide NoDup, Entries;
      var c := upd.info.chanId;
      var a := old(ass[u].aspcs[d]);
      WasEntry(u, d);
      assert d in old(ass[u].aspcs) && ass[u].aspcs[d] == a;
      assert old(a.chan) == old(chansById[d]);
      if a in upd.aspcs.items {
        assert old(a.suber.aspcs[c]) == a;
        assert old(a.chan) == old(chansById[c]);
      }
    }

    twostate lemma ReplacedDown(new upd: Chan)
      requires old(EntriesDown()) && old(EntriesUp()) && old(ListsOk()) && ChannelReplaced(upd)
      ensures EntriesDown()
    {
      hide Entries, NoDup, Filed, ChannelReplaced;
      forall u, d | u in ass && d in ass[u].aspcs
        ensures Filed(u, d)
      {
        ReplacedDownAt(upd, u, d);
      }
    }

    twostate lemma Replaced(new upd: Chan, new subs: set<Sub>)
      requires old(ChansOk()) && old(EntriesOk(subs)) && ChannelReplaced(upd)
      ensures ChansOk() && EntriesOk(subs)
      ensures Infos() == old(Infos())[upd.info.chanId := upd.info]
    {
      hide ChansOk, ListsOk, EntriesDown, EntriesUp, Infos;
      ReplacedTables(upd);
      ReplacedInfos(upd);
      ReplacedLists(upd);
      ReplacedUp(upd);
      ReplacedDown(upd);
    }

    twostate lemma ReplacedParts(new upd: Chan)
      requires ChannelReplaced(upd) && nds == old(nds)
      ensures Parts() <= old(Parts()) + {upd}
    {
      EntriesKept();
    }

    // chan_sub: the new object takes over the list of the old one.
    method SwapChan(upd: Chan)
      requires upd.info.chanId in chansById && upd.aspcs == chansById[upd.info.chanId].aspcs
      requires upd.info.name == chansById[upd.info.chanId].info.name || upd.info.name !in chansByName
      requires forall d :: d in chansById ==> chansById[d] != upd
      requires forall a :: a in upd.aspcs.items ==> a in Entries()
      modifies this`chansById, this`chansByName, Entries()`chan
      ensures ChannelReplaced(upd)
    {
      var was := chansById[upd.info.chanId];
      chansByName := chansByName - {was.info.name};
      chansById := chansById - {upd.info.chanId};
      Redirect(upd.aspcs.items, upd);
      chansByName := chansByName[upd.info.name := upd];
      chansById := chansById[upd.info.chanId := upd];
    }

    method SubNew(upd: Chan, ghost subs: set<Sub>)
      requires Valid(subs) && upd.info.chanId in chansById && upd.aspcs == chansById[upd.info.chanId].aspcs
      requires upd.info.name == chansById[upd.info.chanId].info.name || upd.info.name !in chansByName
      requires forall d :: d in chansById ==> chansById[d] != upd
      modifies this`chansById, this`chansByName, Entries()`chan
      ensures Valid(subs)
      ensures Infos() == old(Infos())[upd.info.chanId := upd.info]
      ensures Parts() <= old(Parts()) + {upd}
    {
      hide ChansOk, ListsOk, EntriesDown, EntriesUp, KeysOk, LinksOk, ChannelReplaced, Infos, Parts;
      ByIds(upd.info.chanId);
      EntriesListed(upd.info.chanId);
      SwapChan(upd);
      Replaced(upd, subs);
      ReplacedParts(upd);
    }

    lemma ByIds(c: nat)
      requires ChansOk() && c in chansById
      ensures chansById[c].info.chanId == c && chansById[c].info.name in chansByName
    {
    }

    // chan_create_upd and chan_sub.
    method ChanSub(info: ChanInfo, ghost subs: set<Sub>)
      requires Valid(subs) && info.chanId in chansById
      requires info.name == chansById[info.chanId].info.name || info.name !in chansByName
      modifies this`chansById, this`chansByName, Entries()`chan
      ensures Valid(subs)
      ensures Infos() == old(Infos())[info.chanId := info]
      ensures OnlyNew()
    {
      hide ChansOk, EntriesOk, LinksOk, Infos, Parts;
      var upd := new Chan(info, chansById[info.chanId].aspcs);
      assert Lists() == old(Lists()) && Entries() == old(Entries()) && Infos() == old(Infos());
      assert Parts() == old(Parts());
      SubNew(upd, subs);
    }

    // The loop of chan_sub.
    static method Redirect(items: seq<Aspc>, upd: Chan)
      modifies (set a | a in items)`chan
      ensures forall a :: a in items ==> a.chan == upd
    {
      var i := 0;
      while i < |items|
        invariant 0 <= i <= |items|
        invariant forall a :: a in items[..i] ==> a.chan == upd
      {
        items[i].chan := upd;
        i := i + 1;
      }
      assert items[..i] == items;
    }

    lemma EntriesListed(c: nat)
      requires EntriesUp() && c in chansById
      ensures forall a :: a in chansById[c].aspcs.items ==> a in Entries()
    {
      forall a | a in chansById[c].aspcs.items
        ensures a in Entries()
      {
        assert a == ass[a.suber.uid].aspcs[c];
      }
    }

    // -----------------------------------------------------------------------
    // Enabling notifications
    // -----------------------------------------------------------------------

    // One new link for d, whose subscriber may be new and whose node may be new.
    twostate predicate LinkAdded(new d: Dest)
      reads *
    {
      && d.uid in ass && d.node in ass[d.uid].ndpass
      && var l := ass[d.uid].ndpass[d.node];
      && ass == old(ass) && d.node !in old(ass[d.uid].ndpass)
      && ass[d.uid].ndpass == old(ass[d.uid].ndpass)[d.node := l]
      && (forall u :: u in old(ass) && u != d.uid ==> ass[u].ndpass == old(ass[u].ndpass))
      && var was := if d.node in old(links) then old(links)[d.node] else [];
      && links == old(links)[d.node := was + [l]]
      && l !in was && l.suber == ass[d.uid] && l.suber.uid == d.uid && l.dest.nodeId == d.node
      && (forall n :: n in nds && n != d.node ==> n in old(nds) && nds[n] == old(nds)[n])
      && d.node in nds && nds[d.node].nodeId == d.node
      && enabled == old(enabled) + {d}
    }

    twostate lemma LinkAddedDownAt(new d: Dest, new u: nat, new n: NodeId)
      requires old(LinksDown()) && LinkAdded(d) && u in ass && n in ass[u].ndpass
      ensures Linked(u, n)
    {
      if u == d.uid && n == d.node {
        assert links[n][|links[n]| - 1] == ass[u].ndpass[n];
      } else {
        assert n in old(ass[u].ndpass) && ass[u].ndpass[n] == old(ass[u].ndpass[n]);
        var l := old(ass[u].ndpass[n]);
        assert n in old(links) && l in old(links)[n];
        var i :| 0 <= i < |old(links)[n]| && old(links)[n][i] == l;
        assert links[n][i] == l;
      }
    }

    twostate lemma LinkAddedDown(new d: Dest)
      requires old(LinksDown()) && LinkAdded(d)
      ensures LinksDown()
    {
      hide Linked, LinkAdded;
      forall u, n | u in ass && n in ass[u].ndpass
        ensures Linked(u, n)
      {
        LinkAddedDownAt(d, u, n);
      }
    }

    twostate lemma LinkAddedUpAt(new d: Dest, new n: NodeId, new l: Ndpas)
      requires old(LinksUp()) && old(UidsOk()) && LinkAdded(d) && n in links && l in links[n]
      ensures Linking(n, l)
    {
      hide NoDup;
      if n in old(links) && l in old(links)[n] {
        assert old(ass)[l.suber.uid] == l.suber && old(l.suber.ndpass)[n] == l;
      }
    }

    twostate lemma NewLinkApart(new d: Dest, new n: NodeId)
      requires old(LinksUp()) && LinkAdded(d) && n in links
      ensures NoDup(links[n])
    {
      if n != d.node {
        assert n in old(links) && links[n] == old(links)[n];
      }
    }

    twostate lemma LinkAddedUp(new d: Dest)
      requires old(LinksUp()) && old(UidsOk()) && LinkAdded(d)
      ensures LinksUp()
    {
      hide NoDup, Linking, LinkAdded, UidsOk;
      forall n | n in links
        ensures NoDup(links[n])
      {
        NewLinkApart(d, n);
      }
      forall n, l | n in links && l in links[n]
        ensures Linking(n, l)
      {
        LinkAddedUpAt(d, n, l);
      }
    }

    twostate lemma LinkAddedRest(new d: Dest)
      requires old(LinksOkBut(d.uid)) && old(UidsOk()) && LinkAdded(d)
      ensures NodesOk() && NdsOk() && EnabledOk()
    {
    }

    twostate lemma LinkAddedOk(new d: Dest)
      requires old(LinksOkBut(d.uid)) && old(UidsOk()) && LinkAdded(d) && links == LinkLists()
      ensures LinksOk()
    {
      hide NodesOk, NdsOk, LinksDown, LinksUp, EnabledOk, LinkLists;
      LinkAddedDown(d);
      LinkAddedUp(d);
      LinkAddedRest(d);
    }

    // A subscriber becomes active with an entry for each of its subscriptions.
    twostate predicate Activated(new s: ActiveSuber, new subs: set<Sub>)
      reads *
    {
      && s.uid !in old(ass) && ass == old(ass)[s.uid := s] && chansById == old(chansById)
      && (forall u :: u in old(ass) ==> old(ass)[u] != s && old(ass)[u].aspcs == old(ass[u].aspcs))
      && (forall a :: a in old(Entries()) ==> a.chan == old(a.chan))
      && EntriesBuilt(s, subs)
    }

    // Each subscription of s has a new entry, last in its channel's list.
    twostate predicate EntriesBuilt(new s: ActiveSuber, new subs: set<Sub>)
      reads this`chansById, Lists()`items, s`aspcs, s.aspcs.Values`chan
    {
      && chansById == old(chansById)
      && (forall c :: c in s.aspcs <==> Sub(s.uid, c) in subs)
      && (forall c :: c in s.aspcs ==>
            && c in chansById && s.aspcs[c] !in old(chansById[c].aspcs.items)
            && s.aspcs[c].chan == chansById[c] && s.aspcs[c].suber == s && fresh(s.aspcs[c]))
      && (forall c :: c in chansById ==>
            chansById[c].aspcs.items ==
            if c in s.aspcs then old(chansById[c].aspcs.items) + [s.aspcs[c]] else old(chansById[c].aspcs.items))
    }

    twostate lemma ActivatedDownAt(new s: ActiveSuber, new subs: set<Sub>, new u: nat, new c: nat)
      requires old(EntriesDown()) && Activated(s, subs)
      requires u in ass && c in ass[u].aspcs
      ensures Filed(u, c)
    {
      hide Entries;
      if u != s.uid {
        assert c in old(ass[u].aspcs) && ass[u].aspcs[c] == old(ass[u].aspcs[c]);
        WasEntry(u, c);
      }
    }

    twostate lemma ActivatedDown(new s: ActiveSuber, new subs: set<Sub>)
      requires old(EntriesDown()) && Activated(s, subs)
      ensures EntriesDown()
    {
      hide Entries, NoDup, Filed, Activated;
      forall u, c | u in ass && c in ass[u].aspcs
        ensures Filed(u, c)
      {
        ActivatedDownAt(s, subs, u, c);
      }
    }

    twostate lemma ActivatedUpAt(new s: ActiveSuber, new subs: set<Sub>, new c: nat, new a: Aspc)
      requires old(EntriesUp()) && old(UidsOk()) && Activated(s, subs)
      requires c in chansById && a in chansById[c].aspcs.items
      ensures Owned(c, a)
    {
      hide Entries, NoDup;
      if a in old(chansById[c].aspcs.items) {
        assert a.suber.uid in old(ass) && old(a.suber.aspcs[c]) == a;
      }
    }

    twostate lemma ActivatedUp(new s: ActiveSuber, new subs: set<Sub>)
      requires old(EntriesUp()) && old(UidsOk()) && Activated(s, subs)
      ensures EntriesUp()
    {
      hide Entries, NoDup, Owned, Activated;
      forall c, a | c in chansById && a in chansById[c].aspcs.items
        ensures Owned(c, a)
      {
        ActivatedUpAt(s, subs, c, a);
      }
    }

    twostate lemma ActivatedRest(new s: ActiveSuber, new subs: set<Sub>)
      requires old(ListsOk()) && old(UidsOk()) && old(KeysOk(subs)) && Activated(s, subs)
      ensures ListsOk() && UidsOk() && KeysOk(subs)
    {
    }

    twostate lemma ActivatedOk(new s: ActiveSuber, new subs: set<Sub>)
      requires old(EntriesOk(subs)) && Activated(s, subs)
      ensures EntriesOk(subs)
    {
      hide ListsOk, UidsOk, EntriesDown, EntriesUp, KeysOk, Activated;
      ActivatedDown(s, subs);
      ActivatedUp(s, subs);
      ActivatedRest(s, subs);
    }

    twostate lemma ActivatedParts(new s: ActiveSuber, new subs: set<Sub>)
      requires Activated(s, subs) && nds == old(nds)
      ensures forall p :: p in Parts() ==> p in old(Parts()) || p == s || fresh(p)
    {
      hide Entries;
      forall a | a in Entries()
        ensures a in old(Entries()) || fresh(a)
      {
        FromTable(a);
        var u, c :| u in ass && c in ass[u].aspcs && ass[u].aspcs[c] == a;
        if u != s.uid {
          WasEntry(u, c);
        }
      }
    }

    // -----------------------------------------------------------------------
    // Dropping a node
    // -----------------------------------------------------------------------

    twostate predicate Unlinked(new d: Dest)
      reads *
    {
      && ass == old(ass) && d.uid in ass
      && ass[d.uid].ndpass == old(ass[d.uid].ndpass) - {d.node}
      && (forall u :: u in ass && u != d.uid ==> ass[u].ndpass == old(ass[u].ndpass))
      && enabled == old(enabled) - {d}
    }

    twostate lemma UnlinkedDownAt(new d: Dest, new gone: Ndpas, new rest: seq<Ndpas>, new u: nat, new n: NodeId)
      requires old(LinksDown()) && old(UidsOk()) && Unlinked(d) && u in ass && n in ass[u].ndpass
      requires d.node in old(ass[d.uid].ndpass) && gone == old(ass[d.uid].ndpass[d.node])
      requires d.node in old(links) && old(links)[d.node] == [gone] + rest && links == old(links)[d.node := rest]
      ensures Linked(u, n)
    {
      assert n in old(ass[u].ndpass) && ass[u].ndpass[n] == old(ass[u].ndpass[n]);
      assert old(ass[u].ndpass[n]) in old(links)[n];
      if n == d.node {
        assert u != d.uid && ass[u].ndpass[n] != gone;
      }
    }

    twostate lemma UnlinkedDown(new d: Dest, new gone: Ndpas, new rest: seq<Ndpas>)
      requires old(LinksDown()) && old(UidsOk()) && Unlinked(d)
      requires d.node in old(ass[d.uid].ndpass) && gone == old(ass[d.uid].ndpass[d.node])
      requires d.node in old(links) && old(links)[d.node] == [gone] + rest && links == old(links)[d.node := rest]
      ensures LinksDown()
    {
      hide Linked, Unlinked, UidsOk;
      forall u, n | u in ass && n in ass[u].ndpass
        ensures Linked(u, n)
      {
        UnlinkedDownAt(d, gone, rest, u, n);
      }
    }

    twostate lemma UnlinkedUpAt(new d: Dest, new gone: Ndpas, new rest: seq<Ndpas>, new n: NodeId, new l: Ndpas)
      requires old(LinksUp()) && old(UidsOk()) && Unlinked(d) && n in links && l in links[n]
      requires d.node in old(ass[d.uid].ndpass) && gone == old(ass[d.uid].ndpass[d.node])
      requires d.node in old(links) && old(links)[d.node] == [gone] + rest && links == old(links)[d.node := rest]
      ensures Linking(n, l)
    {
      assert n in old(links) && l in old(links)[n] && old(l.suber.ndpass)[n] == l;
      if n == d.node {
        var i :| 0 <= i < |rest| && rest[i] == l;
        assert old(links)[n][0] == gone && old(links)[n][i + 1] == l;
        assert l != gone;
      }
    }

    twostate lemma UnlinkedUp(new d: Dest, new gone: Ndpas, new rest: seq<Ndpas>)
      requires old(LinksUp()) && old(UidsOk()) && Unlinked(d)
      requires d.node in old(ass[d.uid].ndpass) && gone == old(ass[d.uid].ndpass[d.node])
      requires d.node in old(links) && old(links)[d.node] == [gone] + rest && links == old(links)[d.node := rest]
      ensures LinksUp()
    {
      hide Linking, Unlinked, UidsOk;
      NoDupTail(gone, rest);
      forall n, l | n in links && l in links[n]
        ensures Linking(n, l)
      {
        UnlinkedUpAt(d, gone, rest, n, l);
      }
    }

    twostate lemma UnlinkedOk(new d: Dest, new rest: seq<Ndpas>)
      requires old(LinksDown()) && old(LinksUp()) && old(EnabledOk()) && old(UidsOk()) && Unlinked(d)
      requires d.node in old(ass[d.uid].ndpass) && d.node in old(links)
      requires old(links)[d.node] == [old(ass[d.uid].ndpass[d.node])] + rest && links == old(links)[d.node := rest]
      ensures LinksDown() && LinksUp() && EnabledOk()
    {
      hide LinksDown, LinksUp;
      UnlinkedDown(d, old(ass[d.uid].ndpass[d.node]), rest);
      UnlinkedUp(d, old(ass[d.uid].ndpass[d.node]), rest);
    }

    // A subscriber without nodes leaves, and its entries leave the channel lists.
    twostate predicate Dropped(new s: ActiveSuber)
      reads *
    {
      && s.uid in old(ass) && old(ass)[s.uid] == s && ass == old(ass) - {s.uid} && chansById == old(chansById)
      && (forall u :: u in ass ==> ass[u].aspcs == old(ass[u].aspcs) && ass[u].ndpass == old(ass[u].ndpass))
      && (forall a :: a in old(Entries()) ==> a.chan == old(a.chan))
      && s.aspcs == old(s.aspcs) && EntriesLeft(s, {}, old(Items()))
    }

    twostate lemma DroppedLinks(new s: ActiveSuber)
      requires old(LinksDown()) && old(LinksUp()) && old(UidsOk()) && Dropped(s)
      requires old(s.ndpass) == map[] && links == old(links)
      ensures LinksDown() && LinksUp()
    {
      hide NoDup;
      forall u, n | u in ass && n in ass[u].ndpass
        ensures Linked(u, n)
      {
        assert n in old(ass[u].ndpass) && ass[u].ndpass[n] == old(ass[u].ndpass[n]);
      }
      forall n, l | n in links && l in links[n]
        ensures Linking(n, l)
      {
        assert old(l.suber.ndpass)[n] == l && l.suber != s;
      }
    }

    twostate lemma DroppedEnabled(new s: ActiveSuber)
      requires old(EnabledOk()) && Dropped(s) && old(s.ndpass) == map[] && enabled == old(enabled)
      ensures EnabledOk()
    {
    }

    twostate lemma DroppedDownAt(new s: ActiveSuber, new u: nat, new c: nat)
      requires old(EntriesDown()) && old(UidsOk()) && Dropped(s)
      requires u in ass && c in ass[u].aspcs
      ensures Filed(u, c)
    {
      hide Entries;
      assert c in old(ass[u].aspcs) && ass[u].aspcs[c] == old(ass[u].aspcs[c]);
      WasEntry(u, c);
    }

    twostate lemma DroppedDown(new s: ActiveSuber)
      requires old(EntriesDown()) && old(UidsOk()) && Dropped(s)
      ensures EntriesDown()
    {
      hide Entries, NoDup, Filed, Dropped;
      forall u, c | u in ass && c in ass[u].aspcs
        ensures Filed(u, c)
      {
        DroppedDownAt(s, u, c);
      }
    }

    twostate lemma DroppedUpAt(new s: ActiveSuber, new c: nat, new a: Aspc)
      requires old(EntriesUp()) && old(EntriesDown()) && old(UidsOk()) && Dropped(s)
      requires c in chansById && a in chansById[c].aspcs.items
      ensures Owned(c, a)
    {
      hide Entries, NoDup;
      assert a in old(chansById[c].aspcs.items);
      assert a.suber.uid in old(ass) && old(a.suber.aspcs[c]) == a;
    }

    twostate lemma DroppedUp(new s: ActiveSuber)
      requires old(EntriesUp()) && old(EntriesDown()) && old(UidsOk()) && Dropped(s)
      ensures EntriesUp()
    {
      hide Entries, NoDup, Owned, Dropped;
      forall c, a | c in chansById && a in chansById[c].aspcs.items
        ensures Owned(c, a)
      {
        DroppedUpAt(s, c, a);
      }
    }

    twostate lemma DroppedRest(new s: ActiveSuber, new subs: set<Sub>)
      requires old(ListsOk()) && old(UidsOk()) && old(KeysOk(subs)) && Dropped(s)
      ensures ListsOk() && UidsOk() && KeysOk(subs)
    {
      forall c | c in chansById
        ensures NoDup(chansById[c].aspcs.items)
      {
        if c in old(s.aspcs) {
          WithoutNoDup(old(chansById[c].aspcs.items), old(s.aspcs[c]));
        }
      }
    }

    twostate lemma DroppedOk(new s: ActiveSuber, new subs: set<Sub>)
      requires old(EntriesOk(subs)) && Dropped(s)
      ensures EntriesOk(subs)
    {
      hide ListsOk, UidsOk, EntriesDown, EntriesUp, KeysOk, Dropped;
      DroppedDown(s);
      DroppedUp(s);
      DroppedRest(s, subs);
    }

    // Nothing about channels and entries depends on nodes and links.
    twostate lemma ChannelsFramed(new subs: set<Sub>)
      requires old(ChansOk()) && old(EntriesOk(subs))
      requires ass == old(ass) && chansById == old(chansById) && chansByName == old(chansByName)
      requires forall c :: c in chansById ==>
                 chansById[c].info == old(chansById[c].info)
                     && chansById[c].aspcs.items == old(chansById[c].aspcs.items)
      requires forall n :: n in chansByName ==> chansByName[n].info == old(chansByName[n].info)
      requires forall u :: u in ass ==> ass[u].aspcs == old(ass[u].aspcs)
      requires forall a :: a in old(Entries()) ==> a.chan == old(a.chan)
      ensures ChansOk() && EntriesOk(subs)
      ensures Lists() == old(Lists()) && Entries() == old(Entries()) && Infos() == old(Infos())
    {
    }

    ghost function NodeAt(n: NodeId): set<NotifDest>
      reads this`nds
    {
      if n in nds then {nds[n]} else {}
    }

    // nd_get or nd_create, ndpas_create and ndpas_put for one subscriber.
    method LinkPut(suber: ActiveSuber, node: NodeId)
      requires NdsOk() && links == LinkLists()
      modifies this`nds, this`links, NodeAt(node)`ndpass, suber`ndpass
      ensures fresh(NodeAt(node) - old(NodeAt(node)))
      ensures node in suber.ndpass
      ensures var l := suber.ndpass[node];
              && fresh(l) && l.suber == suber && l.dest.nodeId == node
              && suber.ndpass == old(suber.ndpass)[node := l]
              && links == old(links)[node := (if node in old(links) then old(links)[node] else []) + [l]]
      ensures links == LinkLists() && node in nds && nds[node].nodeId == node
      ensures forall n :: n in nds && n != node ==> n in old(nds) && nds[n] == old(nds)[n]
    {
      var nd;
      if node in nds {
        nd := nds[node];
      } else {
        nd := new NotifDest(node);
      }
      var ndpas := new Ndpas(suber, nd);
      nd.ndpass := nd.ndpass + [ndpas];
      suber.ndpass := suber.ndpass[node := ndpas];
      nds := nds[node := nd];
      links := links[node := nd.ndpass];
      LinkListsUpdated(node);
    }

    twostate lemma LinkListsUpdated(new node: NodeId)
      requires old(links == LinkLists()) && old(NdsOk())
      requires node in nds && nds[node].nodeId == node && nds == old(nds)[node := nds[node]]
      requires forall n :: n in old(nds) && old(nds)[n] != nds[node] ==> nds[n].ndpass == old(nds[n].ndpass)
      requires links == old(links)[node := nds[node].ndpass]
      ensures links == LinkLists()
    {
    }

    twostate lemma LinkAddedParts(new d: Dest)
      requires LinkAdded(d) && chansById == old(chansById) && fresh(NodeAt(d.node) - old(NodeAt(d.node)))
      requires forall u :: u in ass ==> ass[u].aspcs == old(ass[u].aspcs)
      ensures OnlyNew()
    {
      EntriesKept();
    }

    method MakeLink(d: Dest)
      requires UidsOk() && NdsOk() && links == LinkLists() && LinksUp() && d.uid in ass && d.node !in ass[d.uid].ndpass
      modifies this`nds, this`enabled, this`links, NodeAt(d.node)`ndpass, SuberAt(d.uid)`ndpass
      ensures LinkAdded(d) && links == LinkLists() && fresh(NodeAt(d.node) - old(NodeAt(d.node)))
    {
      hide NdsOk, LinkLists, LinksUp;
      LinkPut(ass[d.uid], d.node);
      enabled := enabled + {d};
    }

    method AddLink(d: Dest)
      requires UidsOk() && LinksOkBut(d.uid) && d.uid in ass && d.node !in ass[d.uid].ndpass
      modifies this`nds, this`enabled, this`links, NodeAt(d.node)`ndpass, SuberAt(d.uid)`ndpass
      ensures LinksOk() && enabled == old(enabled) + {d} && OnlyNew()
    {
      hide LinksOk, UidsOk, NdsOk, LinksDown, LinksUp, EnabledOk, LinkLists, Parts;
      MakeLink(d);
      LinkAddedOk(d);
      LinkAddedParts(d);
    }

    // A link for a subscriber in the table.
    method LinkSuber(d: Dest, ghost subs: set<Sub>)
      requires ChansOk() && EntriesOk(subs) && LinksOkBut(d.uid) && d.uid in ass && d.node !in ass[d.uid].ndpass
      modifies this`nds, this`enabled, this`links, NodeAt(d.node)`ndpass, SuberAt(d.uid)`ndpass
      ensures Valid(subs) && enabled == old(enabled) + {d} && Infos() == old(Infos())
      ensures OnlyNew()
    {
      hide ChansOk, ListsOk, EntriesDown, EntriesUp, KeysOk, LinksOk, LinksOkBut, Parts;
      AddLink(d);
      ChannelsFramed(subs);
    }

    // The entries of a new active subscriber, one per subscribed channel.
    method CreateEntries(suber: ActiveSuber, rows: seq<nat>) returns (aspcs: seq<Aspc>)
      requires forall c :: c in rows ==> c in chansById
      ensures |aspcs| == |rows|
      ensures forall i :: 0 <= i < |rows| ==>
                fresh(aspcs[i]) && aspcs[i].suber == suber && aspcs[i].chan == chansById[rows[i]]
    {
      aspcs := [];
      var i := 0;
      while i < |rows|
        invariant 0 <= i == |aspcs| <= |rows|
        invariant forall k :: 0 <= k < i ==>
                    fresh(aspcs[k]) && aspcs[k].suber == suber && aspcs[k].chan == chansById[rows[k]]
      {
        var aspc := new Aspc(suber, chansById[rows[i]]);
        aspcs := aspcs + [aspc];
        i := i + 1;
      }
    }

    // The first entries have been put: each is in the table and last in its channel's list.
    ghost predicate EntriesPut(suber: ActiveSuber, rows: seq<nat>, aspcs: seq<Aspc>, was: map<nat, seq<Aspc>>)
      requires |aspcs| == |rows|
      reads this`chansById, Lists()`items, suber`aspcs
    {
      && chansById.Keys == was.Keys
      && (forall c :: c in suber.aspcs <==> c in rows)
      && (forall k :: 0 <= k < |rows| ==> rows[k] in suber.aspcs && suber.aspcs[rows[k]] == aspcs[k])
      && forall c :: c in chansById ==>
           chansById[c].aspcs.items == if c in suber.aspcs then was[c] + [suber.aspcs[c]] else was[c]
    }

    // Channels do not share lists.
    ghost predicate Apart()
      reads this`chansById
    {
      forall c, d :: c in chansById && d in chansById && c != d ==> chansById[c].aspcs != chansById[d].aspcs
    }

    lemma NothingPut(suber: ActiveSuber, rows: seq<nat>, aspcs: seq<Aspc>)
      requires suber.aspcs == map[]
      ensures EntriesPut(suber, rows[..0], aspcs[..0], Items())
    {
    }

    method PutEntry(suber: ActiveSuber, c: nat, aspc: Aspc, ghost rows: seq<nat>, ghost aspcs: seq<Aspc>,
                    ghost was: map<nat, seq<Aspc>>)
      requires |aspcs| == |rows| && EntriesPut(suber, rows, aspcs, was) && c in chansById && c !in rows && Apart()
      modifies ListAt(c)`items, suber`aspcs
      ensures EntriesPut(suber, rows + [c], aspcs + [aspc], was)
    {
      var list := chansById[c].aspcs;
      list.items := list.items + [aspc];
      suber.aspcs := suber.aspcs[c := aspc];
    }

    // The aspc_put loop.
    method PutEntries(suber: ActiveSuber, rows: seq<nat>, aspcs: seq<Aspc>)
      requires forall c :: c in rows ==> c in chansById
      requires NoDup(rows) && |aspcs| == |rows| && suber.aspcs == map[] && Apart()
      modifies Lists()`items, suber`aspcs
      ensures EntriesPut(suber, rows, aspcs, old(Items()))
    {
      hide EntriesPut, Apart, NoDup;
      ghost var was := Items();
      var i := 0;
      NothingPut(suber, rows, aspcs);
      while i < |rows|
        invariant 0 <= i <= |rows| && EntriesPut(suber, rows[..i], aspcs[..i], was)
      {
        NoDupIndex(rows, i);
        assert rows[..i + 1] == rows[..i] + [rows[i]] && aspcs[..i + 1] == aspcs[..i] + [aspcs[i]];
        PutEntry(suber, rows[i], aspcs[i], rows[..i], aspcs[..i], was);
        i := i + 1;
      }
      assert rows[..i] == rows && aspcs[..i] == aspcs;
    }

    // A new subscriber without links changes nothing about links.
    twostate lemma ActivatedLinks(new uid: nat)
      requires old(LinksOk()) && uid !in old(ass) && uid in ass && ass == old(ass)[uid := ass[uid]]
      requires ass[uid].ndpass == map[] && nds == old(nds) && links == old(links) && enabled == old(enabled)
      requires forall u :: u in old(ass) ==> ass[u].ndpass == old(ass[u].ndpass)
      requires forall n :: n in nds ==> nds[n].ndpass == old(nds[n].ndpass)
      ensures LinksOkBut(uid)
    {
      assert links == LinkLists();
      assert LinksDown();
      assert LinksUp();
    }

    lemma AllLinked(uid: nat)
      requires LinksOk()
      ensures LinksOkBut(uid)
    {
    }

    // The rows of db_iter_sub_chans: the channels a user is subscribed to, each once.
    ghost predicate SubRows(rows: seq<nat>, uid: nat, subs: set<Sub>)
      reads this`chansById
    {
      && NoDup(rows)
      && (forall c :: c in rows <==> Sub(uid, c) in subs)
      && (forall c :: c in rows ==> c in chansById)
    }

    twostate lemma BuiltFromPut(new suber: ActiveSuber, new rows: seq<nat>, new aspcs: seq<Aspc>, new subs: set<Sub>)
      requires chansById == old(chansById) && SubRows(rows, suber.uid, subs) && |aspcs| == |rows|
      requires forall i :: 0 <= i < |rows| ==>
                 fresh(aspcs[i]) && aspcs[i].suber == suber && aspcs[i].chan == chansById[rows[i]]
      requires EntriesPut(suber, rows, aspcs, old(Items()))
      ensures EntriesBuilt(suber, subs)
    {
      hide NoDup;
      forall c | c in suber.aspcs
        ensures fresh(suber.aspcs[c]) && suber.aspcs[c].suber == suber && suber.aspcs[c].chan == chansById[c]
      {
        var i :| 0 <= i < |rows| && rows[i] == c;
        assert suber.aspcs[rows[i]] == aspcs[i];
      }
    }

    method BuildEntries(suber: ActiveSuber, rows: seq<nat>, ghost subs: set<Sub>)
      requires ListsOk() && SubRows(rows, suber.uid, subs) && suber.aspcs == map[]
      modifies Lists()`items, suber`aspcs
      ensures EntriesBuilt(suber, subs)
    {
      hide NoDup, EntriesPut, EntriesBuilt, Items;
      var aspcs := CreateEntries(suber, rows);
      assert Lists() == old(Lists()) && Items() == old(Items());
      PutEntries(suber, rows, aspcs);
      BuiltFromPut(suber, rows, aspcs, subs);
    }

    // The entries of a new subscriber's channels, and as_put: rows are the channel ids read
    // from the database.
    method PutSuber(suber: ActiveSuber, rows: seq<nat>, ghost subs: set<Sub>)
      requires ListsOk() && suber.uid !in ass && SubRows(rows, suber.uid, subs) && suber.aspcs == map[]
      requires forall u :: u in ass ==> ass[u] != suber
      modifies this`ass, Lists()`items, suber`aspcs
      ensures Activated(suber, subs)
    {
      hide ListsOk, SubRows, EntriesBuilt;
      BuildEntries(suber, rows, subs);
      ass := ass[suber.uid := suber];
    }

    // as_create and what follows it.
    method ActivateSuber(uid: nat, rows: seq<nat>, ghost subs: set<Sub>)
      requires EntriesOk(subs) && uid !in ass && SubRows(rows, uid, subs)
      modifies this`ass, Lists()`items
      ensures EntriesOk(subs)
      ensures uid in ass && fresh(ass[uid]) && ass[uid].ndpass == map[] && ass == old(ass)[uid := ass[uid]]
      ensures OnlyNew()
    {
      hide ListsOk, EntriesDown, EntriesUp, KeysOk, SubRows, Parts;
      var suber := new ActiveSuber(uid);
      assert Lists() == old(Lists()) && Entries() == old(Entries());
      assert Parts() == old(Parts());
      label made:
      PutSuber(suber, rows, subs);
      ActivatedOk@made(suber, subs);
      ActivatedParts@made(suber, subs);
    }

    // A user becomes active unless that is so already.
    method EnsureActive(uid: nat, rows: seq<nat>, ghost subs: set<Sub>)
      requires Valid(subs) && SubRows(rows, uid, subs)
      modifies this`ass, Lists()`items
      ensures ChansOk() && EntriesOk(subs) && LinksOkBut(uid) && Infos() == old(Infos())
      ensures uid in ass && ass == old(ass)[uid := ass[uid]]
      ensures if uid in old(ass) then ass == old(ass) else fresh(ass[uid]) && ass[uid].ndpass == map[]
      ensures OnlyNew()
    {
      hide ChansOk, EntriesOk, NodesOk, NdsOk, LinksDown, LinksUp, EnabledOk, SubRows, Parts, LinksOkBut, LinksOk;
      if uid !in ass {
        ActivateSuber(uid, rows, subs);
        ActivatedLinks(uid);
      } else {
        AllLinked(uid);
      }
    }

    // enable_notification for a user whose node is not linked yet: rows are used when the
    // user is not active.
    method Enable(d: Dest, rows: seq<nat>, ghost subs: set<Sub>)
      requires Valid(subs) && d !in enabled && SubRows(rows, d.uid, subs)
      modifies this`ass, this`nds, this`enabled, this`links, ass.Values`ndpass, nds.Values`ndpass, Lists()`items
      ensures Valid(subs) && enabled == old(enabled) + {d} && Infos() == old(Infos())
      ensures OnlyNew()
    {
      hide ChansOk, EntriesOk, NodesOk, NdsOk, LinksDown, LinksUp, LinksOkBut, SubRows, Parts;
      EnsureActive(d.uid, rows, subs);
      LinkSuber(d, subs);
    }

    // The entries of a subscriber have left the lists they were in; todo are still to go.
    ghost predicate EntriesLeft(suber: ActiveSuber, todo: set<nat>, was: map<nat, seq<Aspc>>)
      reads this`chansById, Lists()`items, suber`aspcs
    {
      && chansById.Keys == was.Keys
      && forall c :: c in chansById ==>
           chansById[c].aspcs.items ==
           if c in suber.aspcs && c !in todo then Without(was[c], suber.aspcs[c]) else was[c]
    }

    method DropEntry(suber: ActiveSuber, c: nat, ghost todo: set<nat>, ghost was: map<nat, seq<Aspc>>)
      requires ListsOk() && EntriesLeft(suber, todo, was)
      requires c in chansById && c in suber.aspcs && suber.aspcs[c].chan == chansById[c] && c in todo
      modifies ListAt(c)`items
      ensures ListsOk() && EntriesLeft(suber, todo - {c}, was)
    {
      hide NoDup;
      var aspc := suber.aspcs[c];
      WithoutNoDup(aspc.chan.aspcs.items, aspc);
      aspc.chan.aspcs.items := Without(aspc.chan.aspcs.items, aspc);
    }

    lemma EntriesIndexed(uid: nat, subs: set<Sub>)
      requires EntriesOk(subs) && uid in ass
      ensures ListsOk() && UidsOk()
      ensures forall c :: c in ass[uid].aspcs ==> c in chansById && ass[uid].aspcs[c].chan == chansById[c]
    {
    }

    // The inner loop of feeds_deactivate_suber.
    method DropEntries(suber: ActiveSuber)
      requires ListsOk()
      requires forall c :: c in suber.aspcs ==> c in chansById && suber.aspcs[c].chan == chansById[c]
      modifies Lists()`items
      ensures EntriesLeft(suber, {}, old(Items()))
    {
      hide ListsOk;
      ghost var was := Items();
      var todo := suber.aspcs.Keys;
      while todo != {}
        invariant ListsOk() && todo <= suber.aspcs.Keys && EntriesLeft(suber, todo, was)
        decreases todo
      {
        hide EntriesLeft;
        var c :| c in todo;
        DropEntry(suber, c, todo, was);
        todo := todo - {c};
      }
    }

    twostate lemma DroppedParts(new s: ActiveSuber)
      requires Dropped(s) && nds == old(nds)
      ensures Parts() <= old(Parts())
    {
      EntriesKept();
    }

    method RemoveSuber(suber: ActiveSuber)
      requires ListsOk() && suber.uid in ass && ass[suber.uid] == suber
      requires forall c :: c in suber.aspcs ==> c in chansById && suber.aspcs[c].chan == chansById[c]
      modifies this`ass, Lists()`items
      ensures Dropped(suber)
    {
      hide ListsOk, EntriesLeft;
      DropEntries(suber);
      ass := ass - {suber.uid};
    }

    // A subscriber whose last node is gone.
    method DropSuber(uid: nat, ghost subs: set<Sub>)
      requires EntriesOk(subs) && uid in ass && ass[uid].ndpass == map[]
      requires NodesOkBut(uid) && LinksDown() && LinksUp() && EnabledOk()
      modifies this`ass, Lists()`items
      ensures EntriesOk(subs) && NodesOk() && LinksDown() && LinksUp() && EnabledOk()
      ensures ass == old(ass) - {uid} && Parts() <= old(Parts())
    {
      hide ListsOk, EntriesOk, LinksDown, LinksUp, EnabledOk, EntriesLeft, Parts;
      EntriesIndexed(uid, subs);
      var suber := ass[uid];
      RemoveSuber(suber);
      DroppedOk(suber, subs);
      DroppedParts(suber);
      DroppedLinks(suber);
      DroppedEnabled(suber);
    }

    method TakeLink(l: Ndpas, node: NodeId, ghost rest: seq<Ndpas>)
      requires l.suber.uid in ass && ass[l.suber.uid] == l.suber && UidsOk()
      modifies this`enabled, this`links, l.suber`ndpass
      ensures Unlinked(Dest(l.suber.uid, node)) && links == old(links)[node := rest]
      ensures Parts() == old(Parts())
    {
      hide Parts;
      l.suber.ndpass := l.suber.ndpass - {node};
      links := links[node := rest];
      enabled := enabled - {Dest(l.suber.uid, node)};
    }

    lemma FirstLink(l: Ndpas, node: NodeId, rest: seq<Ndpas>)
      requires LinksUp() && node in links && links[node] == [l] + rest
      ensures l.suber.uid in ass && ass[l.suber.uid] == l.suber
      ensures node in l.suber.ndpass && l.suber.ndpass[node] == l
    {
      hide NoDup;
      assert l in links[node];
      assert Linking(node, l);
    }

    twostate lemma OthersHaveNodes(new d: Dest)
      requires old(NodesOk()) && Unlinked(d)
      ensures NodesOkBut(d.uid)
    {
    }

    // One link leaves its subscriber's table.
    method Unlink(l: Ndpas, node: NodeId, ghost rest: seq<Ndpas>)
      requires UidsOk() && NodesOk() && LinksDown() && LinksUp() && EnabledOk()
      requires node in links && links[node] == [l] + rest
      modifies this`enabled, this`links, l.suber`ndpass
      ensures l.suber.uid in ass && ass[l.suber.uid] == l.suber
      ensures LinksDown() && LinksUp() && EnabledOk()
      ensures NodesOkBut(l.suber.uid)
      ensures links == old(links)[node := rest] && enabled == old(enabled) - {Dest(l.suber.uid, node)}
      ensures Parts() == old(Parts())
    {
      hide UidsOk, NodesOk, NodesOkBut, LinksDown, LinksUp, EnabledOk, Parts;
      FirstLink(l, node, rest);
      TakeLink(l, node, rest);
      OthersHaveNodes(Dest(l.suber.uid, node));
      UnlinkedOk(Dest(l.suber.uid, node), rest);
    }

    lemma StillHasNode(uid: nat)
      requires NodesOkBut(uid) && uid in ass && ass[uid].ndpass != map[]
      ensures NodesOk()
    {
    }

    // One link of the node being dropped; rest are those still to go.
    method DropLink(l: Ndpas, node: NodeId, ghost rest: seq<Ndpas>, ghost subs: set<Sub>)
      requires ChansOk() && EntriesOk(subs) && NodesOk() && LinksDown() && LinksUp() && EnabledOk()
      requires node in links && links[node] == [l] + rest
      requires l.suber.uid in ass && ass[l.suber.uid] == l.suber
      modifies this`ass, this`enabled, this`links, Lists()`items, SuberAt(l.suber.uid)`ndpass
      ensures ChansOk() && EntriesOk(subs) && NodesOk() && LinksDown() && LinksUp() && EnabledOk()
      ensures links == old(links)[node := rest] && Infos() == old(Infos())
      ensures enabled == old(enabled) - {Dest(l.suber.uid, node)}
      ensures ass == old(ass) || ass == old(ass) - {l.suber.uid}
      ensures Parts() <= old(Parts())
    {
      hide ChansOk, ListsOk, EntriesDown, EntriesUp, KeysOk, NodesOk, NodesOkBut, LinksDown, LinksUp, EnabledOk, Infos,
        Parts;
      Unlink(l, node, rest);
      ChannelsFramed(subs);
      if l.suber.ndpass == map[] {
        DropSuber(l.suber.uid, subs);
      } else {
        StillHasNode(l.suber.uid);
      }
    }

    // The node has no links left to drop.
    twostate lemma NodeGone(new node: NodeId)
      requires old(LinksDown()) && old(LinksUp()) && old(EnabledOk())
      requires node in old(links) && old(links)[node] == [] && links == old(links) - {node}
      requires ass == old(ass) && enabled == old(enabled) && forall u :: u in ass ==>
               ass[u].ndpass == old(ass[u].ndpass)
      ensures LinksDown() && LinksUp() && EnabledOk()
      ensures forall d :: d in enabled ==> d.node != node
    {
      forall d | d in enabled
        ensures d.node != node
      {
        assert d.node in old(ass[d.uid].ndpass);
        assert ass[d.uid].ndpass[d.node] in old(links)[d.node];
      }
    }

    // Valid but for the node table, from which a node may be missing already.
    ghost predicate MidDrop(subs: set<Sub>)
      reads this`ass, this`chansById, this`chansByName, this`enabled, this`links
      reads ass.Values`aspcs, ass.Values`ndpass
      reads chansById.Values`info, chansByName.Values`info, Lists()`items, Entries()`chan
    {
      ChansOk() && EntriesOk(subs) && NodesOk() && LinksDown() && LinksUp() && EnabledOk()
    }

    lemma MidFirst(l: Ndpas, node: NodeId, rest: seq<Ndpas>, subs: set<Sub>)
      requires MidDrop(subs) && node in links && links[node] == [l] + rest
      ensures l.suber.uid in ass && ass[l.suber.uid] == l.suber
    {
      hide ChansOk, EntriesOk, NodesOk, LinksDown, LinksUp, EnabledOk;
      FirstLink(l, node, rest);
    }

    method DropOne(l: Ndpas, node: NodeId, ghost rest: seq<Ndpas>, ghost subs: set<Sub>)
      requires MidDrop(subs) && node in links && links[node] == [l] + rest
      requires l.suber.uid in ass && ass[l.suber.uid] == l.suber
      modifies this`ass, this`enabled, this`links, Lists()`items, SuberAt(l.suber.uid)`ndpass
      ensures MidDrop(subs) && links == old(links)[node := rest] && Infos() == old(Infos())
      ensures enabled == old(enabled) - {Dest(l.suber.uid, node)}
      ensures ass == old(ass) || ass == old(ass) - {l.suber.uid}
      ensures Parts() <= old(Parts())
    {
      hide ChansOk, EntriesOk, NodesOk, LinksDown, LinksUp, EnabledOk, Parts, Infos;
      DropLink(l, node, rest, subs);
    }

    // The outer loop of feeds_deactivate_suber.
    method DropLinks(node: NodeId, ndpass: seq<Ndpas>, ghost subs: set<Sub>)
      requires MidDrop(subs) && node in links && links[node] == ndpass
      modifies this`ass, this`enabled, this`links, Lists()`items, ass.Values`ndpass
      ensures MidDrop(subs) && links == old(links)[node := []] && Infos() == old(Infos())
      ensures Parts() <= old(Parts())
      ensures enabled <= old(enabled) && forall d :: d in old(enabled) && d.node != node ==> d in enabled
    {
      hide MidDrop, Parts, Infos, Lists;
      var i := 0;
      while i < |ndpass|
        invariant 0 <= i <= |ndpass|
        invariant MidDrop(subs) && links == old(links)[node := ndpass[i..]] && Infos() == old(Infos())
        invariant enabled <= old(enabled) && forall d :: d in old(enabled) && d.node != node ==> d in enabled
        invariant ass.Values <= old(ass.Values) && Parts() <= old(Parts())
      {
        var l := ndpass[i];
        assert ndpass[i..] == [l] + ndpass[i + 1..];
        MidFirst(l, node, ndpass[i + 1..], subs);
        DropOne(l, node, ndpass[i + 1..], subs);
        i := i + 1;
      }
      assert ndpass[i..] == [];
    }

    // The node is out of the table; its links go one by one.
    method DropNode(node: NodeId, ndpass: seq<Ndpas>, ghost subs: set<Sub>)
      requires MidDrop(subs) && NdsOk() && node !in nds && links == LinkLists()[node := ndpass]
      modifies this`ass, this`enabled, this`links, Lists()`items, ass.Values`ndpass
      ensures Valid(subs) && Infos() == old(Infos()) && Parts() <= old(Parts())
      ensures enabled <= old(enabled) && forall d :: d in old(enabled) && d.node != node ==> d in enabled
      ensures forall d :: d in enabled ==> d.node != node
    {
      hide MidDrop, Parts;
      DropLinks(node, ndpass, subs);
      assert links == LinkLists()[node := []];
      ForgetNode(node, subs);
    }

    twostate lemma NodeLeft(new node: NodeId)
      requires nds == old(nds) - {node} && ass == old(ass) && chansById == old(chansById)
      requires forall u :: u in ass ==> ass[u].aspcs == old(ass[u].aspcs)
      ensures Parts() <= old(Parts())
    {
      EntriesKept();
    }

    // The node leaves the table.
    method TakeNode(node: NodeId)
      requires NdsOk() && links == LinkLists() && node in nds
      modifies this`nds
      ensures NdsOk() && node !in nds && links == LinkLists()[node := old(nds[node].ndpass)]
      ensures Parts() <= old(Parts())
    {
      hide Parts;
      nds := nds - {node};
      NodeLeft(node);
    }

    // feeds_deactivate_suber.
    method Deactivate(node: NodeId, ghost subs: set<Sub>)
      requires Valid(subs)
      modifies this`ass, this`nds, this`enabled, this`links, Lists()`items, ass.Values`ndpass
      ensures Valid(subs) && Infos() == old(Infos()) && Parts() <= old(Parts())
      ensures enabled == set d | d in old(enabled) && d.node != node
    {
      hide ChansOk, EntriesOk, NodesOk, NdsOk, LinksDown, LinksUp, EnabledOk, Infos, Parts, LinkLists;
      if node !in nds {
        NoSuchNode(node);
      } else {
        var nd := nds[node];
        TakeNode(node);
        assert Lists() == old(Lists()) && Entries() == old(Entries());
        DropNode(node, nd.ndpass, subs);
      }
    }

    ghost method ForgetNode(node: NodeId, subs: set<Sub>)
      requires MidDrop(subs) && NdsOk() && node !in nds && links == LinkLists()[node := []]
      modifies this`links
      ensures Valid(subs) && Infos() == old(Infos()) && Parts() == old(Parts())
      ensures forall d :: d in enabled ==> d.node != node
    {
      hide ChansOk, EntriesOk, NodesOk, LinksDown, LinksUp, EnabledOk;
      links := links - {node};
      NodeGone(node);
    }

    lemma NoSuchNode(node: NodeId)
      requires LinksOk() && node !in nds
      ensures forall d :: d in enabled ==> d.node != node
    {
      forall d | d in enabled
        ensures d.node != node
      {
        assert d.node in ass[d.uid].ndpass;
        assert d.node in LinkLists();
      }
    }

    // -----------------------------------------------------------------------
    // Who is notified
    // -----------------------------------------------------------------------

    // The inner loop of a notification: one per node of an active subscriber.
    method Notify(suber: ActiveSuber) returns (r: seq<Dest>)
      requires LinksDown() && EnabledOk() && suber.uid in ass && ass[suber.uid] == suber
      ensures NoDup(r) && forall d :: d in r <==> d.uid == suber.uid && d in enabled
    {
      r := [];
      var ndpass := suber.ndpass;
      forall n | n in ndpass
        ensures ndpass[n].dest.nodeId == n
      {
        var u := suber.uid;
        assert u in ass;
        assert n in ass[u].ndpass;
        assert n in links;
        assert ass[u].ndpass[n].suber == ass[u];
      }
      var todo := ndpass.Keys;
      while todo != {}
        invariant todo <= ndpass.Keys
        invariant NoDup(r) && forall d :: d in r <==> d.uid == suber.uid && d.node in ndpass && d.node !in todo
        decreases todo
      {
        var n :| n in todo;
        var d := Dest(suber.uid, ndpass[n].dest.nodeId);
        JoinNoDup(r, [d]);
        r := r + [d];
        todo := todo - {n};
      }
    }

    // The notifications for one user who may not be active: as_get and the loop.
    method NotifyUser(uid: nat, ghost subs: set<Sub>) returns (r: seq<Dest>)
      requires Valid(subs)
      ensures NoDup(r) && forall d :: d in r <==> d.uid == uid && d in enabled
    {
      r := [];
      if uid in ass {
        r := Notify(ass[uid]);
      }
    }

    // Distinct entries of a channel belong to distinct subscribers.
    ghost predicate Listed(items: seq<Aspc>, uid: nat) {
      exists k :: 0 <= k < |items| && items[k].suber.uid == uid
    }

    lemma {:induction false} FreshUid(items: seq<Aspc>, i: nat, c: nat)
      requires EntriesUp() && c in chansById && items == chansById[c].aspcs.items && NoDup(items) && i < |items|
      ensures !Listed(items[..i], items[i].suber.uid)
      ensures forall u :: Listed(items[..i + 1], u) <==> Listed(items[..i], u) || u == items[i].suber.uid
    {
      var uid := items[i].suber.uid;
      assert items[i] in items && ass[uid].aspcs[c] == items[i];
      forall k | 0 <= k < i
        ensures items[k].suber.uid != uid
      {
        assert items[k] in items && ass[items[k].suber.uid].aspcs[c] == items[k];
      }
      forall u
        ensures Listed(items[..i + 1], u) <==> Listed(items[..i], u) || u == uid
      {
        if Listed(items[..i], u) {
          var k :| 0 <= k < i && items[..i][k].suber.uid == u;
          assert items[..i + 1][k].suber.uid == u;
        }
        if Listed(items[..i + 1], u) && u != uid {
          var k :| 0 <= k < i + 1 && items[..i + 1][k].suber.uid == u;
          assert items[..i][k].suber.uid == u;
        }
        assert items[..i + 1][i].suber.uid == uid;
      }
    }

    // Among the enabled destinations, those of listed users are those of subscribers.
    lemma {:induction false} ListedSubscribers(c: nat, subs: set<Sub>)
      requires EntriesOk(subs) && EnabledOk() && c in chansById
      ensures forall d :: d in enabled ==> (Listed(chansById[c].aspcs.items, d.uid) <==> Sub(d.uid, c) in subs)
    {
      var items := chansById[c].aspcs.items;
      forall d | d in enabled
        ensures Listed(items, d.uid) <==> Sub(d.uid, c) in subs
      {
        if Listed(items, d.uid) {
          var k :| 0 <= k < |items| && items[k].suber.uid == d.uid;
          assert items[k] in items;
        }
        if Sub(d.uid, c) in subs {
          var a := ass[d.uid].aspcs[c];
          assert a in items && a.suber.uid == d.uid;
        }
      }
    }

    lemma NoDupNil()
      ensures NoDup<Dest>([])
    {
    }

    lemma JoinNoDup(a: seq<Dest>, b: seq<Dest>)
      requires NoDup(a) && NoDup(b) && forall d :: d in a ==> d !in b
      ensures NoDup(a + b)
    {
      var c := a + b;
      forall i, j | 0 <= i < j < |c|
        ensures c[i] != c[j]
      {
        if i < |a| <= j {
          assert a[i] in a && b[j - |a|] in b;
        }
      }
    }

    // Everyone subscribed to a channel, on every node they enabled: each exactly once.
    method FanOut(c: nat, ghost subs: set<Sub>) returns (r: seq<Dest>)
      requires Valid(subs) && c in chansById
      ensures NoDup(r) && forall d :: d in r <==> Sub(d.uid, c) in subs && d in enabled
    {
      hide ChansOk, EntriesDown, EntriesUp, KeysOk, NodesOk, NdsOk, LinksDown, LinksUp, EnabledOk, NoDup, Listed;
      var items := chansById[c].aspcs.items;
      r := [];
      NobodyListed(items);
      NoDupNil();
      var i := 0;
      while i < |items|
        invariant 0 <= i <= |items|
        invariant Valid(subs)
        invariant NoDup(r) && forall d :: d in r <==> Listed(items[..i], d.uid) && d in enabled
      {
        FreshUid(items, i, c);
        EntryActive(items[i], c);
        var one := Notify(items[i].suber);
        assert Lists() == old(Lists()) && Entries() == old(Entries());
        JoinNoDup(r, one);
        r := r + one;
        i := i + 1;
      }
      assert items[..i] == items;
      ListedSubscribers(c, subs);
    }

    lemma NobodyListed(items: seq<Aspc>)
      ensures forall uid :: !Listed(items[..0], uid)
    {
    }

    lemma EntryActive(a: Aspc, c: nat)
      requires EntriesUp() && c in chansById && a in chansById[c].aspcs.items
      ensures a.suber.uid in ass && ass[a.suber.uid] == a.suber
    {
    }
  }
}
