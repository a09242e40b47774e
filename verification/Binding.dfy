/** The binding of a service to its owner (did.c): an owner is declared, a DID imported and
    a credential issued, each recorded in storage, and did_init recomputes the phase. */
module Binding {
  import opened Wrappers

  type Did = string

  datatype Phase = NoOwner | OwnerDeclared | DidImported | VcIssued

  function Rank(p: Phase): nat {
    match p
    case NoOwner => 0
    case OwnerDeclared => 1
    case DidImported => 2
    case VcIssued => 3
  }

  // A credential as received: whether it parses and is valid, and whether its id is the
  // one expected for the service.
  datatype Cred = Cred(parses: bool, valid: bool, idMatches: bool, subject: Did, issuer: Did, date: nat)

  // users[i] has user id i + 1; user 1 is the owner.
  datatype Store = Store(users: seq<Did>, root: bool, doc: Option<Did>, vc: Option<Cred>)

  datatype Live = Live(phase: Phase, owner: Option<Did>, doc: Option<Did>, vc: Option<Cred>)

  datatype State = State(store: Store, live: Live)

  datatype ErrorCode = NotAuthorized | WrongState | InvalidParams | InternalError

  datatype Reply = Ok(phase: Phase) | Err(code: ErrorCode) | Silence

  // Requests with the luck of the operations they use.
  datatype Event =
    | Declare(did: Did, inserted: bool, selected: bool, payload: bool)
    | Import(did: Did, mnemonic: bool, rooted: bool, created: bool, payload: bool)
    | Issue(cred: Cred, stored: bool)
    | SignIn(did: Did, inserted: bool)
    | Restart

  // INSERT ... ON CONFLICT (did)
  function Upsert(users: seq<Did>, did: Did): seq<Did> {
    if did in users then users else users + [did]
  }

  // did_init
  function Init(s: Store): Live {
    if s.users == [] then Live(NoOwner, None, None, None)
    else
      var owner := Some(s.users[0]);
      if !s.root || s.doc.None? then Live(OwnerDeclared, owner, None, None)
      else if s.vc.None? then Live(DidImported, owner, s.doc, None)
      else Live(VcIssued, owner, s.doc, s.vc)
  }

  predicate Acceptable(s: State, c: Cred) {
    && c.parses && c.valid && c.idMatches && Some(c.subject) == s.live.doc && Some(c.issuer) == s.live.owner
    && (s.live.phase == VcIssued && s.live.vc.Some? ==> c.date > s.live.vc.value.date)
  }

  function Next(s: State, e: Event): (State, Reply) {
    var live := s.live;
    match e
    case Declare(did, inserted, selected, payload) =>
      if live.phase == NoOwner then
        if !inserted then (s, Err(InternalError))
        else
          var store := s.store.(users := Upsert(s.store.users, did));
          if !selected then (State(store, live), Err(InternalError))
          else (State(store, Live(OwnerDeclared, Some(did), None, None)), Ok(OwnerDeclared))
      else if Some(did) != live.owner then (s, Err(NotAuthorized))
      else if live.phase == DidImported && !payload then (s, Err(InternalError))
      else (s, Ok(live.phase))
    case Import(did, mnemonic, rooted, created, payload) =>
      if live.phase != OwnerDeclared then (s, Silence)
      else if !mnemonic || !rooted then (s, Err(InternalError))
      else if !created then (State(s.store.(root := true), live), Err(InternalError))
      else
        var store := s.store.(root := true, doc := Some(did));
        (State(store, live.(phase := DidImported, doc := Some(did))),
         if payload then Ok(DidImported) else Err(InternalError))
    case Issue(c, stored) =>
      if live.phase != DidImported && live.phase != VcIssued then (s, Err(WrongState))
      else if !Acceptable(s, c) then (s, Err(InvalidParams))
      else if !stored then (s, Err(InternalError))
      else (State(s.store.(vc := Some(c)), live.(phase := VcIssued, vc := Some(c))), Ok(VcIssued))
    case SignIn(did, inserted) =>
      if Rank(live.phase) < 2 then (s, Silence)
      else if !inserted then (s, Err(InternalError))
      else (State(s.store.(users := Upsert(s.store.users, did)), live), Ok(live.phase))
    case Restart => (State(s.store, Init(s.store)), Silence)
  }

  // -------------------------------------------------------------------------
  // Every step
  // -------------------------------------------------------------------------

  // Live state and storage fit together, but for who the owner is.
  ghost predicate Bound(s: State) {
    var l, t := s.live, s.store;
    && (l.owner.None? <==> l.phase == NoOwner)
    && (l.owner.Some? ==> l.owner.value in t.users)
    && (l.doc.Some? <==> Rank(l.phase) >= 2) && l.doc == t.doc && (t.doc.Some? ==> t.root)
    && (l.vc.Some? <==> l.phase == VcIssued) && l.vc == t.vc
  }

  function FirstUser(users: seq<Did>): Option<Did> {
    if users == [] then None else Some(users[0])
  }

  // What a restart would recompute is what is live exactly when the owner is user 1.
  lemma RecomputedExactly(s: State)
    requires Bound(s)
    ensures Init(s.store) == s.live <==> FirstUser(s.store.users) == s.live.owner
  {
  }

  lemma StepBound(s: State, e: Event)
    requires Bound(s)
    ensures Bound(Next(s, e).0)
  {
  }

  // The phase never goes back, not even over a restart.
  lemma {:induction false} PhaseNeverBack(s: State, e: Event)
    requires Bound(s)
    ensures Rank(s.live.phase) <= Rank(Next(s, e).0.live.phase)
  {
    if e.Restart? && s.live.owner.Some? {
      assert s.store.users != [];
    }
  }

  // A declared owner stays the owner, unless the service restarts while another DID is
  // stored as user 1.
  lemma {:induction false} OwnerKeptExactly(s: State, e: Event)
    requires Bound(s) && s.live.owner.Some?
    ensures Next(s, e).0.live.owner == s.live.owner <==> !e.Restart? || FirstUser(s.store.users) == s.live.owner
    ensures FirstUser(Next(s, e).0.store.users) == FirstUser(s.store.users)
  {
    assert s.store.users != [];
  }

  // -------------------------------------------------------------------------
  // Runs
  // -------------------------------------------------------------------------

  const FRESH := State(Store([], false, None, None), Live(NoOwner, None, None, None))

  function Run(s: State, evs: seq<Event>): State
    decreases |evs|
  {
    if evs == [] then s else Run(Next(s, evs[0]).0, evs[1..])
  }

  lemma {:induction false} RunBound(s: State, evs: seq<Event>)
    requires Bound(s)
    ensures Bound(Run(s, evs)) && Rank(s.live.phase) <= Rank(Run(s, evs).live.phase)
    decreases |evs|
  {
    if evs != [] {
      StepBound(s, evs[0]);
      PhaseNeverBack(s, evs[0]);
      RunBound(Next(s, evs[0]).0, evs[1..]);
    }
  }

  lemma {:induction false} RunSnoc(s: State, evs: seq<Event>, e: Event)
    ensures Run(s, evs + [e]) == Next(Run(s, evs), e).0
    decreases |evs|
  {
    hide Next;
    if evs == [] {
      assert [] + [e] == [e] && [e][1..] == [];
      assert Run(s, [e]) == Run(Next(s, e).0, []);
    } else {
      assert (evs + [e])[1..] == evs[1..] + [e];
      RunSnoc(Next(s, evs[0]).0, evs[1..], e);
    }
  }

  lemma {:induction false} OwnerUntilRestart(s: State, evs: seq<Event>, i: nat)
    requires Bound(s) && s.live.owner.Some? && i <= |evs|
    requires FirstUser(s.store.users) == s.live.owner || forall k :: 0 <= k < i ==> !evs[k].Restart?
    ensures var n := Run(s, evs[..i]);
            Bound(n) && n.live.owner == s.live.owner && FirstUser(n.store.users) == FirstUser(s.store.users)
    decreases i
  {
    if i > 0 {
      hide Next, Bound;
      OwnerUntilRestart(s, evs, i - 1);
      assert evs[..i] == evs[..i - 1] + [evs[i - 1]];
      RunSnoc(s, evs[..i - 1], evs[i - 1]);
      StepBound(Run(s, evs[..i - 1]), evs[i - 1]);
      OwnerKeptExactly(Run(s, evs[..i - 1]), evs[i - 1]);
    }
  }

  // Over any run the owner is the same after every request if and only if there is no
  // restart or the owner is stored as user 1.
  lemma {:induction false} OwnerKeptOverRunsExactly(s: State, evs: seq<Event>)
    requires Bound(s) && s.live.owner.Some?
    ensures (forall i :: 0 <= i <= |evs| ==> Run(s, evs[..i]).live.owner == s.live.owner) <==>
            FirstUser(s.store.users) == s.live.owner || forall k :: 0 <= k < |evs| ==> !evs[k].Restart?
  {
    hide Next, Bound, Run;
    if FirstUser(s.store.users) == s.live.owner || forall k :: 0 <= k < |evs| ==> !evs[k].Restart? {
      forall i | 0 <= i <= |evs|
        ensures Run(s, evs[..i]).live.owner == s.live.owner
      {
        OwnerUntilRestart(s, evs, i);
      }
    } else {
      var k := FirstRestart(evs);
      OwnerUntilRestart(s, evs, k);
      assert evs[..k + 1] == evs[..k] + [evs[k]];
      RunSnoc(s, evs[..k], evs[k]);
      OwnerKeptExactly(Run(s, evs[..k]), evs[k]);
      assert Run(s, evs[..k + 1]).live.owner != s.live.owner;
    }
  }

  function FirstRestart(evs: seq<Event>): (k: nat)
    requires exists k :: 0 <= k < |evs| && evs[k].Restart?
    ensures k < |evs| && evs[k].Restart? && forall j :: 0 <= j < k ==> !evs[j].Restart?
  {
    if evs[0].Restart? then 0 else 1 + FirstRestart(evs[1..])
  }

  // Issuance dates of the credentials accepted in a run.
  function AcceptedDates(s: State, evs: seq<Event>): seq<nat>
    decreases |evs|
  {
    if evs == [] then []
    else
      var n := Next(s, evs[0]);
      (if evs[0].Issue? && n.1.Ok? then [evs[0].cred.date] else []) + AcceptedDates(n.0, evs[1..])
  }

  // Strictly increasing, and later than a date given.
  ghost predicate Rising(after: Option<nat>, ds: seq<nat>) {
    && (after.Some? ==> forall i :: 0 <= i < |ds| ==> after.value < ds[i])
    && (forall i, j :: 0 <= i < j < |ds| ==> ds[i] < ds[j])
  }

  lemma RisingCons(after: Option<nat>, d: nat, ds: seq<nat>)
    requires Rising(Some(d), ds) && (after.Some? ==> after.value < d)
    ensures Rising(after, [d] + ds)
  {
    var all := [d] + ds;
    forall i | 0 <= i < |all|
      ensures after.Some? ==> after.value < all[i]
      ensures forall j :: i < j < |all| ==> all[i] < all[j]
    {
      if i > 0 {
        assert all[i] == ds[i - 1];
      }
    }
  }

  function Current(s: State): Option<nat> {
    match s.live.vc
    case None => None
    case Some(c) => Some(c.date)
  }

  // Whatever happens, restarts included, each credential accepted is newer than the one
  // before.
  lemma {:induction false} DatesIncrease(s: State, evs: seq<Event>)
    requires Bound(s)
    ensures Rising(Current(s), AcceptedDates(s, evs))
    decreases |evs|
  {
    if evs != [] {
      hide Rising;
      var n := Next(s, evs[0]);
      StepBound(s, evs[0]);
      DatesIncrease(n.0, evs[1..]);
      if evs[0].Issue? && n.1.Ok? {
        RisingCons(Current(s), evs[0].cred.date, AcceptedDates(n.0, evs[1..]));
      } else {
        RisingLater(s, evs[0], AcceptedDates(n.0, evs[1..]));
      }
    }
  }

  lemma RisingLater(s: State, e: Event, ds: seq<nat>)
    requires Bound(s) && !(e.Issue? && Next(s, e).1.Ok?) && Rising(Current(Next(s, e).0), ds)
    ensures Rising(Current(s), ds)
  {
    if s.live.vc.Some? {
      VcKept(s, e);
    }
  }

  lemma VcKept(s: State, e: Event)
    requires Bound(s) && s.live.vc.Some?
    ensures var n := Next(s, e);
            n.0.live.vc.Some? && (if e.Issue? && n.1.Ok? then n.0.live.vc == Some(e.cred) else n.0.live.vc == s.live.vc)
    ensures e.Issue? && Next(s, e).1.Ok? ==> e.cred.date > s.live.vc.value.date
  {
    if e.Restart? {
      assert s.store.users != [];
    }
  }

  // -------------------------------------------------------------------------
  // Who may do what
  // -------------------------------------------------------------------------

  function ReplyAt(s: State, evs: seq<Event>, i: nat): Reply
    requires i < |evs|
  {
    Next(Run(s, evs[..i]), evs[i]).1
  }

  // A declaration is accepted from the owner, or from the first to come; it makes whoever is
  // answered Ok the owner, and changes nothing once there is one.
  lemma DeclareExactly(s: State, did: Did, inserted: bool, selected: bool, payload: bool)
    requires Bound(s)
    ensures var n := Next(s, Declare(did, inserted, selected, payload));
            && (n.1.Ok? ==> n.0.live.owner == Some(did) && n.1 == Ok(n.0.live.phase))
            && (n.1 == Err(NotAuthorized) <==> s.live.owner.Some? && s.live.owner != Some(did))
            && (s.live.owner.Some? ==> n.0 == s)
            && (s.live.owner == Some(did) ==> (n.1.Ok? <==> payload || s.live.doc.None? || s.live.vc.Some?))
            && (s.live.owner.None? ==> (n.1.Ok? <==> inserted && selected))
            && (!n.1.Ok? ==> n.0.live == s.live)
  {
  }

  // A DID is imported only between the declaration and the first import, and only if every
  // step of it succeeds; it never touches the owner or the users.
  lemma ImportExactly(s: State, did: Did, mnemonic: bool, rooted: bool, created: bool, payload: bool)
    requires Bound(s)
    ensures var n := Next(s, Import(did, mnemonic, rooted, created, payload));
            var imports := s.live.owner.Some? && s.live.doc.None? && mnemonic && rooted && created;
            && (imports ==> n.0.live.doc == Some(did) == n.0.store.doc && n.0.live.phase == DidImported)
            && (!imports ==> n.0.live == s.live && n.0.store.doc == s.store.doc)
            && (n.1.Ok? <==> imports && payload)
            && n.0.live.owner == s.live.owner && n.0.store.users == s.store.users && n.0.live.vc == s.live.vc
  {
  }

  // Over every run, a credential is accepted exactly if it parses, is valid, has the expected
  // id, is stored, was issued by the owner for the DID imported, and is newer than the
  // credential in force.
  lemma IssueExactly(s: State, evs: seq<Event>, i: nat)
    requires Bound(s) && i < |evs| && evs[i].Issue?
    ensures var c, was := evs[i].cred, Run(s, evs[..i]).live;
            ReplyAt(s, evs, i).Ok? <==>
            && c.parses && c.valid && c.idMatches && evs[i].stored
            && was.owner == Some(c.issuer) && was.doc == Some(c.subject)
            && (was.vc.Some? ==> was.vc.value.date < c.date)
    ensures var n := Next(Run(s, evs[..i]), evs[i]);
            if ReplyAt(s, evs, i).Ok? then n.1 == Ok(VcIssued) && n.0.live.vc == Some(evs[i].cred) == n.0.store.vc
            else n.0 == Run(s, evs[..i])
  {
    RunBound(s, evs[..i]);
  }

  // Users are never removed, and only a stored declaration or sign-in adds one, at the end. A
  // sign-in needs an imported DID and changes nothing else.
  lemma UsersGrow(s: State, e: Event)
    requires Bound(s)
    ensures var n := Next(s, e).0;
            && (n.store.users != s.store.users ==>
                  && ((e.Declare? && s.live.owner.None?) || (e.SignIn? && s.live.doc.Some?))
                  && e.inserted && e.did !in s.store.users && n.store.users == s.store.users + [e.did])
            && (e.SignIn? && e.inserted && s.live.doc.Some? ==> e.did in n.store.users)
            && (e.SignIn? ==> n == s.(store := s.store.(users := n.store.users)))
  {
  }

  // The DID was imported by request j.
  ghost predicate ImportedBy(evs: seq<Event>, j: nat, did: Did) {
    && j < |evs| && evs[j].Import? && evs[j].did == did && evs[j].mnemonic && evs[j].rooted && evs[j].created
    && Run(FRESH, evs[..j]).live.phase == OwnerDeclared
  }

  lemma PrefixOf(evs: seq<Event>, j: nat)
    requires evs != [] && j < |evs| - 1
    ensures evs[..|evs| - 1][..j] == evs[..j] && evs[..|evs| - 1][j] == evs[j]
  {
  }

  lemma ImportsGrow(evs: seq<Event>, did: Did)
    requires evs != []
    ensures var was := evs[..|evs| - 1];
            (exists j: nat :: ImportedBy(evs, j, did)) <==>
            (exists j: nat :: ImportedBy(was, j, did)) || ImportedBy(evs, |evs| - 1, did)
  {
    hide Run;
    var n := |evs| - 1;
    var was := evs[..n];
    forall j: nat | j < n
      ensures ImportedBy(evs, j, did) <==> ImportedBy(was, j, did)
    {
      PrefixOf(evs, j);
    }
    if j: nat :| ImportedBy(evs, j, did) {
      assert j < n ==> ImportedBy(was, j, did);
    }
    if j: nat :| ImportedBy(was, j, did) {
      assert ImportedBy(evs, j, did);
    }
  }

  // The DID the service has is the one a request of the history imported.
  lemma {:induction false} ImportedByHistory(evs: seq<Event>, did: Did)
    ensures Run(FRESH, evs).live.doc == Some(did) <==> exists j: nat :: ImportedBy(evs, j, did)
    decreases |evs|
  {
    if evs != [] {
      hide Next, Bound, Run;
      var n := |evs| - 1;
      var was, e := evs[..n], evs[n];
      assert evs == was + [e];
      ImportedByHistory(was, did);
      RunSnoc(FRESH, was, e);
      FreshBound();
      RunBound(FRESH, was);
      DocStep(Run(FRESH, was), e, did);
      ImportsGrow(evs, did);
    }
  }

  lemma FreshBound()
    ensures Bound(FRESH)
  {
  }

  lemma DocStep(s: State, e: Event, did: Did)
    requires Bound(s)
    ensures Next(s, e).0.live.doc == Some(did) <==>
            || s.live.doc == Some(did)
            || (e.Import? && e.did == did && e.mnemonic && e.rooted && e.created && s.live.phase == OwnerDeclared)
  {
    if e.Restart? && s.live.owner.Some? {
      assert s.store.users != [];
    }
  }

  // Request j issued the credential: by the owner of that moment, for the DID imported.
  ghost predicate IssuedBy(evs: seq<Event>, j: nat, c: Cred) {
    && j < |evs| && evs[j].Issue? && evs[j].cred == c && ReplyAt(FRESH, evs, j).Ok?
    && Run(FRESH, evs[..j]).live.owner == Some(c.issuer) && Run(FRESH, evs[..j]).live.doc == Some(c.subject)
  }

  ghost predicate NoneAcceptedAfter(evs: seq<Event>, j: nat) {
    forall k :: j < k < |evs| && evs[k].Issue? ==> !ReplyAt(FRESH, evs, k).Ok?
  }

  // The credential in force is the last one accepted, and it was issued by whoever was the
  // owner then.
  lemma {:induction false} CredentialInForce(evs: seq<Event>, c: Cred)
    ensures Run(FRESH, evs).live.vc == Some(c) <==>
            exists j: nat :: IssuedBy(evs, j, c) && NoneAcceptedAfter(evs, j)
    decreases |evs|
  {
    if evs == [] {
    } else {
      hide Next, Bound, Run;
      var n := |evs| - 1;
      var was, e := evs[..n], evs[n];
      assert evs == was + [e];
      CredentialInForce(was, c);
      RunSnoc(FRESH, was, e);
      FreshBound();
      RunBound(FRESH, was);
      VcStep(Run(FRESH, was), e);
      if e.Issue? && ReplyAt(FRESH, evs, n).Ok? {
        IssueExactly(FRESH, evs, n);
        if e.cred == c {
          assert IssuedBy(evs, n, c) && NoneAcceptedAfter(evs, n);
        }
        OnlyTheLast(evs, c);
      } else {
        LastStays(evs, c);
      }
    }
  }

  lemma VcStep(s: State, e: Event)
    requires Bound(s)
    ensures var n := Next(s, e);
            n.0.live.vc == if e.Issue? && n.1.Ok? then Some(e.cred) else s.live.vc
  {
    if e.Restart? && s.live.owner.Some? {
      assert s.store.users != [];
    }
  }

  // After an accepted credential no earlier one is the last.
  lemma OnlyTheLast(evs: seq<Event>, c: Cred)
    requires evs != [] && evs[|evs| - 1].Issue? && ReplyAt(FRESH, evs, |evs| - 1).Ok?
    ensures (exists j: nat :: IssuedBy(evs, j, c) && NoneAcceptedAfter(evs, j)) ==> evs[|evs| - 1].cred == c
  {
    hide Run, Next;
    if exists j: nat :: IssuedBy(evs, j, c) && NoneAcceptedAfter(evs, j) {
      var j: nat :| IssuedBy(evs, j, c) && NoneAcceptedAfter(evs, j);
      assert j == |evs| - 1;
    }
  }

  // Any other request leaves the last one the last.
  lemma LastStays(evs: seq<Event>, c: Cred)
    requires evs != [] && !(evs[|evs| - 1].Issue? && ReplyAt(FRESH, evs, |evs| - 1).Ok?)
    ensures var was := evs[..|evs| - 1];
            (exists j: nat :: IssuedBy(evs, j, c) && NoneAcceptedAfter(evs, j)) <==>
            (exists j: nat :: IssuedBy(was, j, c) && NoneAcceptedAfter(was, j))
  {
    hide Run, Next;
    var n := |evs| - 1;
    var was := evs[..n];
    forall j | 0 <= j < n
      ensures IssuedBy(evs, j, c) && NoneAcceptedAfter(evs, j) <==> IssuedBy(was, j, c) && NoneAcceptedAfter(was, j)
    {
      PrefixOf(evs, j);
      forall k | j < k < n
        ensures ReplyAt(FRESH, evs, k) == ReplyAt(FRESH, was, k)
      {
        PrefixOf(evs, k);
      }
    }
    assert !IssuedBy(evs, n, c);
  }

  // Of a history only the declarations matter: who was first recorded as a user, and who
  // was last told to be the owner.
  datatype Claim = Claim(recorded: Option<Did>, owner: Option<Did>)

  function Claims(c: Claim, evs: seq<Event>): Claim
    decreases |evs|
  {
    if evs == [] then c else Claims(Claimed(c, evs[0]), evs[1..])
  }

  function Claimed(c: Claim, e: Event): Claim {
    match e
    case Declare(did, inserted, selected, _) =>
      if c.owner.Some? || !inserted then c
      else Claim(if c.recorded.None? then Some(did) else c.recorded, if selected then Some(did) else None)
    case Restart => Claim(c.recorded, c.recorded)
    case _ => c
  }

  ghost predicate Tracks(c: Claim, s: State) {
    c.recorded == FirstUser(s.store.users) && c.owner == s.live.owner
  }

  lemma StepTracks(c: Claim, s: State, e: Event)
    requires Bound(s) && Tracks(c, s)
    ensures Tracks(Claimed(c, e), Next(s, e).0)
  {
  }

  lemma {:induction false} RunTracks(c: Claim, s: State, evs: seq<Event>)
    requires Bound(s) && Tracks(c, s)
    ensures Tracks(Claims(c, evs), Run(s, evs))
    decreases |evs|
  {
    if evs != [] {
      StepBound(s, evs[0]);
      StepTracks(c, s, evs[0]);
      RunTracks(Claimed(c, evs[0]), Next(s, evs[0]).0, evs[1..]);
    }
  }

  // After any history, did_init recomputes the live phase, owner, DID and credential
  // exactly when the first DID recorded is the one told to be the owner.
  lemma RecomputableExactly(evs: seq<Event>)
    ensures var s, c := Run(FRESH, evs), Claims(Claim(None, None), evs);
            Init(s.store) == s.live <==> c.recorded == c.owner
  {
    RunBound(FRESH, evs);
    RunTracks(Claim(None, None), FRESH, evs);
    RecomputedExactly(Run(FRESH, evs));
  }

  // A declaration whose row was stored but could not be read back.
  predicate HalfFailed(e: Event) {
    e.Declare? && e.inserted && !e.selected
  }

  lemma {:induction false} ClaimsAgree(c: Claim, evs: seq<Event>)
    requires c.recorded == c.owner && forall k :: 0 <= k < |evs| ==> !HalfFailed(evs[k])
    ensures Claims(c, evs).recorded == Claims(c, evs).owner
    decreases |evs|
  {
    if evs != [] {
      assert !HalfFailed(evs[0]);
      ClaimsAgree(Claimed(c, evs[0]), evs[1..]);
    }
  }

  // So it always does when no declaration half failed.
  lemma RecomputableWithoutHalfFailures(evs: seq<Event>)
    requires forall k :: 0 <= k < |evs| ==> !HalfFailed(evs[k])
    ensures var s := Run(FRESH, evs); Init(s.store) == s.live
  {
    RecomputableExactly(evs);
    ClaimsAgree(Claim(None, None), evs);
  }

  // One that did lets a second DID be declared, and a restart gives the service back to
  // the first.
  lemma HalfFailureChangesOwner(a: Did, b: Did)
    requires a != b
    ensures var evs := [Declare(a, true, false, true), Declare(b, true, true, true)];
            && Run(FRESH, evs).live.owner == Some(b)
            && Run(FRESH, evs + [Restart]).live.owner == Some(a)
  {
    var e0, e1 := Declare(a, true, false, true), Declare(b, true, true, true);
    var s0 := Next(FRESH, e0).0;
    var s1 := Next(s0, e1).0;
    assert s1.store.users == [a, b];
    assert [e0, e1][1..] == [e1] && [e1][1..] == [];
    assert Run(FRESH, [e0, e1]) == Run(s0, [e1]) == Run(s1, []);
    assert [e0, e1] + [Restart] == [e0, e1, Restart];
    assert [e0, e1, Restart][1..] == [e1, Restart] && [e1, Restart][1..] == [Restart] && [Restart][1..] == [];
    assert Run(FRESH, [e0, e1, Restart]) == Run(s0, [e1, Restart]) == Run(s1, [Restart]) == Next(s1, Restart).0;
  }

  // -------------------------------------------------------------------------
  // The handlers
  // -------------------------------------------------------------------------

  class Service {
    var users: seq<Did>
    var root: bool
    var storedDoc: Option<Did>
    var storedVc: Option<Cred>
    var phase: Phase
    var owner: Option<Did>
    var doc: Option<Did>
    var vc: Option<Cred>

    ghost function Abs(): State
      reads this
    {
      State(Store(users, root, storedDoc, storedVc), Live(phase, owner, doc, vc))
    }

    // did_init
    constructor (store: Store)
      ensures Abs() == State(store, Init(store))
    {
      users, root, storedDoc, storedVc := store.users, store.root, store.doc, store.vc;
      phase, owner, doc, vc := NoOwner, None, None, None;
      if store.users != [] {
        owner := Some(store.users[0]);
        if !store.root {
          phase := OwnerDeclared;
        } else {
          doc := store.doc;
          if store.doc == None {
            phase := OwnerDeclared;
          } else {
            vc := store.vc;
            phase := if store.vc == None then DidImported else VcIssued;
          }
        }
      }
    }

    // db_upsert_user: the row may be stored although the operation fails.
    method UpsertUser(did: Did, inserted: bool, selected: bool) returns (rc: int)
      modifies this`users
      ensures users == if inserted then Upsert(old(users), did) else old(users)
      ensures rc == if inserted && selected then 0 else -1
    {
      rc := -1;
      if inserted {
        if did !in users {
          users := users + [did];
        }
        if selected {
          rc := 0;
        }
      }
    }

    // hdl_decl_owner_req
    method DeclareOwner(did: Did, inserted: bool, selected: bool, payload: bool) returns (reply: Reply)
      requires Bound(Abs())
      modifies this
      ensures (Abs(), reply) == Next(old(Abs()), Declare(did, inserted, selected, payload))
    {
      if phase == NoOwner {
        owner := Some(did);
        var rc := UpsertUser(did, inserted, selected);
        if rc < 0 {
          owner := None;
          return Err(InternalError);
        }
        phase := OwnerDeclared;
        return Ok(OwnerDeclared);
      }
      if Some(did) != owner {
        return Err(NotAuthorized);
      }
      if phase == DidImported && !payload {
        return Err(InternalError);
      }
      return Ok(phase);
    }

    // hdl_imp_did_req
    method ImportDid(did: Did, mnemonic: bool, rooted: bool, created: bool, payload: bool) returns (reply: Reply)
      requires Bound(Abs())
      modifies this
      ensures (Abs(), reply) == Next(old(Abs()), Import(did, mnemonic, rooted, created, payload))
    {
      if phase != OwnerDeclared {
        return Silence;
      }
      if !mnemonic {
        return Err(InternalError);
      }
      if !rooted {
        return Err(InternalError);
      }
      root := true;
      if !created {
        doc := None;
        return Err(InternalError);
      }
      storedDoc := Some(did);
      doc := Some(did);
      phase := DidImported;
      return if payload then Ok(DidImported) else Err(InternalError);
    }

    // process_vc_req
    method IssueCredential(c: Cred, stored: bool) returns (reply: Reply)
      requires Bound(Abs())
      modifies this
      ensures (Abs(), reply) == Next(old(Abs()), Issue(c, stored))
    {
      if phase != DidImported && phase != VcIssued {
        return Err(WrongState);
      }
      if !c.parses || !c.valid || !c.idMatches {
        return Err(InvalidParams);
      }
      if Some(c.subject) != doc {
        return Err(InvalidParams);
      }
      if Some(c.issuer) != owner {
        return Err(InvalidParams);
      }
      if phase == VcIssued && c.date <= vc.value.date {
        return Err(InvalidParams);
      }
      if !stored {
        return Err(InternalError);
      }
      storedVc := Some(c);
      vc := Some(c);
      if phase == DidImported {
        phase := VcIssued;
      }
      return Ok(VcIssued);
    }
  }
}
