/**
 Whole requests, one at a time: a request begins only when the one before it is done.

 On a database with the unique index, and as long as no cleanup is cut short, the store is at rest
 between requests: the three session collections are exclusive and every token has one holder,
 unrevoked. Inside a request this holds of `Settled`, the store with the request's pending write
 already applied.
 */
module Serial {
  import opened Wrappers
  import opened Protocol
  import opened Interleaved

  datatype SerialMove = Open(pc: Pc) | Answer(reply: Reply)

  ghost predicate SerialLegal(m: Moment, move: SerialMove) {
    match move
    case Open(pc) => m.pc.Done? && Fresh(pc)
    case Answer(r) => Enabled(m.g, m.pc, r)
  }

  ghost function SerialTake(cfg: Config, m: Moment, move: SerialMove): Moment
    requires SerialLegal(m, move)
  {
    match move
    case Open(pc) => Moment(m.g, pc)
    case Answer(r) => Next(cfg, m.g, m.pc, r)
  }

  // ---- A store at rest -------------------------------------------------------------------

  ghost predicate Exclusive(g: Shared) {
    g.initial.Keys !! g.started.Keys !! g.completed.Keys
  }

  ghost predicate CompletedTokensDiffer(completed: map<ObjectId, Completed>) {
    forall a, b | a in completed && b in completed &&
                  completed[a].auth.accessToken == completed[b].auth.accessToken :: a == b
  }

  ghost predicate LinkTokensDiffer(links: map<ObjectId, Link>) {
    forall a, b | a in links && b in links && links[a].auth.accessToken == links[b].auth.accessToken :: a == b
  }

  ghost predicate NoTokenTwice(completed: map<ObjectId, Completed>, links: map<ObjectId, Link>) {
    forall a, b | a in completed && b in links :: completed[a].auth.accessToken != links[b].auth.accessToken
  }

  ghost predicate LinksUnrevoked(links: map<ObjectId, Link>, revoked: set<Token>) {
    forall id | id in links :: links[id].auth.accessToken !in revoked
  }

  ghost predicate CompletedUnrevoked(completed: map<ObjectId, Completed>, revoked: set<Token>) {
    forall id | id in completed :: completed[id].auth.accessToken !in revoked
  }

  ghost predicate SingleHolders(completed: map<ObjectId, Completed>, links: map<ObjectId, Link>) {
    CompletedTokensDiffer(completed) && LinkTokensDiffer(links) && NoTokenTwice(completed, links)
  }

  ghost predicate Unrevoked(completed: map<ObjectId, Completed>, links: map<ObjectId, Link>, revoked: set<Token>) {
    CompletedUnrevoked(completed, revoked) && LinksUnrevoked(links, revoked)
  }

  ghost predicate AtRest(g: Shared) {
    Exclusive(g) && SingleHolders(g.completed, g.links) && Unrevoked(g.completed, g.links, g.revoked)
  }

  // ---- The pending write -----------------------------------------------------------------

  ghost function DocOf(g: Shared, sid: SessionId): set<ObjectId> {
    if sid in g.born then {g.born[sid].oid} else {}
  }

  ghost function LinksOf(g: Shared, username: Username): set<ObjectId> {
    set id | id in g.links && g.links[id].username == username
  }

  /** The time up to which completed sessions are going to be deleted, once a cleanup has revoked a token. */
  function Doomed(pc: CleanupPc): Option<int> {
    match pc
    case CleanupRevoke(cutoff, _, touched) => if touched then Some(cutoff) else None
    case CleanupRestamp(cutoff) => Some(cutoff)
    case CleanupInitial(now) => Some(now)
    case CleanupStarted(now) => Some(now)
    case CleanupCompleted(now) => Some(now)
    case _ => None
  }

  predicate Pending(pc: Pc) {
    match pc
    case Start(p) => p.StartDelete?
    case Continue(p) => p.ContinueDelete?
    case Finish(p) => p.FinishDelete?
    case Cleanup(p) => Doomed(p).Some?
    case Unlink(p) => p.UnlinkDelete?
    case Refresh(p) => p.RefreshRestamp? || p.RefreshSave?
    case _ => false
  }

  ghost function Settled(g: Shared, pc: Pc): Shared
    requires Pending(pc)
  {
    match pc
    case Start(p) => g.(initial := g.initial - DocOf(g, p.sessionId))
    case Continue(p) => g.(started := g.started - DocOf(g, p.sessionId))
    case Finish(p) => g.(completed := g.completed - DocOf(g, p.sessionId))
    case Cleanup(p) => g.(completed := g.completed - ExpiredCompleted(g, Doomed(p).value))
    case Unlink(p) => g.(links := g.links - LinksOf(g, p.username))
    case Refresh(p) => g.(links := g.links - LinksOf(g, p.link.username))
  }

  ghost predicate Rests(g: Shared, pc: Pc) {
    if Pending(pc) then AtRest(Settled(g, pc)) else AtRest(g)
  }

  // ---- What a request knows when no other runs beside it ---------------------------------

  /** Nothing stored holds the token, and ORCID was not told to revoke it. */
  ghost predicate Unheld(g: Shared, token: Token) {
    && (forall id | id in g.completed :: g.completed[id].auth.accessToken != token)
    && (forall id | id in g.links :: g.links[id].auth.accessToken != token)
  }

  ghost predicate Unused(g: Shared, token: Token) {
    Unheld(g, token) && token !in g.revoked
  }

  ghost predicate IsStoredCompleted(g: Shared, c: Completed) {
    && c.base.sessionId in g.born && g.born[c.base.sessionId].oid in g.completed
    && g.completed[g.born[c.base.sessionId].oid] == c
  }

  ghost predicate IsStoredLink(g: Shared, link: Link) {
    exists id :: id in g.links && g.links[id] == link
  }

  ghost predicate StartKnows(g: Shared, pc: StartPc) {
    match pc
    case StartInsert(oid, _) => oid in g.initial
    case StartDelete(sid) => sid in g.born && g.born[sid].oid in g.initial
    case _ => true
  }

  ghost predicate ContinueKnows(g: Shared, pc: ContinuePc) {
    match pc
    case ContinueLookup(_, auth) => Unused(g, auth.accessToken)
    case ContinueFind(_, auth) => Unused(g, auth.accessToken)
    case ContinueInsert(oid, doc) => oid in g.started && Unused(g, doc.auth.accessToken)
    case ContinueDelete(sid) => sid in g.born && g.born[sid].oid in g.started
    case _ => true
  }

  ghost predicate FinishKnows(g: Shared, pc: FinishPc) {
    match pc
    case FinishStamp(_, session) => IsStoredCompleted(g, session)
    case FinishInsert(sid, _, link) =>
      sid in g.born && g.born[sid].oid in g.completed && g.completed[g.born[sid].oid].auth == link.auth
    case FinishDelete(sid, linkId) => sid in g.born && g.born[sid].oid in g.completed
    case _ => true
  }

  ghost predicate DropKnows(g: Shared, pc: DropPc) {
    match pc
    case DropDelete(session) => IsStoredCompleted(g, session)
    case DropRevoke(token) => Unheld(g, token) && token in g.owner
    case _ => true
  }

  ghost predicate CleanupKnows(g: Shared, pc: CleanupPc) {
    match pc
    case CleanupRead(cutoff) => cutoff <= g.clock
    case CleanupRevoke(cutoff, queue, touched) =>
      && cutoff <= g.clock && Exclusive(g) && SingleHolders(g.completed, g.links)
      && (touched ==> !CompletedUnrevoked(g.completed, g.revoked))
      && AllExpiring(g, cutoff, queue)
    case CleanupRestamp(cutoff) => cutoff <= g.clock
    case _ => true
  }

  ghost predicate RefreshKnows(g: Shared, pc: RefreshPc) {
    match pc
    case UseCheck(link) => IsStoredLink(g, link)
    case RefreshStamp(link) => IsStoredLink(g, link)
    case RefreshCall(link, _) => IsStoredLink(g, link)
    case RefreshRestamp(_, auth, _) => Unused(g, auth.accessToken)
    case RefreshSave(link) => Unused(g, link.auth.accessToken)
    case _ => true
  }

  ghost predicate Knows(g: Shared, pc: Pc) {
    match pc
    case Start(p) => StartKnows(g, p)
    case Continue(p) => ContinueKnows(g, p)
    case Finish(p) => FinishKnows(g, p)
    case Drop(p) => DropKnows(g, p)
    case Cleanup(p) => CleanupKnows(g, p)
    case Unlink(p) => p.UnlinkRevoke? ==> IsStoredLink(g, p.link)
    case Refresh(p) => RefreshKnows(g, p)
    case _ => true
  }

  ghost predicate Alone(g: Shared, pc: Pc) {
    Rests(g, pc) && g.revoked <= g.owner.Keys && Knows(g, pc)
  }

  ghost predicate SerialInvariant(cfg: Config, m: Moment) {
    m.g.uniqueIndex && Invariant(cfg, m.g) && Holds(cfg, m.g, m.pc) && Alone(m.g, m.pc)
  }

  ghost predicate SessionsGood(g: Shared) {
    && InitialGood(g.born, g.initial) && StartedGood(g.born, g.started) && CompletedGood(g.born, g.owner, g.completed)
    && Registered(g.born, g.sessionOf)
    && (forall id | id in g.links :: g.links[id].auth.accessToken in g.owner)
  }

  // ---- Each access keeps it --------------------------------------------------------------

  lemma HoldersAdd(completed: map<ObjectId, Completed>, links: map<ObjectId, Link>, oid: ObjectId, doc: Completed)
    requires SingleHolders(completed, links) && oid !in completed
    requires forall id | id in completed :: completed[id].auth.accessToken != doc.auth.accessToken
    requires forall id | id in links :: links[id].auth.accessToken != doc.auth.accessToken
    ensures SingleHolders(completed[oid := doc], links)
  {
  }

  /** Finish hands the token of a completed session over to a link. */
  lemma HoldersMove(completed: map<ObjectId, Completed>, links: map<ObjectId, Link>, id: ObjectId, oid: ObjectId,
                    link: Link)
    requires SingleHolders(completed, links) && id in completed && oid !in links && link.auth == completed[id].auth
    ensures SingleHolders(completed - {id}, links[oid := link])
  {
  }

  lemma HoldersRemove(completed: map<ObjectId, Completed>, links: map<ObjectId, Link>,
                      completed': map<ObjectId, Completed>, links': map<ObjectId, Link>)
    requires SingleHolders(completed, links) && Submap(completed', completed) && Submap(links', links)
    ensures SingleHolders(completed', links')
  {
  }

  lemma CreateAlone(cfg: Config, g: Shared, pc: CreatePc, r: Reply)
    requires SessionsGood(g) && Alone(g, Create(pc)) && CreateEnabled(g, pc, r)
    ensures var n := CreateNext(cfg, g, pc, r); Alone(n.g, n.pc)
  {
  }

  lemma StartInsertAlone(g: Shared, oid: ObjectId, doc: Started)
    requires IsBorn(g.born, oid, doc.base) && Alone(g, Start(StartInsert(oid, doc)))
    ensures oid !in g.started
    ensures Alone(g.(started := g.started[oid := doc]), Start(StartDelete(doc.base.sessionId)))
  {
    assert Rests(g, Start(StartInsert(oid, doc))) == AtRest(g);
    var h := g.(started := g.started[oid := doc]);
    assert DocOf(h, doc.base.sessionId) == {oid};
    var settled := h.(initial := h.initial - {oid});
    assert settled.started.Keys == g.started.Keys + {oid};
    assert settled.initial.Keys == g.initial.Keys - {oid};
    assert Rests(h, Start(StartDelete(doc.base.sessionId))) == AtRest(settled);
  }

  /** The document stored under a session's document id is that session's. */
  lemma SameSession(g: Shared, sid: SessionId, session: Session)
    requires Registered(g.born, g.sessionOf) && sid in g.born && IsBorn(g.born, g.born[sid].oid, session)
    ensures session.sessionId == sid
  {
  }

  lemma StartDeleteAlone(g: Shared, sid: SessionId, r: Reply)
    requires SessionsGood(g) && Alone(g, Start(StartDelete(sid))) && FindsInitial(g, sid, r)
    ensures r.doc == Some(g.born[sid].oid)
    ensures Alone(g.(initial := g.initial - {r.doc.value}), Done)
  {
    SameSession(g, sid, g.initial[g.born[sid].oid]);
    assert g.initial - DocOf(g, sid) == g.initial - {r.doc.value};
  }

  lemma StartReadAlone(g: Shared, pc: StartPc, r: Reply)
    requires Alone(g, Start(pc)) && StartEnabled(g, pc, r) && (pc.StartCheck? || pc.StartFind?)
    ensures var n := StartNext(g, pc, r); Alone(n.g, n.pc)
  {
    assert Rests(g, Start(pc)) == AtRest(g);
    assert Rests(g, StartNext(g, pc, r).pc) == AtRest(g);
  }

  lemma StartAlone(g: Shared, pc: StartPc, r: Reply)
    requires SessionsGood(g) && StartHolds(g, pc) && Alone(g, Start(pc)) && StartEnabled(g, pc, r)
    ensures var n := StartNext(g, pc, r); Alone(n.g, n.pc)
  {
    match pc {
      case StartInsert(oid, doc) => StartInsertAlone(g, oid, doc);
      case StartDelete(sid) => StartDeleteAlone(g, sid, r);
      case _ => StartReadAlone(g, pc, r);
    }
  }

  lemma RemovalAlone(g: Shared, h: Shared)
    requires Alone(g, Done) && h.owner == g.owner && h.revoked == g.revoked
    requires Submap(h.initial, g.initial) && Submap(h.started, g.started)
    requires Submap(h.completed, g.completed) && Submap(h.links, g.links)
    ensures Alone(h, Done)
  {
    HoldersRemove(g.completed, g.links, h.completed, h.links);
  }

  lemma ContinueInsertAlone(g: Shared, oid: ObjectId, doc: Completed)
    requires IsCompleted(g.born, g.owner, oid, doc) && Alone(g, Continue(ContinueInsert(oid, doc)))
    ensures oid !in g.completed
    ensures Alone(g.(completed := g.completed[oid := doc]), Continue(ContinueDelete(doc.base.sessionId)))
  {
    HoldersAdd(g.completed, g.links, oid, doc);
  }

  lemma ContinueDeleteAlone(g: Shared, sid: SessionId, r: Reply)
    requires SessionsGood(g) && Alone(g, Continue(ContinueDelete(sid))) && FindsStarted(g, sid, r)
    ensures r.doc == Some(g.born[sid].oid)
    ensures Alone(g.(started := g.started - {r.doc.value}), Done)
  {
    SameSession(g, sid, g.started[g.born[sid].oid].base);
    assert g.started - DocOf(g, sid) == g.started - {r.doc.value};
  }

  lemma ContinueExchangeAlone(g: Shared, sid: SessionId, caller: Username, auth: OrcidAuth)
    requires SessionsGood(g) && Alone(g, Done) && auth.accessToken !in g.owner
    ensures Alone(g.(owner := g.owner[auth.accessToken := caller]), Continue(ContinueLookup(sid, auth)))
  {
  }

  lemma ContinueReadAlone(g: Shared, pc: ContinuePc, r: Reply)
    requires SessionsGood(g) && Alone(g, Continue(pc)) && ContinueEnabled(g, pc, r)
    requires pc.ContinueCheck? || pc.ContinueExchange? || pc.ContinueLookup? || pc.ContinueFind?
    ensures var n := ContinueNext(g, pc, r); Alone(n.g, n.pc)
  {
    assert Rests(g, Continue(pc)) == AtRest(g);
    if pc.ContinueExchange? && r.auth.Some? {
      ContinueExchangeAlone(g, pc.sessionId, pc.caller, r.auth.value);
    }
  }

  lemma ContinueRejectAlone(g: Shared, sid: SessionId, r: Reply)
    requires Alone(g, Done) && FindsStarted(g, sid, r)
    ensures var n := ContinueNext(g, ContinueReject(sid), r); Alone(n.g, n.pc)
  {
    var n := ContinueNext(g, ContinueReject(sid), r);
    assert n == Moment(g.(started := n.g.started, ended := n.g.ended), Done);
    RemovalAlone(g, n.g);
  }

  lemma ContinueWriteAlone(g: Shared, pc: ContinuePc, r: Reply)
    requires SessionsGood(g) && ContinueHolds(g, pc) && Alone(g, Continue(pc)) && ContinueEnabled(g, pc, r)
    requires pc.ContinueInsert? || pc.ContinueDelete?
    ensures var n := ContinueNext(g, pc, r); Alone(n.g, n.pc)
  {
    match pc {
      case ContinueInsert(oid, doc) => ContinueInsertAlone(g, oid, doc);
      case ContinueDelete(sid) => ContinueDeleteAlone(g, sid, r);
    }
  }

  lemma StoredCompleted(g: Shared, id: ObjectId)
    requires SessionsGood(g) && id in g.completed
    ensures IsStoredCompleted(g, g.completed[id])
  {
  }

  lemma FinishInsertAlone(g: Shared, sid: SessionId, caller: Username, link: Link, oid: ObjectId)
    requires Alone(g, Finish(FinishInsert(sid, caller, link))) && oid !in g.links
    ensures Alone(g.(links := g.links[oid := link], origin := g.origin[oid := Origin(sid, caller)]),
                  Finish(FinishDelete(sid, oid)))
  {
    HoldersMove(g.completed, g.links, g.born[sid].oid, oid, link);
  }

  lemma FinishDeleteAlone(g: Shared, sid: SessionId, linkId: ObjectId, r: Reply)
    requires SessionsGood(g) && Alone(g, Finish(FinishDelete(sid, linkId))) && FindsCompleted(g, sid, r)
    ensures r.doc == Some(g.born[sid].oid)
    ensures Alone(g.(completed := g.completed - {r.doc.value}, ended := g.ended[sid := Finished(linkId)]), Done)
  {
    SameSession(g, sid, g.completed[g.born[sid].oid].base);
    assert g.completed - DocOf(g, sid) == g.completed - {r.doc.value};
  }

  lemma FinishReadAlone(cfg: Config, g: Shared, pc: FinishPc, r: Reply)
    requires SessionsGood(g) && Alone(g, Finish(pc)) && FinishEnabled(g, pc, r)
    requires pc.FinishCheck? || pc.FinishStamp?
    ensures var n := FinishNext(cfg, g, pc, r); Alone(n.g, n.pc)
  {
    if pc.FinishCheck? && r.doc.Some? { StoredCompleted(g, r.doc.value); }
  }

  lemma FinishWriteAlone(cfg: Config, g: Shared, pc: FinishPc, r: Reply)
    requires SessionsGood(g) && Alone(g, Finish(pc)) && FinishEnabled(g, pc, r)
    requires pc.FinishInsert? || pc.FinishDelete?
    ensures var n := FinishNext(cfg, g, pc, r); Alone(n.g, n.pc)
  {
    match pc {
      case FinishInsert(sid, caller, link) => FinishInsertAlone(g, sid, caller, link, r.newOid);
      case FinishDelete(sid, linkId) => FinishDeleteAlone(g, sid, linkId, r);
    }
  }

  lemma DropDeleteAlone(g: Shared, session: Completed, r: Reply, ended: map<SessionId, Ending>)
    requires SessionsGood(g) && Alone(g, Drop(DropDelete(session))) && FindsCompleted(g, session.base.sessionId, r)
    ensures r.doc == Some(g.born[session.base.sessionId].oid)
    ensures Alone(g.(completed := g.completed - {r.doc.value}, ended := ended),
                  Drop(DropRevoke(session.auth.accessToken)))
  {
    var id := g.born[session.base.sessionId].oid;
    assert IsCompleted(g.born, g.owner, id, g.completed[id]);
    HoldersRemove(g.completed, g.links, g.completed - {id}, g.links);
  }

  lemma DropRevokeAlone(g: Shared, token: Token)
    requires Alone(g, Drop(DropRevoke(token)))
    ensures Alone(g.(revoked := g.revoked + {token}), Done)
  {
  }

  lemma DropAlone(g: Shared, pc: DropPc, r: Reply)
    requires SessionsGood(g) && Alone(g, Drop(pc)) && DropEnabled(g, pc, r)
    ensures var n := DropNext(g, pc, r); Alone(n.g, n.pc)
  {
    match pc {
      case DropCheck(sid, caller) => if r.doc.Some? { StoredCompleted(g, r.doc.value); }
      case DropDelete(session) => DropDeleteAlone(g, session, r, g.ended[session.base.sessionId := Deleted]);
      case DropRevoke(token) => DropRevokeAlone(g, token);
    }
  }

  lemma ManageAlone(g: Shared, pc: ManagePc, r: Reply)
    requires Alone(g, Done) && ManageEnabled(g, pc, r)
    ensures var n := ManageNext(g, pc, r); Alone(n.g, n.pc)
  {
    ManageRemoves(g, pc, r);
    RemovalAlone(g, ManageNext(g, pc, r).g);
  }

  lemma ManageRemoves(g: Shared, pc: ManagePc, r: Reply)
    requires ManageEnabled(g, pc, r)
    ensures var n := ManageNext(g, pc, r);
            && n.pc == Done && n.g.owner == g.owner && n.g.revoked == g.revoked && n.g.links == g.links
            && Submap(n.g.initial, g.initial) && Submap(n.g.started, g.started) && Submap(n.g.completed, g.completed)
  {
    var h := ManageNext(g, pc, r).g;
    match pc {
      case DropInitial(_) => assert h == g.(initial := h.initial, ended := h.ended);
      case DropStarted(_) => assert h == g.(started := h.started, ended := h.ended);
      case DropCompleted(_) => assert h == g.(completed := h.completed, ended := h.ended);
    }
  }

  // ---- Expiry cleanup --------------------------------------------------------------------

  /** The revocation that fails after an earlier one in the same cleanup succeeded. */
  predicate CutsShort(pc: Pc, r: Reply) {
    pc.Cleanup? && pc.cleanup.CleanupRevoke? && pc.cleanup.touched && r.Revoked? && !r.ok
  }

  ghost predicate AllExpiring(g: Shared, cutoff: int, queue: seq<Completed>) {
    forall i | 0 <= i < |queue| :: IsStoredCompleted(g, queue[i]) && queue[i].base.expiresAt <= cutoff
  }

  lemma ReadsExpiring(g: Shared, cutoff: int, docs: seq<ObjectId>)
    requires SessionsGood(g) && ReadsExpired(g, cutoff, docs)
    ensures AllExpiring(g, cutoff, ReadDocs(g, docs))
  {
    forall i | 0 <= i < |docs| ensures IsStoredCompleted(g, g.completed[docs[i]]) {
      StoredCompleted(g, docs[i]);
    }
  }

  lemma RevokeRemoved(completed: map<ObjectId, Completed>, kept: map<ObjectId, Completed>, links: map<ObjectId, Link>,
                      revoked: set<Token>, id: ObjectId)
    requires SingleHolders(completed, links) && Submap(kept, completed) && id in completed && id !in kept
    requires Unrevoked(kept, links, revoked)
    ensures Unrevoked(kept, links, revoked + {completed[id].auth.accessToken})
  {
  }

  /** Revoking a token of an expired session leaves the store at rest, once what expired is out of it. */
  lemma RevokeExpiredRests(g: Shared, cutoff: int, c: Completed, queue: seq<Completed>, touched: bool)
    requires Rests(g, Cleanup(CleanupRevoke(cutoff, queue, touched))) && SingleHolders(g.completed, g.links)
    requires IsStoredCompleted(g, c) && c.base.expiresAt <= cutoff
    ensures AtRest(g.(completed := g.completed - ExpiredCompleted(g, cutoff),
                      revoked := g.revoked + {c.auth.accessToken}))
  {
    var kept := g.completed - ExpiredCompleted(g, cutoff);
    HoldersRemove(g.completed, g.links, kept, g.links);
    RevokeRemoved(g.completed, kept, g.links, g.revoked, g.born[c.base.sessionId].oid);
  }

  lemma CleanupRevokeAlone(g: Shared, cutoff: int, queue: seq<Completed>, touched: bool)
    requires SessionsGood(g) && Alone(g, Cleanup(CleanupRevoke(cutoff, queue, touched))) && queue != []
    ensures Alone(g.(revoked := g.revoked + {queue[0].auth.accessToken}),
                  Cleanup(CleanupRevoke(cutoff, queue[1..], true)))
  {
    var c := queue[0];
    assert Rests(g, Cleanup(CleanupRevoke(cutoff, queue, touched)));
    RevokeExpiredRests(g, cutoff, c, queue, touched);
    var id := g.born[c.base.sessionId].oid;
    assert IsCompleted(g.born, g.owner, id, g.completed[id]);
    var h := g.(revoked := g.revoked + {c.auth.accessToken});
    assert ExpiredCompleted(h, cutoff) == ExpiredCompleted(g, cutoff);
    assert Settled(h, Cleanup(CleanupRevoke(cutoff, queue[1..], true))) ==
           h.(completed := h.completed - ExpiredCompleted(g, cutoff));
  }

  lemma CleanupDrainedAlone(g: Shared, cutoff: int, touched: bool)
    requires Alone(g, Cleanup(CleanupRevoke(cutoff, [], touched)))
    ensures Alone(g, Cleanup(CleanupRestamp(cutoff)))
  {
    var h := Settled(g, Cleanup(CleanupRestamp(cutoff)));
    assert Rests(g, Cleanup(CleanupRestamp(cutoff))) == AtRest(h);
    if !touched { RemovalAlone(g, h); }
  }

  lemma CleanupReadAlone(g: Shared, cutoff: int, docs: seq<ObjectId>)
    requires SessionsGood(g) && Alone(g, Cleanup(CleanupRead(cutoff))) && ReadsExpired(g, cutoff, docs)
    ensures Alone(g, Cleanup(CleanupRevoke(cutoff, ReadDocs(g, docs), false)))
  {
    assert Rests(g, Cleanup(CleanupRevoke(cutoff, ReadDocs(g, docs), false))) == AtRest(g);
    ReadsExpiring(g, cutoff, docs);
  }

  lemma CleanupDeleteAlone(g: Shared, pc: CleanupPc, r: Reply)
    requires Alone(g, Cleanup(pc)) && CleanupEnabled(g, pc, r)
    requires pc.CleanupRestamp? || pc.CleanupInitial? || pc.CleanupStarted? || pc.CleanupCompleted?
    ensures var n := CleanupNext(g, pc, r); Alone(n.g, n.pc)
  {
    var n := CleanupNext(g, pc, r);
    var before := Settled(g, Cleanup(pc));
    var after := if n.pc.Done? then n.g else Settled(n.g, n.pc);
    assert Submap(after.completed, before.completed);
    RemovalAlone(before, after);
  }

  lemma CleanupAlone(g: Shared, pc: CleanupPc, r: Reply)
    requires SessionsGood(g) && Alone(g, Cleanup(pc)) && CleanupEnabled(g, pc, r) && !CutsShort(Cleanup(pc), r)
    ensures var n := CleanupNext(g, pc, r); Alone(n.g, n.pc)
  {
    if pc.CleanupRevoke? {
      if pc.queue == [] { CleanupDrainedAlone(g, pc.cutoff, pc.touched); }
      else if r.ok { CleanupRevokeAlone(g, pc.cutoff, pc.queue, pc.touched); }
    } else if pc.CleanupRead? {
      CleanupReadAlone(g, pc.cutoff, r.docs);
    } else if !pc.CleanupStamp? {
      CleanupDeleteAlone(g, pc, r);
    }
  }

  // ---- Links -----------------------------------------------------------------------------

  /** Revoking a link's token leaves the store at rest, once that user's link is out of it. */
  lemma RevokeLinkRests(g: Shared, link: Link)
    requires AtRest(g) && IsStoredLink(g, link)
    ensures AtRest(g.(links := g.links - LinksOf(g, link.username), revoked := g.revoked + {link.auth.accessToken}))
  {
    var id :| id in g.links && g.links[id] == link;
    HoldersRemove(g.completed, g.links, g.completed, g.links - LinksOf(g, link.username));
  }

  lemma UnlinkRevokeAlone(g: Shared, link: Link)
    requires SessionsGood(g) && Alone(g, Unlink(UnlinkRevoke(link)))
    ensures Alone(g.(revoked := g.revoked + {link.auth.accessToken}), Unlink(UnlinkDelete(link.username)))
  {
    RevokeLinkRests(g, link);
    var h := g.(revoked := g.revoked + {link.auth.accessToken});
    assert LinksOf(h, link.username) == LinksOf(g, link.username);
  }

  lemma UnlinkDeleteAlone(g: Shared, username: Username, r: Reply)
    requires UsernamesUnique(g.links) && Alone(g, Unlink(UnlinkDelete(username)))
    requires FindsLink(g, ByUsername(username), r)
    ensures Alone(UnlinkNext(g, UnlinkDelete(username), r).g, Done)
  {
    if r.doc.Some? {
      assert LinksOf(g, username) == {r.doc.value};
    } else {
      assert LinksOf(g, username) == {};
      assert g.links - {} == g.links;
    }
  }

  lemma UnlinkAlone(g: Shared, pc: UnlinkPc, r: Reply)
    requires SessionsGood(g) && UsernamesUnique(g.links) && Alone(g, Unlink(pc)) && UnlinkEnabled(g, pc, r)
    ensures var n := UnlinkNext(g, pc, r); Alone(n.g, n.pc)
  {
    match pc {
      case UnlinkCheck(_, _) =>
      case UnlinkRevoke(link) => if r.ok { UnlinkRevokeAlone(g, link); }
      case UnlinkDelete(username) => UnlinkDeleteAlone(g, username, r);
    }
  }

  lemma RefreshCallAlone(g: Shared, link: Link, from: Option<int>, auth: OrcidAuth, user: Username)
    requires SessionsGood(g) && Alone(g, Refresh(RefreshCall(link, from))) && auth.accessToken !in g.owner
    ensures Alone(g.(owner := g.owner[auth.accessToken := user], revoked := g.revoked + {link.auth.accessToken}),
                  Refresh(RefreshRestamp(link, auth, from)))
  {
    RevokeLinkRests(g, link);
    var h := g.(owner := g.owner[auth.accessToken := user], revoked := g.revoked + {link.auth.accessToken});
    assert LinksOf(h, link.username) == LinksOf(g, link.username);
  }

  lemma HoldersReplace(completed: map<ObjectId, Completed>, links: map<ObjectId, Link>, revoked: set<Token>,
                       id: ObjectId, link: Link)
    requires SingleHolders(completed, links - {id}) && Unrevoked(completed, links - {id}, revoked) && id in links
    requires link.auth.accessToken !in revoked
    requires forall a | a in completed :: completed[a].auth.accessToken != link.auth.accessToken
    requires forall b | b in links :: links[b].auth.accessToken != link.auth.accessToken
    ensures SingleHolders(completed, links[id := link]) && Unrevoked(completed, links[id := link], revoked)
  {
    var others, after := links - {id}, links[id := link];
    assert forall b :: b in after && b != id ==> b in others && after[b] == others[b];
  }

  lemma RefreshSaveRests(g: Shared, link: Link, id: ObjectId)
    requires UsernamesUnique(g.links) && AtRest(g.(links := g.links - LinksOf(g, link.username)))
    requires Unused(g, link.auth.accessToken)
    requires id in g.links && g.links[id].username == link.username
    ensures AtRest(g.(links := g.links[id := link]))
  {
    assert LinksOf(g, link.username) == {id};
    HoldersReplace(g.completed, g.links, g.revoked, id, link);
  }

  lemma RefreshSaveAlone(g: Shared, link: Link, r: Reply)
    requires UsernamesUnique(g.links) && Alone(g, Refresh(RefreshSave(link)))
    requires FindsLink(g, ByUsername(link.username), r)
    ensures Alone(if r.doc.Some? then g.(links := g.links[r.doc.value := link]) else g, Done)
  {
    if r.doc.Some? {
      RefreshSaveRests(g, link, r.doc.value);
      var h := g.(links := g.links[r.doc.value := link]);
      assert Rests(h, Done) == AtRest(h);
    } else {
      assert LinksOf(g, link.username) == {};
      assert g.links - {} == g.links;
    }
  }

  lemma RefreshReadAlone(cfg: Config, g: Shared, pc: RefreshPc, r: Reply)
    requires Alone(g, Refresh(pc)) && RefreshEnabled(g, pc, r)
    requires pc.UseFind? || pc.UseCheck? || pc.ManagerRefresh? || pc.RefreshStamp?
    ensures var n := RefreshNext(cfg, g, pc, r); Alone(n.g, n.pc)
  {
    var n := RefreshNext(cfg, g, pc, r);
    assert Rests(g, Refresh(pc)) == AtRest(g);
    assert Rests(n.g, n.pc) == AtRest(n.g);
  }

  lemma RefreshRestampAlone(cfg: Config, g: Shared, link: Link, auth: OrcidAuth, from: Option<int>, time: int)
    requires Alone(g, Refresh(RefreshRestamp(link, auth, from)))
    ensures Alone(g.(clock := time), Refresh(RefreshSave(RefreshedLink(cfg, link, auth, from, time))))
  {
    var h := g.(clock := time);
    assert LinksOf(h, link.username) == LinksOf(g, link.username);
    assert Rests(g, Refresh(RefreshRestamp(link, auth, from))) ==
           AtRest(g.(links := g.links - LinksOf(g, link.username)));
  }

  lemma RefreshAlone(cfg: Config, g: Shared, pc: RefreshPc, r: Reply)
    requires SessionsGood(g) && UsernamesUnique(g.links) && Alone(g, Refresh(pc)) && RefreshEnabled(g, pc, r)
    ensures var n := RefreshNext(cfg, g, pc, r); Alone(n.g, n.pc)
  {
    match pc {
      case RefreshCall(link, from) =>
        if r.auth.Some? { RefreshCallAlone(g, link, from, r.auth.value, g.owner[link.auth.accessToken]); }
        else { assert Rests(g, Done) == AtRest(g); }
      case RefreshRestamp(link, auth, from) => RefreshRestampAlone(cfg, g, link, auth, from, r.time);
      case RefreshSave(link) => RefreshSaveAlone(g, link, r);
      case _ => RefreshReadAlone(cfg, g, pc, r);
    }
  }

  // ---- Whole runs ------------------------------------------------------------------------

  lemma SessionsAreGood(cfg: Config, g: Shared)
    requires Invariant(cfg, g)
    ensures SessionsGood(g)
  {
  }

  lemma SessionAnswerAlone(cfg: Config, m: Moment, r: Reply)
    requires SerialInvariant(cfg, m) && Enabled(m.g, m.pc, r)
    requires m.pc.Create? || m.pc.Start? || m.pc.Continue? || m.pc.Finish?
    ensures var n := Next(cfg, m.g, m.pc, r); Alone(n.g, n.pc)
  {
    var g := m.g;
    SessionsAreGood(cfg, g);
    match m.pc {
      case Create(p) => CreateAlone(cfg, g, p, r);
      case Start(p) => StartAlone(g, p, r);
      case Continue(p) =>
        if p.ContinueReject? { ContinueRejectAlone(g, p.sessionId, r); }
        else if p.ContinueInsert? || p.ContinueDelete? { ContinueWriteAlone(g, p, r); }
        else { ContinueReadAlone(g, p, r); }
      case Finish(p) =>
        if p.FinishCheck? || p.FinishStamp? { FinishReadAlone(cfg, g, p, r); } else { FinishWriteAlone(cfg, g, p, r); }
    }
  }

  lemma OtherAnswerAlone(cfg: Config, m: Moment, r: Reply)
    requires SerialInvariant(cfg, m) && Enabled(m.g, m.pc, r) && !CutsShort(m.pc, r)
    requires m.pc.Drop? || m.pc.Manage? || m.pc.Cleanup? || m.pc.Unlink? || m.pc.Refresh?
    ensures var n := Next(cfg, m.g, m.pc, r); Alone(n.g, n.pc)
  {
    var g := m.g;
    SessionsAreGood(cfg, g);
    match m.pc {
      case Drop(p) => DropAlone(g, p, r);
      case Manage(p) => ManageAlone(g, p, r);
      case Cleanup(p) => CleanupAlone(g, p, r);
      case Unlink(p) => UnlinkAlone(g, p, r);
      case Refresh(p) => RefreshAlone(cfg, g, p, r);
    }
  }

  lemma AnswerKeeps(cfg: Config, m: Moment, r: Reply)
    requires SerialInvariant(cfg, m) && Enabled(m.g, m.pc, r) && !CutsShort(m.pc, r)
    ensures SerialInvariant(cfg, Next(cfg, m.g, m.pc, r))
  {
    if m.pc.Create? || m.pc.Start? || m.pc.Continue? || m.pc.Finish? { SessionAnswerAlone(cfg, m, r); }
    else { OtherAnswerAlone(cfg, m, r); }
    Step(cfg, m.g, m.pc, r);
  }

  lemma OpenKeeps(cfg: Config, m: Moment, pc: Pc)
    requires SerialInvariant(cfg, m) && m.pc.Done? && Fresh(pc)
    ensures SerialInvariant(cfg, Moment(m.g, pc))
  {
    assert Rests(m.g, pc) == AtRest(m.g);
  }

  ghost predicate SerialRuns(cfg: Config, m: Moment, moves: seq<SerialMove>)
    decreases |moves|
  {
    |moves| == 0 || (SerialLegal(m, moves[0]) && SerialRuns(cfg, SerialTake(cfg, m, moves[0]), moves[1..]))
  }

  ghost function SerialAfter(cfg: Config, m: Moment, moves: seq<SerialMove>): Moment
    requires SerialRuns(cfg, m, moves)
    decreases |moves|
  {
    if |moves| == 0 then m else SerialAfter(cfg, SerialTake(cfg, m, moves[0]), moves[1..])
  }

  /** No cleanup of the run stops at a failing revocation after one that succeeded. */
  ghost predicate NoneCutShort(cfg: Config, m: Moment, moves: seq<SerialMove>)
    requires SerialRuns(cfg, m, moves)
    decreases |moves|
  {
    |moves| == 0 ||
    ((moves[0].Answer? ==> !CutsShort(m.pc, moves[0].reply)) &&
     NoneCutShort(cfg, SerialTake(cfg, m, moves[0]), moves[1..]))
  }

  lemma {:induction false} SerialRunKeeps(cfg: Config, m: Moment, moves: seq<SerialMove>)
    requires SerialInvariant(cfg, m) && SerialRuns(cfg, m, moves) && NoneCutShort(cfg, m, moves)
    ensures SerialInvariant(cfg, SerialAfter(cfg, m, moves))
    decreases |moves|
  {
    if |moves| > 0 {
      match moves[0] {
        case Open(pc) => OpenKeeps(cfg, m, pc);
        case Answer(r) => AnswerKeeps(cfg, m, r);
      }
      SerialRunKeeps(cfg, SerialTake(cfg, m, moves[0]), moves[1..]);
    }
  }
}
