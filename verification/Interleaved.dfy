/**
 Any number of requests, advanced one access at a time in any order, each free to stop anywhere.

 The proof is rely-guarantee: `Invariant` speaks of the shared state, `Holds` of what one request
 knows at its program counter, and `Guarantee` of what a step of any request may do to the others.
 */
module Interleaved {
  import opened Protocol

  datatype System = System(g: Shared, requests: map<nat, Pc>)

  datatype Move = Begin(rid: nat, pc: Pc) | Act(rid: nat, reply: Reply)

  ghost predicate Legal(s: System, m: Move) {
    match m
    case Begin(rid, pc) => rid !in s.requests && Fresh(pc)
    case Act(rid, reply) => rid in s.requests && Enabled(s.g, s.requests[rid], reply)
  }

  ghost function Take(cfg: Config, s: System, m: Move): System
    requires Legal(s, m)
  {
    match m
    case Begin(rid, pc) => s.(requests := s.requests[rid := pc])
    case Act(rid, reply) =>
      var n := Next(cfg, s.g, s.requests[rid], reply);
      System(n.g, s.requests[rid := n.pc])
  }

  ghost predicate Runs(cfg: Config, s: System, moves: seq<Move>)
    decreases |moves|
  {
    |moves| == 0 || (Legal(s, moves[0]) && Runs(cfg, Take(cfg, s, moves[0]), moves[1..]))
  }

  ghost function After(cfg: Config, s: System, moves: seq<Move>): System
    requires Runs(cfg, s, moves)
    decreases |moves|
  {
    if |moves| == 0 then s else After(cfg, Take(cfg, s, moves[0]), moves[1..])
  }

  // ---- What is known of the stored state -------------------------------------------------
  // The predicates take the fields they speak of, so that a step leaves most of them untouched.

  type Births = map<SessionId, Birth>
  type Owners = map<Token, Username>
  type Origins = map<ObjectId, Origin>

  ghost predicate Submap<K(!new), V>(small: map<K, V>, big: map<K, V>) {
    forall k {:trigger small[k]} {:trigger big[k]} | k in small :: k in big && small[k] == big[k]
  }

  /** The session is the one created under its id, stored under the document id it was created with. */
  ghost predicate IsBorn(born: Births, oid: ObjectId, session: Session) {
    session.sessionId in born && born[session.sessionId] == Birth(oid, session)
  }

  ghost predicate TokenOf(owner: Owners, token: Token, username: Username) {
    token in owner && owner[token] == username
  }

  ghost predicate InitialGood(born: Births, initial: map<ObjectId, Session>) {
    forall id | id in initial :: IsBorn(born, id, initial[id])
  }

  ghost predicate StartedGood(born: Births, started: map<ObjectId, Started>) {
    forall id | id in started :: IsBorn(born, id, started[id].base)
  }

  ghost predicate IsCompleted(born: Births, owner: Owners, oid: ObjectId, c: Completed) {
    IsBorn(born, oid, c.base) && TokenOf(owner, c.auth.accessToken, c.base.username)
  }

  ghost predicate CompletedGood(born: Births, owner: Owners, completed: map<ObjectId, Completed>) {
    forall id | id in completed :: IsCompleted(born, owner, id, completed[id])
  }

  ghost predicate Registered(born: Births, sessionOf: map<ObjectId, SessionId>) {
    forall s | s in born ::
      born[s].session.sessionId == s && born[s].oid in sessionOf && sessionOf[born[s].oid] == s
  }

  ghost predicate IsLink(cfg: Config, owner: Owners, clock: int, link: Link) {
    && TokenOf(owner, link.auth.accessToken, link.username)
    && link.retiresAt <= link.createdAt + cfg.retirementAge * 1000
    && link.createdAt <= clock
  }

  /** The link's user created the session it was made from and called finish. */
  ghost predicate HasOrigin(born: Births, origin: Origins, oid: ObjectId, username: Username) {
    && oid in origin && origin[oid].caller == username
    && origin[oid].sessionId in born && born[origin[oid].sessionId].session.username == username
  }

  ghost predicate LinksGood(cfg: Config, owner: Owners, clock: int, links: map<ObjectId, Link>) {
    forall id | id in links :: IsLink(cfg, owner, clock, links[id])
  }

  ghost predicate OriginsGood(born: Births, origin: Origins, links: map<ObjectId, Link>) {
    forall id | id in links :: HasOrigin(born, origin, id, links[id].username)
  }

  ghost predicate UsernamesUnique(links: map<ObjectId, Link>) {
    forall a, b | a in links && b in links && links[a].username == links[b].username :: a == b
  }

  ghost predicate FinishesGood(origin: Origins, ended: map<SessionId, Ending>) {
    forall s | s in ended && ended[s].Finished? :: ended[s].link in origin && origin[ended[s].link].sessionId == s
  }

  /** Past the started collection: completed, or ended. */
  ghost predicate PastStarted(g: Shared, s: SessionId)
    requires s in g.born
  {
    g.born[s].oid in g.completed || s in g.ended
  }

  ghost predicate PastInitial(g: Shared, s: SessionId)
    requires s in g.born
  {
    g.born[s].oid in g.started || PastStarted(g, s)
  }

  /** A created session is still stored somewhere, or an event ended it. */
  ghost predicate NoneLost(g: Shared) {
    forall s | s in g.born :: g.born[s].oid in g.initial || PastInitial(g, s)
  }

  ghost predicate Invariant(cfg: Config, g: Shared) {
    && InitialGood(g.born, g.initial)
    && StartedGood(g.born, g.started)
    && CompletedGood(g.born, g.owner, g.completed)
    && Registered(g.born, g.sessionOf)
    && NoneLost(g)
    && LinksGood(cfg, g.owner, g.clock, g.links)
    && OriginsGood(g.born, g.origin, g.links)
    && (g.uniqueIndex ==> UsernamesUnique(g.links))
    && FinishesGood(g.origin, g.ended)
  }

  // ---- What a request knows --------------------------------------------------------------

  ghost predicate Creator(born: Births, sid: SessionId, username: Username) {
    sid in born && born[sid].session.username == username
  }

  ghost predicate Holds(cfg: Config, g: Shared, pc: Pc) {
    match pc
    case Start(p) => StartHolds(g, p)
    case Continue(p) => ContinueHolds(g, p)
    case Finish(p) => FinishHolds(cfg, g, p)
    case Unlink(p) => UnlinkHolds(g, p)
    case Refresh(p) => RefreshHolds(cfg, g, p)
    case _ => true
  }

  ghost predicate StartHolds(g: Shared, pc: StartPc) {
    match pc
    case StartInsert(oid, doc) => IsBorn(g.born, oid, doc.base)
    case StartDelete(sid) => sid in g.born && PastInitial(g, sid)
    case _ => true
  }

  ghost predicate ContinueHolds(g: Shared, pc: ContinuePc) {
    match pc
    case ContinueCheck(_, _) => true
    case ContinueExchange(sid, caller) => Creator(g.born, sid, caller)
    case ContinueLookup(sid, auth) => GrantedTo(g, sid, auth)
    case ContinueReject(_) => true
    case ContinueFind(sid, auth) => GrantedTo(g, sid, auth)
    case ContinueInsert(oid, doc) => IsCompleted(g.born, g.owner, oid, doc)
    case ContinueDelete(sid) => sid in g.born && PastStarted(g, sid)
  }

  /** The token was exchanged by the creator of the session. */
  ghost predicate GrantedTo(g: Shared, sid: SessionId, auth: OrcidAuth) {
    sid in g.born && TokenOf(g.owner, auth.accessToken, g.born[sid].session.username)
  }

  ghost predicate FinishHolds(cfg: Config, g: Shared, pc: FinishPc) {
    match pc
    case FinishCheck(_, _) => true
    case FinishStamp(caller, session) =>
      && session.base.username == caller && Creator(g.born, session.base.sessionId, caller)
      && TokenOf(g.owner, session.auth.accessToken, caller)
    case FinishInsert(sid, caller, link) =>
      Creator(g.born, sid, caller) && link.username == caller && IsLink(cfg, g.owner, g.clock, link)
    case FinishDelete(sid, linkId) => linkId in g.origin && g.origin[linkId].sessionId == sid
  }

  ghost predicate UnlinkHolds(g: Shared, pc: UnlinkPc) {
    pc.UnlinkRevoke? ==> TokenOf(g.owner, pc.link.auth.accessToken, pc.link.username)
  }

  ghost predicate RefreshHolds(cfg: Config, g: Shared, pc: RefreshPc) {
    match pc
    case UseFind(_) => true
    case UseCheck(link) => IsLink(cfg, g.owner, g.clock, link)
    case ManagerRefresh(_) => true
    case RefreshStamp(link) => IsLink(cfg, g.owner, g.clock, link)
    case RefreshCall(link, from) => IsLink(cfg, g.owner, g.clock, link) && (from.Some? ==> from.value <= g.clock)
    case RefreshRestamp(link, auth, from) =>
      && IsLink(cfg, g.owner, g.clock, link) && (from.Some? ==> from.value <= g.clock)
      && TokenOf(g.owner, auth.accessToken, link.username)
    case RefreshSave(link) => IsLink(cfg, g.owner, g.clock, link)
  }

  /** What no step ever undoes. */
  ghost predicate Guarantee(g: Shared, h: Shared) {
    && Submap(g.born, h.born)
    && Submap(g.owner, h.owner)
    && Submap(g.origin, h.origin)
    && g.clock <= h.clock
    && h.uniqueIndex == g.uniqueIndex
    && KeepsPast(g, h)
  }

  ghost predicate KeepsPast(g: Shared, h: Shared)
    requires Submap(g.born, h.born)
  {
    forall s | s in g.born :: (PastInitial(g, s) ==> PastInitial(h, s)) && (PastStarted(g, s) ==> PastStarted(h, s))
  }

  lemma HoldsIsStable(cfg: Config, g: Shared, h: Shared, pc: Pc)
    requires Guarantee(g, h) && Holds(cfg, g, pc)
    ensures Holds(cfg, h, pc)
  {
  }

  // ---- Each kind of change keeps the invariant -------------------------------------------

  lemma TickKeeps(cfg: Config, g: Shared, time: int)
    requires Invariant(cfg, g) && g.clock <= time
    ensures Guarantee(g, g.(clock := time)) && Invariant(cfg, g.(clock := time))
  {
  }

  lemma GrantKeeps(cfg: Config, g: Shared, token: Token, username: Username, revoked: set<Token>)
    requires Invariant(cfg, g) && token !in g.owner
    ensures var h := g.(owner := g.owner[token := username], revoked := revoked); Guarantee(g, h) && Invariant(cfg, h)
  {
  }

  lemma CreateKeeps(cfg: Config, g: Shared, session: Session, oid: ObjectId)
    requires Invariant(cfg, g) && session.sessionId !in g.born
    requires oid !in g.sessionOf
    ensures
      var h := g.(initial := g.initial[oid := session], born := g.born[session.sessionId := Birth(oid, session)],
                  sessionOf := g.sessionOf[oid := session.sessionId]);
      Guarantee(g, h) && Invariant(cfg, h)
  {
  }

  lemma InsertStartedKeeps(cfg: Config, g: Shared, oid: ObjectId, doc: Started)
    requires Invariant(cfg, g) && IsBorn(g.born, oid, doc.base) && oid !in g.started
    ensures var h := g.(started := g.started[oid := doc]); Guarantee(g, h) && Invariant(cfg, h)
  {
  }

  lemma InsertCompletedKeeps(cfg: Config, g: Shared, oid: ObjectId, doc: Completed)
    requires Invariant(cfg, g) && IsCompleted(g.born, g.owner, oid, doc) && oid !in g.completed
    ensures var h := g.(completed := g.completed[oid := doc]); Guarantee(g, h) && Invariant(cfg, h)
  {
  }

  /** An ending may be added or replaced; a finish names the link it made. */
  ghost predicate EndsMore(g: Shared, ended: map<SessionId, Ending>) {
    g.ended.Keys <= ended.Keys && FinishesGood(g.origin, ended)
  }

  lemma ExpiryEndsMore(g: Shared, gone: set<SessionId>)
    requires FinishesGood(g.origin, g.ended)
    ensures EndsMore(g, ExpiredIds(g.ended, gone)) && gone <= ExpiredIds(g.ended, gone).Keys
  {
  }

  lemma RemoveInitialKeeps(cfg: Config, g: Shared, initial: map<ObjectId, Session>, ended: map<SessionId, Ending>)
    requires Invariant(cfg, g) && Submap(initial, g.initial) && EndsMore(g, ended)
    requires forall id | id in g.initial && id !in initial ::
               id in g.started || id in g.completed || g.initial[id].sessionId in ended
    ensures var h := g.(initial := initial, ended := ended); Guarantee(g, h) && Invariant(cfg, h)
  {
    var h := g.(initial := initial, ended := ended);
    forall s | s in g.born ensures h.born[s].oid in h.initial || PastInitial(h, s) {
      assert g.born[s].oid in g.initial ==> g.initial[g.born[s].oid].sessionId == s;
    }
  }

  lemma RemoveStartedKeeps(cfg: Config, g: Shared, started: map<ObjectId, Started>, ended: map<SessionId, Ending>)
    requires Invariant(cfg, g) && Submap(started, g.started) && EndsMore(g, ended)
    requires forall id | id in g.started && id !in started ::
               id in g.completed || g.started[id].base.sessionId in ended
    ensures var h := g.(started := started, ended := ended); Guarantee(g, h) && Invariant(cfg, h)
  {
    var h := g.(started := started, ended := ended);
    forall s | s in g.born ensures PastInitial(g, s) ==> PastInitial(h, s) {
      assert g.born[s].oid in g.started ==> g.started[g.born[s].oid].base.sessionId == s;
    }
  }

  lemma RemoveCompletedKeeps(cfg: Config, g: Shared, completed: map<ObjectId, Completed>, ended: map<SessionId, Ending>)
    requires Invariant(cfg, g) && Submap(completed, g.completed) && EndsMore(g, ended)
    requires forall id | id in g.completed && id !in completed :: g.completed[id].base.sessionId in ended
    ensures var h := g.(completed := completed, ended := ended); Guarantee(g, h) && Invariant(cfg, h)
  {
    var h := g.(completed := completed, ended := ended);
    forall s | s in g.born ensures PastStarted(g, s) ==> PastStarted(h, s) {
      assert g.born[s].oid in g.completed ==> g.completed[g.born[s].oid].base.sessionId == s;
    }
  }

  lemma InsertLinkKeeps(cfg: Config, g: Shared, oid: ObjectId, link: Link, origin: Origin)
    requires Invariant(cfg, g) && oid !in g.origin && IsLink(cfg, g.owner, g.clock, link)
    requires Creator(g.born, origin.sessionId, origin.caller) && link.username == origin.caller
    requires g.uniqueIndex ==> !UsernameTaken(g, link.username)
    ensures
      var h := g.(links := g.links[oid := link], origin := g.origin[oid := origin]);
      Guarantee(g, h) && Invariant(cfg, h)
  {
  }

  lemma UpdateLinksKeeps(cfg: Config, g: Shared, links: map<ObjectId, Link>)
    requires Invariant(cfg, g) && LinksGood(cfg, g.owner, g.clock, links)
    requires forall id | id in links :: id in g.links && links[id].username == g.links[id].username
    ensures Guarantee(g, g.(links := links)) && Invariant(cfg, g.(links := links))
  {
  }

  // ---- Each access keeps the invariant ---------------------------------------------------

  ghost predicate Kept(cfg: Config, g: Shared, n: Moment) {
    Guarantee(g, n.g) && Invariant(cfg, n.g) && Holds(cfg, n.g, n.pc)
  }

  lemma CreateStep(cfg: Config, g: Shared, pc: CreatePc, r: Reply)
    requires Invariant(cfg, g) && CreateEnabled(g, pc, r)
    ensures Kept(cfg, g, CreateNext(cfg, g, pc, r))
  {
    match pc {
      case CreateCheck(_, _) =>
      case CreateStamp(_) => TickKeeps(cfg, g, r.time);
      case CreateInsert(u, t) => CreateKeeps(cfg, g, NewBase(cfg, r.sessionId, u, t), r.newOid);
    }
  }

  lemma StartStep(cfg: Config, g: Shared, pc: StartPc, r: Reply)
    requires Invariant(cfg, g) && StartHolds(g, pc) && StartEnabled(g, pc, r)
    ensures Kept(cfg, g, StartNext(g, pc, r))
  {
    match pc {
      case StartCheck(_, _, _) =>
      case StartFind(_, _) =>
      case StartInsert(oid, doc) =>
        if oid !in g.started {
          InsertStartedKeeps(cfg, g, oid, doc);
          assert StartNext(g, pc, r).g == g.(started := g.started[oid := doc]);
        }
      case StartDelete(_) =>
        if r.doc.Some? {
          RemoveInitialKeeps(cfg, g, g.initial - {r.doc.value}, g.ended);
          assert StartNext(g, pc, r).g == g.(initial := g.initial - {r.doc.value}, ended := g.ended);
        }
    }
  }

  lemma ContinueReadStep(cfg: Config, g: Shared, pc: ContinuePc, r: Reply)
    requires Invariant(cfg, g) && ContinueHolds(g, pc) && ContinueEnabled(g, pc, r)
    requires pc.ContinueCheck? || pc.ContinueExchange? || pc.ContinueLookup? || pc.ContinueFind?
    ensures Kept(cfg, g, ContinueNext(g, pc, r))
  {
    var h := ContinueNext(g, pc, r).g;
    if pc.ContinueExchange? && r.auth.Some? {
      GrantKeeps(cfg, g, r.auth.value.accessToken, pc.caller, g.revoked);
      assert h == g.(owner := g.owner[r.auth.value.accessToken := pc.caller], revoked := g.revoked);
    } else {
      assert h == g;
    }
  }

  lemma ContinueWriteStep(cfg: Config, g: Shared, pc: ContinuePc, r: Reply)
    requires Invariant(cfg, g) && ContinueHolds(g, pc) && ContinueEnabled(g, pc, r)
    requires pc.ContinueReject? || pc.ContinueInsert? || pc.ContinueDelete?
    ensures Kept(cfg, g, ContinueNext(g, pc, r))
  {
    match pc {
      case ContinueReject(sid) =>
        if r.doc.Some? {
          var ended := g.ended[sid := Rejected];
          RemoveStartedKeeps(cfg, g, g.started - {r.doc.value}, ended);
          assert ContinueNext(g, pc, r) == Moment(g.(started := g.started - {r.doc.value}, ended := ended), Done);
        }
      case ContinueInsert(oid, doc) =>
        if oid !in g.completed {
          InsertCompletedKeeps(cfg, g, oid, doc);
          assert ContinueNext(g, pc, r).g == g.(completed := g.completed[oid := doc]);
        }
      case ContinueDelete(_) =>
        if r.doc.Some? {
          RemoveStartedKeeps(cfg, g, g.started - {r.doc.value}, g.ended);
          assert ContinueNext(g, pc, r) == Moment(g.(started := g.started - {r.doc.value}, ended := g.ended), Done);
        }
    }
  }

  lemma FinishStep(cfg: Config, g: Shared, pc: FinishPc, r: Reply)
    requires Invariant(cfg, g) && FinishHolds(cfg, g, pc) && FinishEnabled(g, pc, r)
    ensures Kept(cfg, g, FinishNext(cfg, g, pc, r))
  {
    match pc {
      case FinishCheck(_, _) =>
      case FinishStamp(_, _) => TickKeeps(cfg, g, r.time);
      case FinishInsert(sid, caller, link) =>
        if !(g.uniqueIndex && UsernameTaken(g, link.username)) {
          InsertLinkKeeps(cfg, g, r.newOid, link, Origin(sid, caller));
          assert FinishNext(cfg, g, pc, r).g ==
                 g.(links := g.links[r.newOid := link], origin := g.origin[r.newOid := Origin(sid, caller)]);
        }
      case FinishDelete(sid, linkId) =>
        if r.doc.Some? {
          var ended := g.ended[sid := Finished(linkId)];
          RemoveCompletedKeeps(cfg, g, g.completed - {r.doc.value}, ended);
          assert FinishNext(cfg, g, pc, r) ==
                 Moment(g.(completed := g.completed - {r.doc.value}, ended := ended), Done);
        }
    }
  }

  lemma RevokeKeeps(cfg: Config, g: Shared, revoked: set<Token>)
    requires Invariant(cfg, g)
    ensures Guarantee(g, g.(revoked := revoked)) && Invariant(cfg, g.(revoked := revoked))
  {
  }

  lemma DropStep(cfg: Config, g: Shared, pc: DropPc, r: Reply)
    requires Invariant(cfg, g) && DropEnabled(g, pc, r)
    ensures Kept(cfg, g, DropNext(g, pc, r))
  {
    match pc {
      case DropCheck(_, _) =>
      case DropDelete(c) =>
        if r.doc.Some? {
          var ended := g.ended[c.base.sessionId := Deleted];
          RemoveCompletedKeeps(cfg, g, g.completed - {r.doc.value}, ended);
          assert DropNext(g, pc, r).g == g.(completed := g.completed - {r.doc.value}, ended := ended);
        }
      case DropRevoke(token) => RevokeKeeps(cfg, g, g.revoked + {token});
    }
  }

  lemma DropInitialStep(cfg: Config, g: Shared, sid: SessionId, r: Reply)
    requires Invariant(cfg, g) && ManageEnabled(g, DropInitial(sid), r)
    ensures Kept(cfg, g, ManageNext(g, DropInitial(sid), r))
  {
    if r.doc.Some? {
      var kept, ended := g.initial - {r.doc.value}, g.ended[sid := Deleted];
      RemoveInitialKeeps(cfg, g, kept, ended);
      assert ManageNext(g, DropInitial(sid), r) == Moment(g.(initial := kept, ended := ended), Done);
    }
  }

  lemma DropStartedStep(cfg: Config, g: Shared, sid: SessionId, r: Reply)
    requires Invariant(cfg, g) && ManageEnabled(g, DropStarted(sid), r)
    ensures Kept(cfg, g, ManageNext(g, DropStarted(sid), r))
  {
    if r.doc.Some? {
      var kept, ended := g.started - {r.doc.value}, g.ended[sid := Deleted];
      RemoveStartedKeeps(cfg, g, kept, ended);
      assert ManageNext(g, DropStarted(sid), r) == Moment(g.(started := kept, ended := ended), Done);
    }
  }

  lemma DropCompletedStep(cfg: Config, g: Shared, sid: SessionId, r: Reply)
    requires Invariant(cfg, g) && ManageEnabled(g, DropCompleted(sid), r)
    ensures Kept(cfg, g, ManageNext(g, DropCompleted(sid), r))
  {
    if r.doc.Some? {
      var kept, ended := g.completed - {r.doc.value}, g.ended[sid := Deleted];
      RemoveCompletedKeeps(cfg, g, kept, ended);
      assert ManageNext(g, DropCompleted(sid), r) == Moment(g.(completed := kept, ended := ended), Done);
    }
  }

  lemma CleanupRevokeStep(cfg: Config, g: Shared, pc: CleanupPc, r: Reply)
    requires Invariant(cfg, g) && CleanupEnabled(g, pc, r)
    requires pc.CleanupStamp? || pc.CleanupRead? || pc.CleanupRevoke? || pc.CleanupRestamp?
    ensures Kept(cfg, g, CleanupNext(g, pc, r))
  {
    match pc {
      case CleanupStamp => TickKeeps(cfg, g, r.time);
      case CleanupRead(_) =>
      case CleanupRevoke(_, queue, _) =>
        if queue != [] { RevokeKeeps(cfg, g, g.revoked + {queue[0].auth.accessToken}); }
      case CleanupRestamp(_) => TickKeeps(cfg, g, r.time);
    }
  }

  lemma CleanupInitialStep(cfg: Config, g: Shared, now: int, r: Reply)
    requires Invariant(cfg, g) && CleanupEnabled(g, CleanupInitial(now), r)
    ensures Kept(cfg, g, CleanupNext(g, CleanupInitial(now), r))
  {
    var h := CleanupNext(g, CleanupInitial(now), r).g;
    ExpiryEndsMore(g, set id | id in g.initial && g.initial[id].expiresAt <= now :: g.initial[id].sessionId);
    RemoveInitialKeeps(cfg, g, h.initial, h.ended);
    assert h == g.(initial := h.initial, ended := h.ended);
  }

  lemma CleanupStartedStep(cfg: Config, g: Shared, now: int, r: Reply)
    requires Invariant(cfg, g) && CleanupEnabled(g, CleanupStarted(now), r)
    ensures Kept(cfg, g, CleanupNext(g, CleanupStarted(now), r))
  {
    var h := CleanupNext(g, CleanupStarted(now), r).g;
    ExpiryEndsMore(g, set id | id in g.started && g.started[id].base.expiresAt <= now :: g.started[id].base.sessionId);
    RemoveStartedKeeps(cfg, g, h.started, h.ended);
    assert h == g.(started := h.started, ended := h.ended);
  }

  lemma CleanupCompletedStep(cfg: Config, g: Shared, now: int, r: Reply)
    requires Invariant(cfg, g) && CleanupEnabled(g, CleanupCompleted(now), r)
    ensures Kept(cfg, g, CleanupNext(g, CleanupCompleted(now), r))
  {
    var h := CleanupNext(g, CleanupCompleted(now), r).g;
    ExpiryEndsMore(
      g, set id | id in g.completed && g.completed[id].base.expiresAt <= now :: g.completed[id].base.sessionId);
    RemoveCompletedKeeps(cfg, g, h.completed, h.ended);
    assert h == g.(completed := h.completed, ended := h.ended);
  }

  lemma UnlinkStep(cfg: Config, g: Shared, pc: UnlinkPc, r: Reply)
    requires Invariant(cfg, g) && UnlinkHolds(g, pc) && UnlinkEnabled(g, pc, r)
    ensures Kept(cfg, g, UnlinkNext(g, pc, r))
  {
    match pc {
      case UnlinkCheck(_, _) =>
      case UnlinkRevoke(link) => RevokeKeeps(cfg, g, g.revoked + {link.auth.accessToken});
      case UnlinkDelete(_) => if r.doc.Some? { UpdateLinksKeeps(cfg, g, g.links - {r.doc.value}); }
    }
  }

  lemma RefreshReadStep(cfg: Config, g: Shared, pc: RefreshPc, r: Reply)
    requires Invariant(cfg, g) && RefreshHolds(cfg, g, pc) && RefreshEnabled(g, pc, r)
    requires !pc.RefreshCall? && !pc.RefreshRestamp? && !pc.RefreshSave?
    ensures Kept(cfg, g, RefreshNext(cfg, g, pc, r))
  {
    if r.Tick? { TickKeeps(cfg, g, r.time); }
  }

  lemma RefreshCallStep(cfg: Config, g: Shared, pc: RefreshPc, r: Reply)
    requires Invariant(cfg, g) && RefreshHolds(cfg, g, pc) && RefreshEnabled(g, pc, r)
    requires pc.RefreshCall? || pc.RefreshRestamp?
    ensures Kept(cfg, g, RefreshNext(cfg, g, pc, r))
  {
    match pc {
      case RefreshCall(link, _) =>
        if r.auth.Some? {
          GrantKeeps(cfg, g, r.auth.value.accessToken, link.username, g.revoked + {link.auth.accessToken});
        }
      case RefreshRestamp(_, _, _) => TickKeeps(cfg, g, r.time);
    }
  }

  lemma RefreshSaveStep(cfg: Config, g: Shared, link: Link, r: Reply)
    requires Invariant(cfg, g) && IsLink(cfg, g.owner, g.clock, link) && RefreshEnabled(g, RefreshSave(link), r)
    ensures Kept(cfg, g, RefreshNext(cfg, g, RefreshSave(link), r))
  {
    if r.doc.Some? { UpdateLinksKeeps(cfg, g, g.links[r.doc.value := link]); }
  }

  /** One access of one request keeps the invariant, what that request knows, and the guarantee to all others. */
  lemma Step(cfg: Config, g: Shared, pc: Pc, r: Reply)
    requires Invariant(cfg, g) && Holds(cfg, g, pc) && Enabled(g, pc, r)
    ensures Kept(cfg, g, Next(cfg, g, pc, r))
  {
    match pc {
      case Create(p) => CreateStep(cfg, g, p, r);
      case Start(p) => StartStep(cfg, g, p, r);
      case Continue(p) =>
        if p.ContinueReject? || p.ContinueInsert? || p.ContinueDelete? { ContinueWriteStep(cfg, g, p, r); }
        else { ContinueReadStep(cfg, g, p, r); }
      case Finish(p) => FinishStep(cfg, g, p, r);
      case Drop(p) => DropStep(cfg, g, p, r);
      case Manage(DropInitial(sid)) => DropInitialStep(cfg, g, sid, r);
      case Manage(DropStarted(sid)) => DropStartedStep(cfg, g, sid, r);
      case Manage(DropCompleted(sid)) => DropCompletedStep(cfg, g, sid, r);
      case Cleanup(p) =>
        if p.CleanupInitial? { CleanupInitialStep(cfg, g, p.now, r); }
        else if p.CleanupStarted? { CleanupStartedStep(cfg, g, p.now, r); }
        else if p.CleanupCompleted? { CleanupCompletedStep(cfg, g, p.now, r); }
        else { CleanupRevokeStep(cfg, g, p, r); }
      case Unlink(p) => UnlinkStep(cfg, g, p, r);
      case Refresh(p) =>
        if p.RefreshCall? || p.RefreshRestamp? { RefreshCallStep(cfg, g, p, r); }
        else if p.RefreshSave? { RefreshSaveStep(cfg, g, p.link, r); }
        else { RefreshReadStep(cfg, g, p, r); }
    }
  }

  // ---- Whole runs ------------------------------------------------------------------------

  ghost predicate SystemGood(cfg: Config, s: System) {
    Invariant(cfg, s.g) && forall rid | rid in s.requests :: Holds(cfg, s.g, s.requests[rid])
  }

  lemma MoveKeeps(cfg: Config, s: System, m: Move)
    requires SystemGood(cfg, s) && Legal(s, m)
    ensures SystemGood(cfg, Take(cfg, s, m)) && Guarantee(s.g, Take(cfg, s, m).g)
  {
    var t := Take(cfg, s, m);
    if m.Act? {
      Step(cfg, s.g, s.requests[m.rid], m.reply);
      forall rid | rid in t.requests ensures Holds(cfg, t.g, t.requests[rid]) {
        if rid != m.rid { HoldsIsStable(cfg, s.g, t.g, s.requests[rid]); }
      }
    }
  }

  lemma {:induction false} RunKeeps(cfg: Config, s: System, moves: seq<Move>)
    requires SystemGood(cfg, s) && Runs(cfg, s, moves)
    ensures SystemGood(cfg, After(cfg, s, moves)) && After(cfg, s, moves).g.uniqueIndex == s.g.uniqueIndex
    decreases |moves|
  {
    if |moves| > 0 {
      MoveKeeps(cfg, s, moves[0]);
      RunKeeps(cfg, Take(cfg, s, moves[0]), moves[1..]);
    }
  }
}
