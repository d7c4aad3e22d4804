/**
 The linking-session protocol, one shared access at a time.

 A request is a program counter `Pc` that carries what the request has read so far.
 `Next` performs exactly one access to something shared: one find, one insert, one delete,
 one update, one clock read or one call to ORCID. What the environment answered to that
 access is a `Reply`. A request that is never advanced again has crashed.
 */
module Protocol {
  import opened Wrappers

  type ObjectId = nat
  type SessionId = string
  type Username = string
  type Token = string

  /** The service settings the protocol reads; both are in seconds. */
  datatype Config = Config(sessionLifetime: int, retirementAge: int)

  datatype OrcidAuth = OrcidAuth(
    accessToken: Token, tokenType: string, refreshToken: Token,
    expiresIn: int, scope: string, name: string, orcid: string)

  /** A session in the initial collection, and the part every later copy keeps. */
  datatype Session = Session(sessionId: SessionId, username: Username, createdAt: int, expiresAt: int)

  datatype StartOptions = StartOptions(returnLink: Option<string>, skipPrompt: bool, uiOptions: string)

  datatype Started = Started(base: Session, options: StartOptions)

  datatype Completed = Completed(base: Session, options: StartOptions, auth: OrcidAuth)

  datatype Link = Link(username: Username, createdAt: int, expiresAt: int, retiresAt: int, auth: OrcidAuth)

  datatype Ending = Finished(link: ObjectId) | Deleted | Rejected | Expired

  /** The document a session was created as. */
  datatype Birth = Birth(oid: ObjectId, session: Session)

  /** Which session a link was made from, and who called finish. */
  datatype Origin = Origin(sessionId: SessionId, caller: Username)

  /** The four collections, the clock, and history that no request reads. */
  datatype Shared = Shared(
    initial: map<ObjectId, Session>,
    started: map<ObjectId, Started>,
    completed: map<ObjectId, Completed>,
    links: map<ObjectId, Link>,
    uniqueIndex: bool,              // links has a unique index on username
    clock: int,                     // the latest clock value any request has read
    // History:
    born: map<SessionId, Birth>,    // every session ever created
    sessionOf: map<ObjectId, SessionId>,  // the session each session document id was issued for
    ended: map<SessionId, Ending>,  // the last event that removed a session for good
    owner: map<Token, Username>,    // every token issued, and the caller whose code exchange it goes back to
    revoked: set<Token>,            // every token ORCID was successfully told to revoke
    origin: map<ObjectId, Origin>)  // every link document ever inserted

  function Empty(uniqueIndex: bool, clock: int): Shared {
    Shared(map[], map[], map[], map[], uniqueIndex, clock, map[], map[], map[], map[], {}, map[])
  }

  datatype LinkKey = ByUsername(username: Username) | ByOrcid(orcid: string)

  /** create_linking_session */
  datatype CreatePc =
    | CreateCheck(username: Username, caller: Username)
    | CreateStamp(username: Username)
    | CreateInsert(username: Username, createdAt: int)

  /** start_linking_session */
  datatype StartPc =
    | StartCheck(sessionId: SessionId, caller: Username, options: StartOptions)
    | StartFind(sessionId: SessionId, options: StartOptions)
    | StartInsert(oid: ObjectId, doc: Started)
    | StartDelete(sessionId: SessionId)

  /** linking_sessions_continue */
  datatype ContinuePc =
    | ContinueCheck(sessionId: SessionId, caller: Username)
    | ContinueExchange(sessionId: SessionId, caller: Username)
    | ContinueLookup(sessionId: SessionId, auth: OrcidAuth)
    | ContinueReject(sessionId: SessionId)
    | ContinueFind(sessionId: SessionId, auth: OrcidAuth)
    | ContinueInsert(oid: ObjectId, doc: Completed)
    | ContinueDelete(sessionId: SessionId)

  /** finish_linking_session */
  datatype FinishPc =
    | FinishCheck(sessionId: SessionId, caller: Username)
    | FinishStamp(caller: Username, session: Completed)
    | FinishInsert(sessionId: SessionId, caller: Username, link: Link)
    | FinishDelete(sessionId: SessionId, linkId: ObjectId)

  /** delete_linking_session by its owner */
  datatype DropPc =
    | DropCheck(sessionId: SessionId, caller: Username)
    | DropDelete(session: Completed)
    | DropRevoke(token: Token)

  /** delete_linking_session_initial, _started and _completed, by a manager */
  datatype ManagePc =
    | DropInitial(sessionId: SessionId)
    | DropStarted(sessionId: SessionId)
    | DropCompleted(sessionId: SessionId)

  /** delete_expired_linking_sessions */
  datatype CleanupPc =
    | CleanupStamp
    | CleanupRead(cutoff: int)
    | CleanupRevoke(cutoff: int, queue: seq<Completed>, touched: bool)
    | CleanupRestamp(cutoff: int)
    | CleanupInitial(now: int)
    | CleanupStarted(now: int)
    | CleanupCompleted(now: int)

  /** delete_own_link (with the caller) and delete_link (by a manager, without) */
  datatype UnlinkPc =
    | UnlinkCheck(username: Username, asOwner: Option<Username>)
    | UnlinkRevoke(link: Link)
    | UnlinkDelete(username: Username)

  /** link_record_for_user, link_record_for_orcid_id, refresh_token_for_link; ManagerRefresh is refresh_tokens */
  datatype RefreshPc =
    | UseFind(key: LinkKey)
    | UseCheck(link: Link)
    | ManagerRefresh(username: Username)
    | RefreshStamp(link: Link)
    | RefreshCall(link: Link, retireFrom: Option<int>)
    | RefreshRestamp(link: Link, auth: OrcidAuth, retireFrom: Option<int>)
    | RefreshSave(link: Link)

  datatype Pc =
    | Done
    | Create(create: CreatePc)
    | Start(start: StartPc)
    | Continue(resume: ContinuePc)
    | Finish(finish: FinishPc)
    | Drop(drop: DropPc)
    | Manage(manage: ManagePc)
    | Cleanup(cleanup: CleanupPc)
    | Unlink(unlink: UnlinkPc)
    | Refresh(refresh: RefreshPc)

  datatype Reply =
    | Found(doc: Option<ObjectId>)                      // the document find_one, delete_one or update_one matched
    | Tick(time: int)                                   // a clock read
    | NewSession(sessionId: SessionId, newOid: ObjectId)  // a uuid and the id of the inserted document
    | NewLink(newOid: ObjectId)                         // the id of the inserted document
    | Granted(auth: Option<OrcidAuth>)                  // ORCID's answer to a code exchange or a refresh
    | Revoked(ok: bool)                                 // ORCID's answer to a revocation
    | Batch(docs: seq<ObjectId>)                        // a cursor read of at most 100 documents
    | Proceed

  /** A store together with the one request being looked at. */
  datatype Moment = Moment(g: Shared, pc: Pc)

  // ---- What Mongo may answer -------------------------------------------------------------

  ghost predicate FindsInitial(g: Shared, sid: SessionId, r: Reply) {
    r.Found? &&
    match r.doc
    case Some(id) => id in g.initial && g.initial[id].sessionId == sid
    case None => forall id | id in g.initial :: g.initial[id].sessionId != sid
  }

  ghost predicate FindsStarted(g: Shared, sid: SessionId, r: Reply) {
    r.Found? &&
    match r.doc
    case Some(id) => id in g.started && g.started[id].base.sessionId == sid
    case None => forall id | id in g.started :: g.started[id].base.sessionId != sid
  }

  ghost predicate FindsCompleted(g: Shared, sid: SessionId, r: Reply) {
    r.Found? &&
    match r.doc
    case Some(id) => id in g.completed && g.completed[id].base.sessionId == sid
    case None => forall id | id in g.completed :: g.completed[id].base.sessionId != sid
  }

  predicate HasKey(link: Link, key: LinkKey) {
    match key
    case ByUsername(u) => link.username == u
    case ByOrcid(o) => link.auth.orcid == o
  }

  ghost predicate FindsLink(g: Shared, key: LinkKey, r: Reply) {
    r.Found? &&
    match r.doc
    case Some(id) => id in g.links && HasKey(g.links[id], key)
    case None => forall id | id in g.links :: !HasKey(g.links[id], key)
  }

  ghost predicate UsernameTaken(g: Shared, username: Username) {
    exists id :: id in g.links && g.links[id].username == username
  }

  ghost function ExpiredCompleted(g: Shared, cutoff: int): set<ObjectId> {
    set id | id in g.completed && g.completed[id].base.expiresAt <= cutoff
  }

  const BATCH_LIMIT := 100

  /** Up to 100 distinct expired completed sessions; all of them when there are at most 100. */
  ghost predicate ReadsExpired(g: Shared, cutoff: int, docs: seq<ObjectId>) {
    && (forall i | 0 <= i < |docs| :: docs[i] in ExpiredCompleted(g, cutoff))
    && (forall i, j | 0 <= i < j < |docs| :: docs[i] != docs[j])
    && |docs| == if |ExpiredCompleted(g, cutoff)| <= BATCH_LIMIT then |ExpiredCompleted(g, cutoff)| else BATCH_LIMIT
  }

  function ReadDocs(g: Shared, docs: seq<ObjectId>): (out: seq<Completed>)
    requires forall i | 0 <= i < |docs| :: docs[i] in g.completed
  {
    seq(|docs|, i requires 0 <= i < |docs| => g.completed[docs[i]])
  }

  // Per request: what may be answered. The clock never goes back; uuids, document ids and tokens are
  // never issued twice.

  ghost predicate CreateEnabled(g: Shared, pc: CreatePc, r: Reply) {
    match pc
    case CreateCheck(username, _) => FindsLink(g, ByUsername(username), r)
    case CreateStamp(_) => r.Tick? && g.clock <= r.time
    case CreateInsert(_, _) =>
      r.NewSession? && r.sessionId !in g.born && r.newOid !in g.sessionOf && r.newOid !in g.initial
  }

  ghost predicate StartEnabled(g: Shared, pc: StartPc, r: Reply) {
    match pc
    case StartCheck(sid, _, _) => FindsInitial(g, sid, r)
    case StartFind(sid, _) => FindsInitial(g, sid, r)
    case StartInsert(_, _) => r.Proceed?
    case StartDelete(sid) => FindsInitial(g, sid, r)
  }

  ghost predicate ContinueEnabled(g: Shared, pc: ContinuePc, r: Reply) {
    match pc
    case ContinueCheck(sid, _) => FindsStarted(g, sid, r)
    case ContinueExchange(_, _) => r.Granted? && (r.auth.Some? ==> r.auth.value.accessToken !in g.owner)
    case ContinueLookup(_, auth) => FindsLink(g, ByOrcid(auth.orcid), r)
    case ContinueReject(sid) => FindsStarted(g, sid, r)
    case ContinueFind(sid, _) => FindsStarted(g, sid, r)
    case ContinueInsert(_, _) => r.Proceed?
    case ContinueDelete(sid) => FindsStarted(g, sid, r)
  }

  ghost predicate FinishEnabled(g: Shared, pc: FinishPc, r: Reply) {
    match pc
    case FinishCheck(sid, _) => FindsCompleted(g, sid, r)
    case FinishStamp(_, _) => r.Tick? && g.clock <= r.time
    case FinishInsert(_, _, _) => r.NewLink? && r.newOid !in g.origin && r.newOid !in g.links
    case FinishDelete(sid, _) => FindsCompleted(g, sid, r)
  }

  ghost predicate DropEnabled(g: Shared, pc: DropPc, r: Reply) {
    match pc
    case DropCheck(sid, _) => FindsCompleted(g, sid, r)
    case DropDelete(session) => FindsCompleted(g, session.base.sessionId, r)
    case DropRevoke(_) => r.Revoked?
  }

  ghost predicate ManageEnabled(g: Shared, pc: ManagePc, r: Reply) {
    match pc
    case DropInitial(sid) => FindsInitial(g, sid, r)
    case DropStarted(sid) => FindsStarted(g, sid, r)
    case DropCompleted(sid) => FindsCompleted(g, sid, r)
  }

  ghost predicate CleanupEnabled(g: Shared, pc: CleanupPc, r: Reply) {
    match pc
    case CleanupStamp => r.Tick? && g.clock <= r.time
    case CleanupRead(cutoff) => r.Batch? && ReadsExpired(g, cutoff, r.docs)
    case CleanupRevoke(_, queue, _) => if queue == [] then r.Proceed? else r.Revoked?
    case CleanupRestamp(_) => r.Tick? && g.clock <= r.time
    case CleanupInitial(_) => r.Proceed?
    case CleanupStarted(_) => r.Proceed?
    case CleanupCompleted(_) => r.Proceed?
  }

  ghost predicate UnlinkEnabled(g: Shared, pc: UnlinkPc, r: Reply) {
    match pc
    case UnlinkCheck(username, _) => FindsLink(g, ByUsername(username), r)
    case UnlinkRevoke(_) => r.Revoked?
    case UnlinkDelete(username) => FindsLink(g, ByUsername(username), r)
  }

  ghost predicate RefreshEnabled(g: Shared, pc: RefreshPc, r: Reply) {
    match pc
    case UseFind(key) => FindsLink(g, key, r)
    case UseCheck(_) => r.Tick? && g.clock <= r.time
    case ManagerRefresh(username) => FindsLink(g, ByUsername(username), r)
    case RefreshStamp(_) => r.Tick? && g.clock <= r.time
    case RefreshCall(link, _) =>
      // ORCID refreshes only a grant it has issued.
      r.Granted? && (r.auth.Some? ==> r.auth.value.accessToken !in g.owner && link.auth.accessToken in g.owner)
    case RefreshRestamp(_, _, _) => r.Tick? && g.clock <= r.time
    case RefreshSave(link) => FindsLink(g, ByUsername(link.username), r)
  }

  ghost predicate Enabled(g: Shared, pc: Pc, r: Reply) {
    match pc
    case Done => false
    case Create(p) => CreateEnabled(g, p, r)
    case Start(p) => StartEnabled(g, p, r)
    case Continue(p) => ContinueEnabled(g, p, r)
    case Finish(p) => FinishEnabled(g, p, r)
    case Drop(p) => DropEnabled(g, p, r)
    case Manage(p) => ManageEnabled(g, p, r)
    case Cleanup(p) => CleanupEnabled(g, p, r)
    case Unlink(p) => UnlinkEnabled(g, p, r)
    case Refresh(p) => RefreshEnabled(g, p, r)
  }

  // ---- What each access does -------------------------------------------------------------

  function NewBase(cfg: Config, sid: SessionId, username: Username, createdAt: int): Session {
    Session(sid, username, createdAt, createdAt + cfg.sessionLifetime * 1000)
  }

  function NewLinkRecord(cfg: Config, session: Completed, now: int): Link {
    Link(session.base.username, now, now + session.auth.expiresIn * 1000, now + cfg.retirementAge * 1000, session.auth)
  }

  /** The record saved by a refresh; a manager's refresh leaves the retirement date alone. */
  function RefreshedLink(cfg: Config, link: Link, auth: OrcidAuth, retireFrom: Option<int>, now: int): Link {
    link.(auth := auth, createdAt := now, expiresAt := now + cfg.sessionLifetime * 1000,
          retiresAt := match retireFrom case Some(t) => t + cfg.retirementAge * 1000 case None => link.retiresAt)
  }

  ghost function ExpiredIds(ended: map<SessionId, Ending>, gone: set<SessionId>): map<SessionId, Ending> {
    ended + map s | s in gone :: Expired
  }

  ghost function CreateNext(cfg: Config, g: Shared, pc: CreatePc, r: Reply): Moment
    requires CreateEnabled(g, pc, r)
  {
    match pc
    case CreateCheck(username, caller) =>
      if username != caller || r.doc.Some? then Moment(g, Done) else Moment(g, Create(CreateStamp(username)))
    case CreateStamp(username) => Moment(g.(clock := r.time), Create(CreateInsert(username, r.time)))
    case CreateInsert(username, createdAt) =>
      var s := NewBase(cfg, r.sessionId, username, createdAt);
      Moment(g.(initial := g.initial[r.newOid := s], born := g.born[r.sessionId := Birth(r.newOid, s)],
                sessionOf := g.sessionOf[r.newOid := r.sessionId]), Done)
  }

  ghost function StartNext(g: Shared, pc: StartPc, r: Reply): Moment
    requires StartEnabled(g, pc, r)
  {
    match pc
    case StartCheck(sid, caller, options) =>
      if r.doc.None? || g.initial[r.doc.value].username != caller then Moment(g, Done)
      else Moment(g, Start(StartFind(sid, options)))
    case StartFind(sid, options) =>
      if r.doc.None? then Moment(g, Done)
      else Moment(g, Start(StartInsert(r.doc.value, Started(g.initial[r.doc.value], options))))
    case StartInsert(oid, doc) =>
      if oid in g.started then Moment(g, Done)  // duplicate key
      else Moment(g.(started := g.started[oid := doc]), Start(StartDelete(doc.base.sessionId)))
    case StartDelete(sid) =>
      if r.doc.None? then Moment(g, Done) else Moment(g.(initial := g.initial - {r.doc.value}), Done)
  }

  ghost function ContinueNext(g: Shared, pc: ContinuePc, r: Reply): Moment
    requires ContinueEnabled(g, pc, r)
  {
    match pc
    case ContinueCheck(sid, caller) =>
      if r.doc.None? || g.started[r.doc.value].base.username != caller then Moment(g, Done)
      else Moment(g, Continue(ContinueExchange(sid, caller)))
    case ContinueExchange(sid, caller) =>
      if r.auth.None? then Moment(g, Done)
      else Moment(g.(owner := g.owner[r.auth.value.accessToken := caller]), Continue(ContinueLookup(sid, r.auth.value)))
    case ContinueLookup(sid, auth) =>
      if r.doc.Some? then Moment(g, Continue(ContinueReject(sid))) else Moment(g, Continue(ContinueFind(sid, auth)))
    case ContinueReject(sid) =>
      if r.doc.None? then Moment(g, Done)
      else Moment(g.(started := g.started - {r.doc.value}, ended := g.ended[sid := Rejected]), Done)
    case ContinueFind(sid, auth) =>
      if r.doc.None? then Moment(g, Done)
      else
        var s := g.started[r.doc.value];
        Moment(g, Continue(ContinueInsert(r.doc.value, Completed(s.base, s.options, auth))))
    case ContinueInsert(oid, doc) =>
      if oid in g.completed then Moment(g, Done)  // duplicate key
      else Moment(g.(completed := g.completed[oid := doc]), Continue(ContinueDelete(doc.base.sessionId)))
    case ContinueDelete(sid) =>
      if r.doc.None? then Moment(g, Done) else Moment(g.(started := g.started - {r.doc.value}), Done)
  }

  ghost function FinishNext(cfg: Config, g: Shared, pc: FinishPc, r: Reply): Moment
    requires FinishEnabled(g, pc, r)
  {
    match pc
    case FinishCheck(sid, caller) =>
      if r.doc.None? || g.completed[r.doc.value].base.username != caller then Moment(g, Done)
      else Moment(g, Finish(FinishStamp(caller, g.completed[r.doc.value])))
    case FinishStamp(caller, session) =>
      Moment(g.(clock := r.time),
             Finish(FinishInsert(session.base.sessionId, caller, NewLinkRecord(cfg, session, r.time))))
    case FinishInsert(sid, caller, link) =>
      if g.uniqueIndex && UsernameTaken(g, link.username) then Moment(g, Done)  // duplicate key
      else Moment(g.(links := g.links[r.newOid := link], origin := g.origin[r.newOid := Origin(sid, caller)]),
                  Finish(FinishDelete(sid, r.newOid)))
    case FinishDelete(sid, linkId) =>
      if r.doc.None? then Moment(g, Done)
      else Moment(g.(completed := g.completed - {r.doc.value}, ended := g.ended[sid := Finished(linkId)]), Done)
  }

  ghost function DropNext(g: Shared, pc: DropPc, r: Reply): Moment
    requires DropEnabled(g, pc, r)
  {
    match pc
    case DropCheck(sid, caller) =>
      if r.doc.None? || g.completed[r.doc.value].base.username != caller then Moment(g, Done)
      else Moment(g, Drop(DropDelete(g.completed[r.doc.value])))
    case DropDelete(session) =>
      if r.doc.None? then Moment(g, Drop(DropRevoke(session.auth.accessToken)))
      else Moment(g.(completed := g.completed - {r.doc.value}, ended := g.ended[session.base.sessionId := Deleted]),
                  Drop(DropRevoke(session.auth.accessToken)))
    case DropRevoke(token) =>
      Moment(if r.ok then g.(revoked := g.revoked + {token}) else g, Done)
  }

  ghost function ManageNext(g: Shared, pc: ManagePc, r: Reply): Moment
    requires ManageEnabled(g, pc, r)
  {
    if r.doc.None? then Moment(g, Done)
    else
      match pc
      case DropInitial(sid) => Moment(g.(initial := g.initial - {r.doc.value}, ended := g.ended[sid := Deleted]), Done)
      case DropStarted(sid) => Moment(g.(started := g.started - {r.doc.value}, ended := g.ended[sid := Deleted]), Done)
      case DropCompleted(sid) =>
        Moment(g.(completed := g.completed - {r.doc.value}, ended := g.ended[sid := Deleted]), Done)
  }

  ghost function CleanupNext(g: Shared, pc: CleanupPc, r: Reply): Moment
    requires CleanupEnabled(g, pc, r)
  {
    match pc
    case CleanupStamp => Moment(g.(clock := r.time), Cleanup(CleanupRead(r.time)))
    case CleanupRead(cutoff) => Moment(g, Cleanup(CleanupRevoke(cutoff, ReadDocs(g, r.docs), false)))
    case CleanupRevoke(cutoff, queue, touched) =>
      if queue == [] then Moment(g, Cleanup(CleanupRestamp(cutoff)))
      else if r.ok then
        Moment(g.(revoked := g.revoked + {queue[0].auth.accessToken}), Cleanup(CleanupRevoke(cutoff, queue[1..], true)))
      else Moment(g, Done)  // the exception ends the cleanup
    case CleanupRestamp(_) => Moment(g.(clock := r.time), Cleanup(CleanupInitial(r.time)))
    case CleanupInitial(now) =>
      var kept := map id | id in g.initial && now < g.initial[id].expiresAt :: g.initial[id];
      var gone := set id | id in g.initial && g.initial[id].expiresAt <= now :: g.initial[id].sessionId;
      Moment(g.(initial := kept, ended := ExpiredIds(g.ended, gone)), Cleanup(CleanupStarted(now)))
    case CleanupStarted(now) =>
      var kept := map id | id in g.started && now < g.started[id].base.expiresAt :: g.started[id];
      var gone := set id | id in g.started && g.started[id].base.expiresAt <= now :: g.started[id].base.sessionId;
      Moment(g.(started := kept, ended := ExpiredIds(g.ended, gone)), Cleanup(CleanupCompleted(now)))
    case CleanupCompleted(now) =>
      var kept := map id | id in g.completed && now < g.completed[id].base.expiresAt :: g.completed[id];
      var gone := set id | id in g.completed && g.completed[id].base.expiresAt <= now :: g.completed[id].base.sessionId;
      Moment(g.(completed := kept, ended := ExpiredIds(g.ended, gone)), Done)
  }

  ghost function UnlinkNext(g: Shared, pc: UnlinkPc, r: Reply): Moment
    requires UnlinkEnabled(g, pc, r)
  {
    match pc
    case UnlinkCheck(username, asOwner) =>
      if r.doc.None? then Moment(g, Done)
      else if asOwner.Some? && g.links[r.doc.value].username != asOwner.value then Moment(g, Done)
      else Moment(g, Unlink(UnlinkRevoke(g.links[r.doc.value])))
    case UnlinkRevoke(link) =>
      if r.ok then Moment(g.(revoked := g.revoked + {link.auth.accessToken}), Unlink(UnlinkDelete(link.username)))
      else Moment(g, Done)
    case UnlinkDelete(username) =>
      if r.doc.None? then Moment(g, Done) else Moment(g.(links := g.links - {r.doc.value}), Done)
  }

  ghost function RefreshNext(cfg: Config, g: Shared, pc: RefreshPc, r: Reply): Moment
    requires RefreshEnabled(g, pc, r)
  {
    match pc
    case UseFind(key) =>
      if r.doc.None? then Moment(g, Done) else Moment(g, Refresh(UseCheck(g.links[r.doc.value])))
    case UseCheck(link) =>
      Moment(g.(clock := r.time), if link.retiresAt < r.time then Refresh(RefreshStamp(link)) else Done)
    case ManagerRefresh(username) =>
      if r.doc.None? then Moment(g, Done) else Moment(g, Refresh(RefreshCall(g.links[r.doc.value], None)))
    case RefreshStamp(link) => Moment(g.(clock := r.time), Refresh(RefreshCall(link, Some(r.time))))
    case RefreshCall(link, retireFrom) =>
      // The refresh asks ORCID to revoke the old tokens.
      if r.auth.None? then Moment(g, Done)
      else Moment(g.(owner := g.owner[r.auth.value.accessToken := g.owner[link.auth.accessToken]],
                     revoked := g.revoked + {link.auth.accessToken}),
                  Refresh(RefreshRestamp(link, r.auth.value, retireFrom)))
    case RefreshRestamp(link, auth, retireFrom) =>
      Moment(g.(clock := r.time), Refresh(RefreshSave(RefreshedLink(cfg, link, auth, retireFrom, r.time))))
    case RefreshSave(link) =>
      if r.doc.None? then Moment(g, Done) else Moment(g.(links := g.links[r.doc.value := link]), Done)
  }

  ghost function Next(cfg: Config, g: Shared, pc: Pc, r: Reply): Moment
    requires Enabled(g, pc, r)
  {
    match pc
    case Create(p) => CreateNext(cfg, g, p, r)
    case Start(p) => StartNext(g, p, r)
    case Continue(p) => ContinueNext(g, p, r)
    case Finish(p) => FinishNext(cfg, g, p, r)
    case Drop(p) => DropNext(g, p, r)
    case Manage(p) => ManageNext(g, p, r)
    case Cleanup(p) => CleanupNext(g, p, r)
    case Unlink(p) => UnlinkNext(g, p, r)
    case Refresh(p) => RefreshNext(cfg, g, p, r)
  }

  /** A request before its first access. */
  predicate Fresh(pc: Pc) {
    match pc
    case Done => false
    case Create(p) => p.CreateCheck?
    case Start(p) => p.StartCheck?
    case Continue(p) => p.ContinueCheck?
    case Finish(p) => p.FinishCheck?
    case Drop(p) => p.DropCheck?
    case Manage(_) => true
    case Cleanup(p) => p.CleanupStamp?
    case Unlink(p) => p.UnlinkCheck?
    case Refresh(p) => p.UseFind? || p.ManagerRefresh?
  }

  // ---- One request from where it is, answer by answer ------------------------------------

  ghost predicate Answers(cfg: Config, m: Moment, replies: seq<Reply>)
    decreases |replies|
  {
    |replies| == 0 || (Enabled(m.g, m.pc, replies[0]) && Answers(cfg, Next(cfg, m.g, m.pc, replies[0]), replies[1..]))
  }

  ghost function AfterAnswers(cfg: Config, m: Moment, replies: seq<Reply>): Moment
    requires Answers(cfg, m, replies)
    decreases |replies|
  {
    if |replies| == 0 then m else AfterAnswers(cfg, Next(cfg, m.g, m.pc, replies[0]), replies[1..])
  }

  lemma AnswerCons(cfg: Config, m: Moment, r: Reply, rest: seq<Reply>)
    requires Enabled(m.g, m.pc, r) && Answers(cfg, Next(cfg, m.g, m.pc, r), rest)
    ensures Answers(cfg, m, [r] + rest)
    ensures AfterAnswers(cfg, m, [r] + rest) == AfterAnswers(cfg, Next(cfg, m.g, m.pc, r), rest)
  {
    assert ([r] + rest)[1..] == rest;
  }
}
