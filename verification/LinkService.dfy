/**
 The storage model and the request handlers as the service runs them.

 Every handler is proved against the protocol: from its first program counter it takes exactly the
 accesses of `Protocol.Next`, in order, and ends in the store it leaves behind. So the invariants
 of all interleavings, and of all serial runs, are about these bodies.
 */
module LinkService {
  import opened Wrappers
  import opened Protocol

  datatype Error = NotFound | NotAuthorized | AlreadyLinked | DuplicateKey | UpstreamError

  /** The request, taken from `pc` to its end, turns the one store into the other. */
  ghost predicate Performs(cfg: Config, g: Shared, pc: Pc, replies: seq<Reply>, h: Shared) {
    Answers(cfg, Moment(g, pc), replies) && AfterAnswers(cfg, Moment(g, pc), replies) == Moment(h, Done)
  }

  lemma Last(cfg: Config, m: Moment, r: Reply) returns (replies: seq<Reply>)
    requires Enabled(m.g, m.pc, r) && Next(cfg, m.g, m.pc, r).pc.Done?
    ensures Performs(cfg, m.g, m.pc, replies, Next(cfg, m.g, m.pc, r).g)
  {
    AnswerCons(cfg, m, r, []);
    replies := [r] + [];
  }

  lemma Before(cfg: Config, m: Moment, r: Reply, n: Moment, rest: seq<Reply>) returns (replies: seq<Reply>)
    requires Enabled(m.g, m.pc, r) && Next(cfg, m.g, m.pc, r) == n && Answers(cfg, n, rest)
    ensures Answers(cfg, m, replies) && AfterAnswers(cfg, m, replies) == AfterAnswers(cfg, n, rest)
  {
    AnswerCons(cfg, m, r, rest);
    replies := [r] + rest;
  }

  // ---- Paths through the protocol --------------------------------------------------------

  lemma CreatePath(cfg: Config, g: Shared, username: Username, now: int, sid: SessionId, oid: ObjectId)
    returns (replies: seq<Reply>)
    requires !UsernameTaken(g, username) && g.clock <= now
    requires sid !in g.born && oid !in g.sessionOf && oid !in g.initial
    ensures
      var s := NewBase(cfg, sid, username, now);
      Performs(cfg, g, Create(CreateCheck(username, username)), replies,
               g.(initial := g.initial[oid := s], born := g.born[sid := Birth(oid, s)],
                  sessionOf := g.sessionOf[oid := sid], clock := now))
  {
    var m1 := Moment(g, Create(CreateStamp(username)));
    var m2 := Moment(g.(clock := now), Create(CreateInsert(username, now)));
    replies := Last(cfg, m2, NewSession(sid, oid));
    replies := Before(cfg, m1, Tick(now), m2, replies);
    replies := Before(cfg, Moment(g, Create(CreateCheck(username, username))), Found(None), m1, replies);
  }

  /** From the second find of a start: the session moves unless the started collection already has its document id. */
  lemma StartPath(cfg: Config, g: Shared, sid: SessionId, options: StartOptions, id: ObjectId)
    returns (replies: seq<Reply>)
    requires id in g.initial && g.initial[id].sessionId == sid
    ensures Performs(cfg, g, Start(StartFind(sid, options)), replies, StartOutcome(g, options, id))
  {
    var doc := Started(g.initial[id], options);
    var m1 := Moment(g, Start(StartInsert(id, doc)));
    if id in g.started {
      replies := Last(cfg, m1, Proceed);
    } else {
      var m2 := Moment(g.(started := g.started[id := doc]), Start(StartDelete(sid)));
      replies := Last(cfg, m2, Found(Some(id)));
      replies := Before(cfg, m1, Proceed, m2, replies);
    }
    replies := Before(cfg, Moment(g, Start(StartFind(sid, options))), Found(Some(id)), m1, replies);
  }

  ghost function StartOutcome(g: Shared, options: StartOptions, id: ObjectId): Shared
    requires id in g.initial
  {
    if id in g.started then g
    else g.(started := g.started[id := Started(g.initial[id], options)], initial := g.initial - {id})
  }

  ghost function ContinueOutcome(g: Shared, auth: OrcidAuth, id: ObjectId): Shared
    requires id in g.started
  {
    if id in g.completed then g
    else
      var s := g.started[id];
      g.(completed := g.completed[id := Completed(s.base, s.options, auth)], started := g.started - {id})
  }

  /** A session document moves from the started to the completed collection and takes the tokens along. */
  ghost predicate MovesToCompleted(g: Shared, h: Shared, sid: SessionId, auth: OrcidAuth, id: ObjectId) {
    && id in g.started && g.started[id].base.sessionId == sid && id !in g.completed
    && h.started == g.started - {id}
    && h.completed == g.completed[id := Completed(g.started[id].base, g.started[id].options, auth)]
  }

  /** An initial session with this id, if there is one, is gone. */
  ghost predicate DeletesInitial(g: Shared, h: Shared, sid: SessionId) {
    if FindsInitial(g, sid, Found(None)) then h.initial == g.initial
    else exists id :: id in g.initial && g.initial[id].sessionId == sid && h.initial == g.initial - {id}
  }

  /** A completed session with this id, if there is one, is gone. */
  ghost predicate DeletesCompleted(g: Shared, h: Shared, sid: SessionId) {
    if FindsCompleted(g, sid, Found(None)) then h.completed == g.completed
    else exists id :: id in g.completed && g.completed[id].base.sessionId == sid && h.completed == g.completed - {id}
  }

  /** A started session with this id, if there is one, is gone. */
  ghost predicate DeletesStarted(g: Shared, h: Shared, sid: SessionId) {
    if FindsStarted(g, sid, Found(None)) then h.started == g.started
    else exists id :: id in g.started && g.started[id].base.sessionId == sid && h.started == g.started - {id}
  }

  ghost predicate OneStarted(g: Shared, sid: SessionId) {
    forall a, b | a in g.started && b in g.started && g.started[a].base.sessionId == g.started[b].base.sessionId == sid
      :: a == b
  }

  ghost predicate InBoth(g: Shared, sid: SessionId) {
    exists id :: id in g.started && g.started[id].base.sessionId == sid && id in g.completed
  }

  /** From the second find of a continue. */
  lemma ContinuePath(cfg: Config, g: Shared, sid: SessionId, auth: OrcidAuth, id: ObjectId)
    returns (replies: seq<Reply>)
    requires id in g.started && g.started[id].base.sessionId == sid
    ensures Performs(cfg, g, Continue(ContinueFind(sid, auth)), replies, ContinueOutcome(g, auth, id))
  {
    var doc := Completed(g.started[id].base, g.started[id].options, auth);
    var m1 := Moment(g, Continue(ContinueInsert(id, doc)));
    if id in g.completed {
      replies := Last(cfg, m1, Proceed);
    } else {
      var m2 := Moment(g.(completed := g.completed[id := doc]), Continue(ContinueDelete(sid)));
      replies := Last(cfg, m2, Found(Some(id)));
      replies := Before(cfg, m1, Proceed, m2, replies);
    }
    replies := Before(cfg, Moment(g, Continue(ContinueFind(sid, auth))), Found(Some(id)), m1, replies);
  }

  ghost function Granting(g: Shared, auth: OrcidAuth, caller: Username): Shared {
    g.(owner := g.owner[auth.accessToken := caller])
  }

  /** A continue up to the lookup of the ORCID id, in front of what follows it. */
  lemma ExchangePath(cfg: Config, g: Shared, sid: SessionId, caller: Username, auth: OrcidAuth, id: ObjectId,
                     rest: seq<Reply>, h: Shared)
    returns (replies: seq<Reply>)
    requires id in g.started && g.started[id].base.sessionId == sid && g.started[id].base.username == caller
    requires auth.accessToken !in g.owner
    requires Performs(cfg, Granting(g, auth, caller), Continue(ContinueLookup(sid, auth)), rest, h)
    ensures Performs(cfg, g, Continue(ContinueCheck(sid, caller)), replies, h)
  {
    var m1 := Moment(g, Continue(ContinueExchange(sid, caller)));
    var m2 := Moment(Granting(g, auth, caller), Continue(ContinueLookup(sid, auth)));
    replies := Before(cfg, m1, Granted(Some(auth)), m2, rest);
    replies := Before(cfg, Moment(g, Continue(ContinueCheck(sid, caller))), Found(Some(id)), m1, replies);
  }

  lemma FinishPath(cfg: Config, g: Shared, sid: SessionId, caller: Username, id: ObjectId, now: int,
                   oid: ObjectId, rest: seq<Reply>, h: Shared)
    returns (replies: seq<Reply>)
    requires id in g.completed && g.completed[id].base.sessionId == sid && g.completed[id].base.username == caller
    requires g.clock <= now
    requires Performs(cfg, g.(clock := now),
                      Finish(FinishInsert(sid, caller, NewLinkRecord(cfg, g.completed[id], now))), rest, h)
    ensures Performs(cfg, g, Finish(FinishCheck(sid, caller)), replies, h)
  {
    var m1 := Moment(g, Finish(FinishStamp(caller, g.completed[id])));
    var m2 := Moment(g.(clock := now), Finish(FinishInsert(sid, caller, NewLinkRecord(cfg, g.completed[id], now))));
    replies := Before(cfg, m1, Tick(now), m2, rest);
    replies := Before(cfg, Moment(g, Finish(FinishCheck(sid, caller))), Found(Some(id)), m1, replies);
  }

  // A cleanup: the batch read at the first clock value, its tokens, and what is deleted at the second.

  function TokensOf(docs: seq<Completed>): set<Token> {
    set i | 0 <= i < |docs| :: docs[i].auth.accessToken
  }

  ghost function Revoking(g: Shared, docs: seq<Completed>): Shared {
    g.(revoked := g.revoked + TokensOf(docs))
  }

  /** The first n revocations of a batch, in front of what follows them. */
  lemma {:induction false} RevokePath(cfg: Config, g: Shared, cutoff: int, queue: seq<Completed>, touched: bool, n: nat,
                                      rest: seq<Reply>, h: Shared)
    returns (replies: seq<Reply>)
    requires n <= |queue|
    requires Performs(cfg, Revoking(g, queue[..n]), Cleanup(CleanupRevoke(cutoff, queue[n..], touched || n > 0)),
                      rest, h)
    ensures Performs(cfg, g, Cleanup(CleanupRevoke(cutoff, queue, touched)), replies, h)
    decreases n
  {
    if n == 0 {
      assert Revoking(g, queue[..0]) == g && queue[0..] == queue;
      return rest;
    }
    var g1 := g.(revoked := g.revoked + {queue[0].auth.accessToken});
    assert queue[..n] == [queue[0]] + queue[1..][..n - 1];
    assert Revoking(g, queue[..n]) == Revoking(g1, queue[1..][..n - 1]) by {
      TokensCons(queue[0], queue[1..][..n - 1]);
    }
    assert queue[1..][n - 1..] == queue[n..];
    replies := RevokePath(cfg, g1, cutoff, queue[1..], true, n - 1, rest, h);
    replies := Before(cfg, Moment(g, Cleanup(CleanupRevoke(cutoff, queue, touched))), Revoked(true),
                      Moment(g1, Cleanup(CleanupRevoke(cutoff, queue[1..], true))), replies);
  }

  lemma TokensCons(c: Completed, docs: seq<Completed>)
    ensures TokensOf([c] + docs) == {c.auth.accessToken} + TokensOf(docs)
  {
    forall t | t in TokensOf(docs) ensures t in TokensOf([c] + docs) {
      var i :| 0 <= i < |docs| && docs[i].auth.accessToken == t;
      assert ([c] + docs)[i + 1] == docs[i];
    }
    assert ([c] + docs)[0] == c;
  }

  /** The two clock reads and the batch read of a cleanup, in front of its revocations. */
  lemma BatchPath(cfg: Config, g: Shared, now: int, docs: seq<ObjectId>, rest: seq<Reply>, h: Shared)
    returns (replies: seq<Reply>)
    requires g.clock <= now && ReadsExpired(g, now, docs)
    requires Performs(cfg, g.(clock := now), Cleanup(CleanupRevoke(now, ReadDocs(g, docs), false)), rest, h)
    ensures Performs(cfg, g, Cleanup(CleanupStamp), replies, h)
  {
    var m1 := Moment(g.(clock := now), Cleanup(CleanupRead(now)));
    assert ReadsExpired(m1.g, now, docs) && ReadDocs(m1.g, docs) == ReadDocs(g, docs);
    var m2 := Moment(m1.g, Cleanup(CleanupRevoke(now, ReadDocs(g, docs), false)));
    replies := Before(cfg, m1, Batch(docs), m2, rest);
    replies := Before(cfg, Moment(g, Cleanup(CleanupStamp)), Tick(now), m1, replies);
  }

  function KeptInitial(docs: map<ObjectId, Session>, now: int): map<ObjectId, Session> {
    map id | id in docs && now < docs[id].expiresAt :: docs[id]
  }

  function KeptStarted(docs: map<ObjectId, Started>, now: int): map<ObjectId, Started> {
    map id | id in docs && now < docs[id].base.expiresAt :: docs[id]
  }

  function KeptCompleted(docs: map<ObjectId, Completed>, now: int): map<ObjectId, Completed> {
    map id | id in docs && now < docs[id].base.expiresAt :: docs[id]
  }

  ghost predicate KeepsActive(g: Shared, h: Shared, now: int) {
    && h.initial == KeptInitial(g.initial, now)
    && h.started == KeptStarted(g.started, now)
    && h.completed == KeptCompleted(g.completed, now)
  }

  function GoneInitial(docs: map<ObjectId, Session>, now: int): set<SessionId> {
    set id | id in docs && docs[id].expiresAt <= now :: docs[id].sessionId
  }

  function GoneStarted(docs: map<ObjectId, Started>, now: int): set<SessionId> {
    set id | id in docs && docs[id].base.expiresAt <= now :: docs[id].base.sessionId
  }

  function GoneCompleted(docs: map<ObjectId, Completed>, now: int): set<SessionId> {
    set id | id in docs && docs[id].base.expiresAt <= now :: docs[id].base.sessionId
  }

  /** The deletes of a cleanup. */
  ghost function Sweeping(g: Shared, now: int): (h: Shared)
    ensures KeepsActive(g, h, now)
    ensures h.links == g.links && h.revoked == g.revoked && h.clock == now
  {
    g.(initial := KeptInitial(g.initial, now), started := KeptStarted(g.started, now),
       completed := KeptCompleted(g.completed, now), clock := now,
       ended := ExpiredIds(ExpiredIds(ExpiredIds(g.ended, GoneInitial(g.initial, now)), GoneStarted(g.started, now)),
                           GoneCompleted(g.completed, now)))
  }

  lemma SweepPath(cfg: Config, g: Shared, cutoff: int, now: int) returns (replies: seq<Reply>)
    requires g.clock <= now
    ensures Performs(cfg, g, Cleanup(CleanupRevoke(cutoff, [], true)), replies, Sweeping(g, now))
    ensures Performs(cfg, g, Cleanup(CleanupRevoke(cutoff, [], false)), replies, Sweeping(g, now))
  {
    var m1 := Moment(g, Cleanup(CleanupRestamp(cutoff)));
    var m2 := Moment(g.(clock := now), Cleanup(CleanupInitial(now)));
    var m3 := Next(cfg, m2.g, m2.pc, Proceed);
    var m4 := Next(cfg, m3.g, m3.pc, Proceed);
    assert Next(cfg, m4.g, m4.pc, Proceed).g == Sweeping(g, now);
    replies := Last(cfg, m4, Proceed);
    replies := Before(cfg, m3, Proceed, m4, replies);
    replies := Before(cfg, m2, Proceed, m3, replies);
    replies := Before(cfg, m1, Tick(now), m2, replies);
    AnswerCons(cfg, Moment(g, Cleanup(CleanupRevoke(cutoff, [], false))), Proceed, replies);
    replies := Before(cfg, Moment(g, Cleanup(CleanupRevoke(cutoff, [], true))), Proceed, m1, replies);
  }

  // A refresh, from the call to ORCID on.

  ghost function Regranting(g: Shared, link: Link, auth: OrcidAuth): Shared
    requires link.auth.accessToken in g.owner
  {
    g.(owner := g.owner[auth.accessToken := g.owner[link.auth.accessToken]],
       revoked := g.revoked + {link.auth.accessToken})
  }

  lemma RefreshPath(cfg: Config, g: Shared, link: Link, retireFrom: Option<int>, auth: OrcidAuth, now: int,
                    id: Option<ObjectId>)
    returns (replies: seq<Reply>)
    requires g.clock <= now && link.auth.accessToken in g.owner && auth.accessToken !in g.owner
    requires FindsLink(g, ByUsername(link.username), Found(id))
    ensures
      var h := Regranting(g, link, auth).(clock := now);
      Performs(cfg, g, Refresh(RefreshCall(link, retireFrom)), replies,
               if id.None? then h
               else h.(links := g.links[id.value := RefreshedLink(cfg, link, auth, retireFrom, now)]))
  {
    var g1 := Regranting(g, link, auth);
    var m1 := Moment(g1, Refresh(RefreshRestamp(link, auth, retireFrom)));
    var m2 := Moment(g1.(clock := now), Refresh(RefreshSave(RefreshedLink(cfg, link, auth, retireFrom, now))));
    replies := Last(cfg, m2, Found(id));
    replies := Before(cfg, m1, Tick(now), m2, replies);
    replies := Before(cfg, Moment(g, Refresh(RefreshCall(link, retireFrom))), Granted(Some(auth)), m1, replies);
  }

  /** The record handed out for a link read at `now`: the link itself unless it has retired, else its refreshed form. */
  predicate IsUsable(cfg: Config, link: Link, now: int, refreshFrom: int, granted: Option<OrcidAuth>, later: int,
                     r: Link)
  {
    if now <= link.retiresAt then r == link
    else granted == Some(r.auth) && r.username == link.username &&
         r.createdAt == later && r.expiresAt == later + cfg.sessionLifetime * 1000 &&
         r.retiresAt == refreshFrom + cfg.retirementAge * 1000
  }

  /** One link of that user is overwritten. */
  ghost predicate SavesOver(g: Shared, h: Shared, link: Link) {
    exists id :: id in g.links && g.links[id].username == link.username && h.links == g.links[id := link]
  }

  lemma SavedOver(g: Shared, h: Shared, link: Link)
    requires SavesOver(g, h, link)
    ensures exists id :: id in h.links && h.links[id] == link
    ensures h.links.Keys == g.links.Keys
    ensures forall id | id in h.links :: h.links[id].username == g.links[id].username
  {
    var id :| id in g.links && g.links[id].username == link.username && h.links == g.links[id := link];
    assert h.links[id] == link;
  }

  // ---- Stats -----------------------------------------------------------------------------

  datatype SessionStats = SessionStats(active: nat, expired: nat)

  datatype LinkStats = LinkStats(last24Hours: nat, last7Days: nat, last30Days: nat, allTime: nat)

  datatype Stats = Stats(links: LinkStats, initial: SessionStats, started: SessionStats, completed: SessionStats)

  const DAY := 24 * 60 * 60 * 1000

  ghost function LinksSince(g: Shared, time: int): set<ObjectId> {
    set id | id in g.links && g.links[id].createdAt >= time
  }

  /** The stats by what they count: what a cleanup at `now` would keep, and the rest. */
  ghost predicate CountsAt(g: Shared, now: int, stats: Stats) {
    && stats.initial.active == |KeptInitial(g.initial, now)|
    && stats.started.active == |KeptStarted(g.started, now)|
    && stats.completed.active == |KeptCompleted(g.completed, now)|
    && stats.initial.active + stats.initial.expired == |g.initial|
    && stats.started.active + stats.started.expired == |g.started|
    && stats.completed.active + stats.completed.expired == |g.completed|
    && stats.links.last24Hours == |LinksSince(g, now - DAY)|
    && stats.links.last7Days == |LinksSince(g, now - 7 * DAY)|
    && stats.links.last30Days == |LinksSince(g, now - 30 * DAY)|
    && stats.links.allTime == |g.links|
  }

  lemma SubsetSize<T>(a: set<T>, b: set<T>)
    requires a <= b
    ensures |a| <= |b| && (|a| == |b| ==> a == b)
  {
    assert b == a + (b - a);
  }

  /** At the instant of a cleanup's deletes nothing is expired any more, and what was active still is. */
  lemma CleanupClearsStats(g: Shared, h: Shared, now: int, before: Stats, after: Stats)
    requires KeepsActive(g, h, now) && CountsAt(g, now, before) && CountsAt(h, now, after)
    ensures after.initial == SessionStats(before.initial.active, 0)
    ensures after.started == SessionStats(before.started.active, 0)
    ensures after.completed == SessionStats(before.completed.active, 0)
    ensures before.links.last24Hours <= before.links.last7Days <= before.links.last30Days <= before.links.allTime
  {
    assert KeptInitial(h.initial, now) == h.initial;
    assert KeptStarted(h.started, now) == h.started;
    assert KeptCompleted(h.completed, now) == h.completed;
    SubsetSize(LinksSince(g, now - DAY), LinksSince(g, now - 7 * DAY));
    SubsetSize(LinksSince(g, now - 7 * DAY), LinksSince(g, now - 30 * DAY));
    SubsetSize(LinksSince(g, now - 30 * DAY), g.links.Keys);
  }

  lemma {:induction false} DistinctSize<T>(s: seq<T>)
    requires forall i, j | 0 <= i < j < |s| :: s[i] != s[j]
    ensures |set x | x in s| == |s|
  {
    if s == [] {
      assert (set x | x in s) == {};
    } else {
      DistinctSize(s[1..]);
      assert (set x | x in s) == {s[0]} + set x | x in s[1..];
    }
  }

  function IdSet(docs: seq<ObjectId>): set<ObjectId> {
    set id | id in docs
  }

  /** Without a batch limit, what is revoked is what had expired. */
  lemma BatchIsExpiredIff(g: Shared, now: int, docs: seq<ObjectId>)
    requires ReadsExpired(g, now, docs)
    ensures IdSet(docs) <= ExpiredCompleted(g, now)
    ensures IdSet(docs) == ExpiredCompleted(g, now) <==> |ExpiredCompleted(g, now)| <= 100
  {
    DistinctSize(docs);
    assert |IdSet(docs)| == |docs|;
    SubsetSize(IdSet(docs), ExpiredCompleted(g, now));
  }

  /**
   The batch whose tokens are revoked at `now` lies within what is deleted at `later`; the two are the same exactly
   when at most 100 sessions had expired and no expiry lies between the two clock reads.
   */
  lemma RevokedIsDeletedIff(g: Shared, now: int, later: int, docs: seq<ObjectId>)
    requires now <= later && ReadsExpired(g, now, docs)
    ensures KeptCompleted(g.completed, later).Keys == g.completed.Keys - ExpiredCompleted(g, later)
    ensures IdSet(docs) <= ExpiredCompleted(g, later)
    ensures IdSet(docs) == ExpiredCompleted(g, later) <==>
            && |ExpiredCompleted(g, now)| <= 100
            && forall id | id in g.completed :: !(now < g.completed[id].base.expiresAt <= later)
  {
    BatchIsExpiredIff(g, now, docs);
    var early, late := ExpiredCompleted(g, now), ExpiredCompleted(g, later);
    assert early <= late;
    if early != late {
      var id :| id in late && id !in early;
      assert now < g.completed[id].base.expiresAt <= later;
    } else {
      forall id | id in g.completed ensures !(now < g.completed[id].base.expiresAt <= later) {
        assert id in late ==> id in early;
      }
    }
  }

  class StorageModel {
    var initial: map<ObjectId, Session>
    var started: map<ObjectId, Started>
    var completed: map<ObjectId, Completed>
    var links: map<ObjectId, Link>
    const uniqueIndex: bool
    ghost var clock: int
    ghost var born: map<SessionId, Birth>
    ghost var sessionOf: map<ObjectId, SessionId>
    ghost var ended: map<SessionId, Ending>
    ghost var owner: map<Token, Username>
    ghost var revoked: set<Token>
    ghost var origin: map<ObjectId, Origin>

    constructor (uniqueIndex: bool, ghost now: int)
      ensures View() == Empty(uniqueIndex, now)
    {
      initial, started, completed, links := map[], map[], map[], map[];
      this.uniqueIndex, clock := uniqueIndex, now;
      born, sessionOf, ended, owner, revoked, origin := map[], map[], map[], map[], {}, map[];
    }

    ghost function View(): Shared
      reads this
    {
      Shared(initial, started, completed, links, uniqueIndex, clock, born, sessionOf, ended, owner, revoked, origin)
    }

    // ---- Finds -----------------------------------------------------------------------------

    method GetLinkingSessionInitial(sid: SessionId) returns (r: Option<ObjectId>)
      ensures FindsInitial(View(), sid, Found(r))
    {
      if id :| id in initial && initial[id].sessionId == sid { r := Some(id); } else { r := None; }
    }

    method GetLinkingSessionStarted(sid: SessionId) returns (r: Option<ObjectId>)
      ensures FindsStarted(View(), sid, Found(r))
    {
      if id :| id in started && started[id].base.sessionId == sid { r := Some(id); } else { r := None; }
    }

    method GetLinkingSessionCompleted(sid: SessionId) returns (r: Option<ObjectId>)
      ensures FindsCompleted(View(), sid, Found(r))
    {
      if id :| id in completed && completed[id].base.sessionId == sid { r := Some(id); } else { r := None; }
    }

    method GetLinkRecord(key: LinkKey) returns (r: Option<ObjectId>)
      ensures FindsLink(View(), key, Found(r))
    {
      if id :| id in links && HasKey(links[id], key) { r := Some(id); } else { r := None; }
    }

    /** At most 100 of the completed sessions that have expired. */
    method GetExpiredCompletedSessions(cutoff: int) returns (docs: seq<ObjectId>)
      ensures ReadsExpired(View(), cutoff, docs)
      ensures forall i | 0 <= i < |docs| :: docs[i] in completed && completed[docs[i]].base.expiresAt <= cutoff
      ensures forall i, j | 0 <= i < j < |docs| :: docs[i] != docs[j]
      ensures |docs| <= 100
      ensures |docs| < 100 ==> forall id | id in completed && completed[id].base.expiresAt <= cutoff :: id in docs
    {
      var expired := set id | id in completed && completed[id].base.expiresAt <= cutoff;
      var rest := expired;
      docs := [];
      while rest != {} && |docs| < BATCH_LIMIT
        invariant rest <= expired
        invariant |docs| <= BATCH_LIMIT && |docs| + |rest| == |expired|
        invariant forall i | 0 <= i < |docs| :: docs[i] in expired && docs[i] !in rest
        invariant forall id | id in expired :: id in docs || id in rest
        invariant forall i, j | 0 <= i < j < |docs| :: docs[i] != docs[j]
        decreases rest
      {
        var id :| id in rest;
        docs, rest := docs + [id], rest - {id};
      }
      assert rest != {} ==> |rest| > 0;
      assert expired == ExpiredCompleted(View(), cutoff);
    }

    // ---- create_linking_session ------------------------------------------------------------

    method CreateLinkingSession(cfg: Config, username: Username, caller: Username, now: int, sid: SessionId,
                                oid: ObjectId)
      returns (r: Result<SessionId, Error>, ghost replies: seq<Reply>)
      requires clock <= now && sid !in born && oid !in sessionOf && oid !in initial
      modifies this
      ensures Performs(cfg, old(View()), Create(CreateCheck(username, caller)), replies, View())
      ensures r == Err(NotAuthorized) <==> username != caller
      ensures r == Err(AlreadyLinked) <==> username == caller && UsernameTaken(old(View()), username)
      ensures r.Ok? <==> username == caller && !UsernameTaken(old(View()), username)
      ensures r.Ok? ==> r.value == sid
      ensures r.Ok? ==>
                initial == old(initial)[oid := Session(sid, username, now, now + cfg.sessionLifetime * 1000)]
      ensures r.Err? ==> View() == old(View())
    {
      ghost var g := View();
      if username != caller {
        ghost var nobody := GetLinkRecord(ByUsername(username));
        replies := Last(cfg, Moment(g, Create(CreateCheck(username, caller))), Found(nobody));
        return Err(NotAuthorized), replies;
      }
      var existing := GetLinkRecord(ByUsername(username));
      if existing.Some? {
        replies := Last(cfg, Moment(g, Create(CreateCheck(username, caller))), Found(existing));
        return Err(AlreadyLinked), replies;
      }
      var session := NewBase(cfg, sid, username, now);
      initial := initial[oid := session];
      clock, born, sessionOf := now, born[sid := Birth(oid, session)], sessionOf[oid := sid];
      replies := CreatePath(cfg, g, username, now, sid, oid);
      r := Ok(sid);
    }

    // ---- start_linking_session -------------------------------------------------------------

    /** update_linking_session_to_started */
    method UpdateLinkingSessionToStarted(sid: SessionId, options: StartOptions) returns (r: Result<ObjectId, Error>)
      modifies this`initial, this`started
      ensures r.Ok? ==> r.value in old(initial) && old(initial)[r.value].sessionId == sid && r.value !in old(started)
      ensures r.Ok? ==> initial == old(initial) - {r.value}
      ensures r.Ok? ==> started == old(started)[r.value := Started(old(initial)[r.value], options)]
      ensures r.Err? ==> View() == old(View())
      ensures r.Err? && r.error.NotFound? ==> FindsInitial(old(View()), sid, Found(None))
      ensures r.Err? && !r.error.NotFound? ==>
                r.error == DuplicateKey && exists id :: id in initial && initial[id].sessionId == sid && id in started
    {
      var found := GetLinkingSessionInitial(sid);
      if found.None? { return Err(NotFound); }
      var id := found.value;
      var updated := Started(initial[id], options);
      if id in started { return Err(DuplicateKey); }
      started := started[id := updated];
      initial := initial - {id};
      r := Ok(id);
    }

    method StartLinkingSession(cfg: Config, sid: SessionId, caller: Username, options: StartOptions)
      returns (r: Result<(), Error>, ghost replies: seq<Reply>)
      modifies this`initial, this`started
      ensures Performs(cfg, old(View()), Start(StartCheck(sid, caller, options)), replies, View())
      ensures r == Err(NotFound) <==> forall id | id in old(initial) :: old(initial)[id].sessionId != sid
      ensures r == Err(NotAuthorized) ==>
                exists id :: id in initial && initial[id].sessionId == sid && initial[id].username != caller
      ensures r.Ok? ==> exists id :: id in old(initial) && old(initial)[id].sessionId == sid &&
                                     old(initial)[id].username == caller
      ensures r.Ok? ==>
                exists id :: id in old(initial) && old(initial)[id].sessionId == sid &&
                  if id in old(started) then initial == old(initial) && started == old(started)
                  else initial == old(initial) - {id} &&
                       started == old(started)[id := Started(old(initial)[id], options)]
      ensures r.Err? ==> View() == old(View())
    {
      ghost var g := View();
      var check := GetLinkingSessionInitial(sid);
      if check.None? || initial[check.value].username != caller {
        replies := Last(cfg, Moment(g, Start(StartCheck(sid, caller, options))), Found(check));
        return Err(if check.None? then NotFound else NotAuthorized), replies;
      }
      // Whatever the update raises is logged and dropped; the browser is redirected to ORCID all the same.
      var _ := UpdateLinkingSessionToStarted(sid, options);
      ghost var id :| id in g.initial && g.initial[id].sessionId == sid && View() == StartOutcome(g, options, id);
      replies := StartPath(cfg, g, sid, options, id);
      replies := Before(cfg, Moment(g, Start(StartCheck(sid, caller, options))), Found(check),
                        Moment(g, Start(StartFind(sid, options))), replies);
      r := Ok(());
    }

    // ---- linking_sessions_continue ---------------------------------------------------------

    /** update_linking_session_to_finished */
    method UpdateLinkingSessionToFinished(sid: SessionId, auth: OrcidAuth) returns (r: Result<ObjectId, Error>)
      modifies this`started, this`completed
      ensures r.Ok? ==> r.value in old(started) && old(started)[r.value].base.sessionId == sid
      ensures r.Ok? ==> MovesToCompleted(old(View()), View(), sid, auth, r.value)
      ensures r.Err? ==> View() == old(View())
      ensures r.Err? && r.error.NotFound? ==> FindsStarted(old(View()), sid, Found(None))
      ensures r.Err? && !r.error.NotFound? ==>
                && r.error == DuplicateKey
                && exists id :: id in started && started[id].base.sessionId == sid && id in completed
    {
      var found := GetLinkingSessionStarted(sid);
      if found.None? { return Err(NotFound); }
      var id := found.value;
      var updated := Completed(started[id].base, started[id].options, auth);
      if id in completed { return Err(DuplicateKey); }
      completed := completed[id := updated];
      started := started - {id};
      r := Ok(id);
    }

    /** The session is not valid to use any more: delete_linking_session_started. */
    method RejectSession(cfg: Config, sid: SessionId) returns (ghost replies: seq<Reply>)
      modifies this`started, this`ended
      ensures Performs(cfg, old(View()), Continue(ContinueReject(sid)), replies, View())
      ensures DeletesStarted(old(View()), View(), sid)
    {
      ghost var g := View();
      var doomed := GetLinkingSessionStarted(sid);
      if doomed.Some? {
        started, ended := started - {doomed.value}, ended[sid := Rejected];
      }
      replies := Last(cfg, Moment(g, Continue(ContinueReject(sid))), Found(doomed));
    }

    method StoreTokens(cfg: Config, sid: SessionId, auth: OrcidAuth)
      returns (r: Result<(), Error>, ghost replies: seq<Reply>)
      modifies this`started, this`completed
      ensures Performs(cfg, old(View()), Continue(ContinueFind(sid, auth)), replies, View())
      ensures r.Ok? ==> exists id :: MovesToCompleted(old(View()), View(), sid, auth, id)
      ensures r.Err? ==> View() == old(View()) && (r.error == DuplicateKey || r.error == NotFound)
      ensures r == Err(DuplicateKey) ==> InBoth(old(View()), sid)
      ensures r == Err(NotFound) ==> forall id | id in old(started) :: old(started)[id].base.sessionId != sid
    {
      ghost var g := View();
      var finished := UpdateLinkingSessionToFinished(sid, auth);
      if finished.Err? && finished.error.NotFound? {
        replies := Last(cfg, Moment(g, Continue(ContinueFind(sid, auth))), Found(None));
        return Err(NotFound), replies;
      }
      ghost var id :| id in g.started && g.started[id].base.sessionId == sid && View() == ContinueOutcome(g, auth, id);
      replies := ContinuePath(cfg, g, sid, auth, id);
      r := if finished.Ok? then Ok(()) else Err(finished.error);
    }

    /** What continue does with the tokens: reject a linked ORCID id, or keep them in the session. */
    method KeepTokens(cfg: Config, sid: SessionId, auth: OrcidAuth)
      returns (r: Result<(), Error>, ghost replies: seq<Reply>)
      modifies this`started, this`completed, this`ended
      ensures Performs(cfg, old(View()), Continue(ContinueLookup(sid, auth)), replies, View())
      ensures r.Ok? ==> exists id :: MovesToCompleted(old(View()), View(), sid, auth, id)
      ensures r == Err(AlreadyLinked) <==> exists l :: l in links && links[l].auth.orcid == auth.orcid
      ensures r.Err? ==> r.error == AlreadyLinked || r.error == DuplicateKey || r.error == NotFound
      ensures r.Err? && r.error != AlreadyLinked ==> View() == old(View())
      ensures r == Err(DuplicateKey) ==> InBoth(old(View()), sid)
      ensures r == Err(AlreadyLinked) ==> completed == old(completed) && DeletesStarted(old(View()), View(), sid)
      ensures r == Err(NotFound) ==> forall id | id in old(started) :: old(started)[id].base.sessionId != sid
    {
      ghost var g := View();
      var existing := GetLinkRecord(ByOrcid(auth.orcid));
      if existing.Some? {
        assert HasKey(links[existing.value], ByOrcid(auth.orcid));
        replies := RejectSession(cfg, sid);
        replies := Before(cfg, Moment(g, Continue(ContinueLookup(sid, auth))), Found(existing),
                          Moment(g, Continue(ContinueReject(sid))), replies);
        r := Err(AlreadyLinked);
      } else {
        assert forall l | l in links :: !HasKey(links[l], ByOrcid(auth.orcid));
        r, replies := StoreTokens(cfg, sid, auth);
        replies := Before(cfg, Moment(g, Continue(ContinueLookup(sid, auth))), Found(existing),
                          Moment(g, Continue(ContinueFind(sid, auth))), replies);
      }
    }

    /** The code exchange that ORCID granted, and what continue does with it. */
    method ExchangeCode(cfg: Config, sid: SessionId, caller: Username, check: ObjectId, auth: OrcidAuth)
      returns (r: Result<(), Error>, ghost replies: seq<Reply>)
      requires check in started && started[check].base.sessionId == sid && started[check].base.username == caller
      requires auth.accessToken !in owner
      modifies this`started, this`completed, this`ended, this`owner
      ensures Performs(cfg, old(View()), Continue(ContinueCheck(sid, caller)), replies, View())
      ensures r.Ok? ==> exists id :: MovesToCompleted(old(View()), View(), sid, auth, id)
      ensures r.Err? ==> r.error == AlreadyLinked || r.error == DuplicateKey
      ensures r == Err(DuplicateKey) ==> InBoth(old(View()), sid)
      ensures r == Err(DuplicateKey) ==> started == old(started) && completed == old(completed)
      ensures r == Err(AlreadyLinked) <==> exists l :: l in links && links[l].auth.orcid == auth.orcid
      ensures r == Err(AlreadyLinked) ==> completed == old(completed) && DeletesStarted(old(View()), View(), sid)
      ensures owner == old(owner)[auth.accessToken := caller]
    {
      ghost var g := View();
      owner := owner[auth.accessToken := caller];
      ghost var h := View();
      assert h == Granting(g, auth, caller);
      r, replies := KeepTokens(cfg, sid, auth);
      if r.Ok? {
        ghost var id :| MovesToCompleted(h, View(), sid, auth, id);
        assert MovesToCompleted(g, View(), sid, auth, id);
      }
      replies := ExchangePath(cfg, g, sid, caller, auth, check, replies, View());
    }

    method LinkingSessionsContinue(cfg: Config, sid: SessionId, caller: Username, granted: Option<OrcidAuth>)
      returns (r: Result<StartOptions, Error>, ghost replies: seq<Reply>)
      requires granted.Some? ==> granted.value.accessToken !in owner
      modifies this
      ensures Performs(cfg, old(View()), Continue(ContinueCheck(sid, caller)), replies, View())
      ensures r == Err(NotFound) <==> forall id | id in old(started) :: old(started)[id].base.sessionId != sid
      ensures r == Err(NotAuthorized) ==>
                exists id :: id in started && started[id].base.sessionId == sid && started[id].base.username != caller
      ensures r == Err(UpstreamError) ==> granted.None?
      ensures granted.None? ==> r.Err? && View() == old(View())
      ensures r.Err? && r.error in {NotFound, NotAuthorized, UpstreamError} ==> View() == old(View())
      ensures granted.Some? && (r.Ok? || r == Err(AlreadyLinked) || r == Err(DuplicateKey)) ==>
                owner == old(owner)[granted.value.accessToken := caller]
      // The answer is the caller's session's options.
      ensures r.Ok? ==>
                exists id :: id in old(started) && old(started)[id].base.sessionId == sid &&
                             old(started)[id].base.username == caller && r.value == old(started)[id].options
      // The session moves with ORCID's grant.
      ensures r.Ok? ==> exists id :: MovesToCompleted(old(View()), View(), sid, granted.value, id)
      // The two are one document where session ids are unique, as they are in every interleaving.
      ensures r.Ok? && OneStarted(old(View()), sid) ==>
                exists id :: id in old(started) && old(started)[id].base.sessionId == sid &&
                  old(started)[id].base.username == caller && r.value == old(started)[id].options &&
                  id in completed && completed[id].base == old(started)[id].base &&
                  completed[id].options == old(started)[id].options && completed[id].auth == granted.value
      ensures r == Err(AlreadyLinked) ==>
                && (exists l :: granted.Some? && l in links && links[l].auth.orcid == granted.value.orcid)
                && completed == old(completed) && DeletesStarted(old(View()), View(), sid)
      ensures r == Err(DuplicateKey) ==> InBoth(old(View()), sid)
      ensures r == Err(DuplicateKey) ==> started == old(started) && completed == old(completed)
      ensures granted.Some? && (r.Ok? || r == Err(DuplicateKey)) ==>
                forall l | l in links :: links[l].auth.orcid != granted.value.orcid
      ensures links == old(links) && initial == old(initial)
    {
      ghost var g := View();
      ghost var pc := Continue(ContinueCheck(sid, caller));
      var check := GetLinkingSessionStarted(sid);
      if check.None? || started[check.value].base.username != caller {
        replies := Last(cfg, Moment(g, pc), Found(check));
        return Err(if check.None? then NotFound else NotAuthorized), replies;
      }
      var session := started[check.value];
      if granted.None? {
        replies := Last(cfg, Moment(g, Continue(ContinueExchange(sid, caller))), Granted(None));
        replies := Before(cfg, Moment(g, pc), Found(check), Moment(g, Continue(ContinueExchange(sid, caller))),
                          replies);
        return Err(UpstreamError), replies;
      }
      var kept;
      kept, replies := ExchangeCode(cfg, sid, caller, check.value, granted.value);
      r := if kept.Ok? then Ok(session.options) else Err(kept.error);
    }

    // ---- finish_linking_session ------------------------------------------------------------

    /** create_link_record; the unique index refuses a second link of a user. */
    method CreateLinkRecord(link: Link, oid: ObjectId, ghost from: Origin) returns (ok: bool)
      requires oid !in links
      modifies this`links, this`origin
      ensures ok <==> !(uniqueIndex && UsernameTaken(old(View()), link.username))
      ensures ok ==> links == old(links)[oid := link] && origin == old(origin)[oid := from]
      ensures !ok ==> View() == old(View())
    {
      if id :| id in links && links[id].username == link.username {
        if uniqueIndex { return false; }
      }
      links := links[oid := link];
      origin := origin[oid := from];
      ok := true;
    }

    method DeleteFinished(cfg: Config, sid: SessionId, oid: ObjectId) returns (ghost replies: seq<Reply>)
      modifies this`completed, this`ended
      ensures Performs(cfg, old(View()), Finish(FinishDelete(sid, oid)), replies, View())
      ensures DeletesCompleted(old(View()), View(), sid)
    {
      ghost var g := View();
      var doomed := GetLinkingSessionCompleted(sid);
      if doomed.Some? {
        completed, ended := completed - {doomed.value}, ended[sid := Finished(oid)];
      }
      replies := Last(cfg, Moment(g, Finish(FinishDelete(sid, oid))), Found(doomed));
    }

    /** What finish does with a link record: store it, then delete the session. */
    method StoreLink(cfg: Config, sid: SessionId, caller: Username, link: Link, oid: ObjectId)
      returns (r: Result<(), Error>, ghost replies: seq<Reply>)
      requires oid !in origin && oid !in links
      modifies this`links, this`origin, this`completed, this`ended
      ensures Performs(cfg, old(View()), Finish(FinishInsert(sid, caller, link)), replies, View())
      ensures r.Ok? <==> !(uniqueIndex && UsernameTaken(old(View()), link.username))
      ensures r.Ok? ==> links == old(links)[oid := link] && origin == old(origin)[oid := Origin(sid, caller)]
      ensures r.Ok? ==> DeletesCompleted(old(View()), View(), sid)
      ensures r.Err? ==> r.error == DuplicateKey && View() == old(View())
    {
      ghost var g := View();
      var created := CreateLinkRecord(link, oid, Origin(sid, caller));
      if !created {
        replies := Last(cfg, Moment(g, Finish(FinishInsert(sid, caller, link))), NewLink(oid));
        return Err(DuplicateKey), replies;
      }
      ghost var h := View();
      assert h == g.(links := g.links[oid := link], origin := g.origin[oid := Origin(sid, caller)]);
      replies := DeleteFinished(cfg, sid, oid);
      replies := Before(cfg, Moment(g, Finish(FinishInsert(sid, caller, link))), NewLink(oid),
                        Moment(h, Finish(FinishDelete(sid, oid))), replies);
      r := Ok(());
    }

    /** Finish for the session it has read. */
    method LinkSession(cfg: Config, sid: SessionId, caller: Username, at: ObjectId, now: int, oid: ObjectId)
      returns (r: Result<(), Error>, ghost replies: seq<Reply>)
      requires at in completed && completed[at].base.sessionId == sid && completed[at].base.username == caller
      requires clock <= now && oid !in origin && oid !in links
      modifies this`links, this`origin, this`completed, this`ended, this`clock
      ensures Performs(cfg, old(View()), Finish(FinishCheck(sid, caller)), replies, View())
      ensures r.Ok? ==>
                links == old(links)[oid := Link(caller, now, now + old(completed)[at].auth.expiresIn * 1000,
                                                now + cfg.retirementAge * 1000, old(completed)[at].auth)]
      ensures r.Ok? ==> DeletesCompleted(old(View()), View(), sid) && origin == old(origin)[oid := Origin(sid, caller)]
      ensures r.Ok? <==> !(uniqueIndex && UsernameTaken(old(View()), caller))
      ensures r.Err? ==> r.error == DuplicateKey && links == old(links) && completed == old(completed)
    {
      ghost var g := View();
      var link := NewLinkRecord(cfg, completed[at], now);
      clock := now;
      ghost var h := View();
      assert h == g.(clock := now);
      r, replies := StoreLink(cfg, sid, caller, link, oid);
      replies := FinishPath(cfg, g, sid, caller, at, now, oid, replies, View());
    }

    method FinishLinkingSession(cfg: Config, sid: SessionId, caller: Username, now: int, oid: ObjectId)
      returns (r: Result<(), Error>, ghost replies: seq<Reply>)
      requires clock <= now && oid !in origin && oid !in links
      modifies this
      ensures Performs(cfg, old(View()), Finish(FinishCheck(sid, caller)), replies, View())
      ensures r.Ok? ==>
                exists id :: id in old(completed) && old(completed)[id].base.sessionId == sid &&
                  old(completed)[id].base.username == caller &&
                  links == old(links)[oid := Link(caller, now, now + old(completed)[id].auth.expiresIn * 1000,
                                                  now + cfg.retirementAge * 1000, old(completed)[id].auth)]
      ensures r.Ok? ==>
                exists id :: id in old(completed) && old(completed)[id].base.sessionId == sid &&
                             completed == old(completed) - {id}
      ensures r.Ok? ==> origin == old(origin)[oid := Origin(sid, caller)]
      ensures initial == old(initial) && started == old(started) && revoked == old(revoked)
      ensures r == Err(NotFound) <==> forall id | id in old(completed) :: old(completed)[id].base.sessionId != sid
      ensures r == Err(NotAuthorized) ==>
                exists id ::
                  id in completed && completed[id].base.sessionId == sid && completed[id].base.username != caller
      ensures r == Err(DuplicateKey) ==> uniqueIndex && UsernameTaken(View(), caller)
      ensures r.Err? ==> links == old(links) && completed == old(completed)
    {
      ghost var g := View();
      var check := GetLinkingSessionCompleted(sid);
      if check.None? || completed[check.value].base.username != caller {
        replies := Last(cfg, Moment(g, Finish(FinishCheck(sid, caller))), Found(check));
        return Err(if check.None? then NotFound else NotAuthorized), replies;
      }
      r, replies := LinkSession(cfg, sid, caller, check.value, now, oid);
    }

    // ---- delete_linking_session ------------------------------------------------------------

    method DeleteLinkingSession(cfg: Config, sid: SessionId, caller: Username, revokes: bool)
      returns (r: Result<(), Error>, ghost replies: seq<Reply>)
      modifies this`completed, this`ended, this`revoked
      ensures Performs(cfg, old(View()), Drop(DropCheck(sid, caller)), replies, View())
      ensures r == Err(NotFound) <==> forall id | id in old(completed) :: old(completed)[id].base.sessionId != sid
      ensures r == Err(NotAuthorized) ==>
                exists id :: id in completed && completed[id].base.sessionId == sid &&
                             completed[id].base.username != caller
      ensures (r.Ok? ==> revokes) && (r == Err(UpstreamError) ==> !revokes)
      ensures r.Ok? || r == Err(UpstreamError) ==>
                exists id :: id in old(completed) && old(completed)[id].base.sessionId == sid &&
                  old(completed)[id].base.username == caller && completed == old(completed) - {id} &&
                  revoked == if revokes then old(revoked) + {old(completed)[id].auth.accessToken} else old(revoked)
      ensures r.Err? && r != Err(UpstreamError) ==> View() == old(View())
    {
      ghost var g := View();
      ghost var pc := Drop(DropCheck(sid, caller));
      var check := GetLinkingSessionCompleted(sid);
      if check.None? || completed[check.value].base.username != caller {
        replies := Last(cfg, Moment(g, pc), Found(check));
        return Err(if check.None? then NotFound else NotAuthorized), replies;
      }
      var session := completed[check.value];
      completed, ended := completed - {check.value}, ended[sid := Deleted];
      ghost var h := View();
      assert h == g.(completed := g.completed - {check.value}, ended := g.ended[sid := Deleted]);
      if revokes { revoked := revoked + {session.auth.accessToken}; }
      replies := Last(cfg, Moment(h, Drop(DropRevoke(session.auth.accessToken))), Revoked(revokes));
      replies := Before(cfg, Moment(g, Drop(DropDelete(session))), Found(check),
                        Moment(h, Drop(DropRevoke(session.auth.accessToken))), replies);
      replies := Before(cfg, Moment(g, pc), Found(check), Moment(g, Drop(DropDelete(session))), replies);
      r := if revokes then Ok(()) else Err(UpstreamError);
    }

    // ---- delete_linking_session_{initial,started,completed}, by a manager ------------------

    method DeleteLinkingSessionInitial(cfg: Config, sid: SessionId) returns (ghost replies: seq<Reply>)
      modifies this`initial, this`ended
      ensures Performs(cfg, old(View()), Manage(DropInitial(sid)), replies, View())
      ensures DeletesInitial(old(View()), View(), sid)
    {
      ghost var g := View();
      var doomed := GetLinkingSessionInitial(sid);
      if doomed.Some? {
        initial, ended := initial - {doomed.value}, ended[sid := Deleted];
      }
      replies := Last(cfg, Moment(g, Manage(DropInitial(sid))), Found(doomed));
    }

    method DeleteLinkingSessionStarted(cfg: Config, sid: SessionId) returns (ghost replies: seq<Reply>)
      modifies this`started, this`ended
      ensures Performs(cfg, old(View()), Manage(DropStarted(sid)), replies, View())
      ensures DeletesStarted(old(View()), View(), sid)
    {
      ghost var g := View();
      var doomed := GetLinkingSessionStarted(sid);
      if doomed.Some? {
        started, ended := started - {doomed.value}, ended[sid := Deleted];
      }
      replies := Last(cfg, Moment(g, Manage(DropStarted(sid))), Found(doomed));
    }

    method DeleteLinkingSessionCompleted(cfg: Config, sid: SessionId) returns (ghost replies: seq<Reply>)
      modifies this`completed, this`ended
      ensures Performs(cfg, old(View()), Manage(DropCompleted(sid)), replies, View())
      ensures DeletesCompleted(old(View()), View(), sid)
    {
      ghost var g := View();
      var doomed := GetLinkingSessionCompleted(sid);
      if doomed.Some? {
        completed, ended := completed - {doomed.value}, ended[sid := Deleted];
      }
      replies := Last(cfg, Moment(g, Manage(DropCompleted(sid))), Found(doomed));
    }

    // ---- delete_own_link, delete_link ------------------------------------------------------

    /** Revoke, then delete: both callers' common part, with the owner check when there is an owner. */
    method DeleteLink(cfg: Config, username: Username, asOwner: Option<Username>, revokes: bool)
      returns (r: Result<(), Error>, ghost replies: seq<Reply>)
      modifies this`links, this`revoked
      ensures Performs(cfg, old(View()), Unlink(UnlinkCheck(username, asOwner)), replies, View())
      ensures r.Ok? <==>
              UsernameTaken(old(View()), username) && (asOwner.Some? ==> asOwner.value == username) && revokes
      ensures r == Err(NotFound) <==> !UsernameTaken(old(View()), username)
      ensures r.Ok? ==> exists id :: id in old(links) && old(links)[id].username == username &&
                          links == old(links) - {id} && revoked == old(revoked) + {old(links)[id].auth.accessToken}
      ensures r.Err? ==> View() == old(View())
    {
      ghost var g := View();
      ghost var pc := Unlink(UnlinkCheck(username, asOwner));
      var found := GetLinkRecord(ByUsername(username));
      if found.None? || (asOwner.Some? && links[found.value].username != asOwner.value) {
        replies := Last(cfg, Moment(g, pc), Found(found));
        return Err(if found.None? then NotFound else NotAuthorized), replies;
      }
      var link := links[found.value];
      ghost var check := Moment(g, Unlink(UnlinkRevoke(link)));
      if !revokes {
        replies := Last(cfg, check, Revoked(false));
        replies := Before(cfg, Moment(g, pc), Found(found), check, replies);
        return Err(UpstreamError), replies;
      }
      revoked := revoked + {link.auth.accessToken};
      ghost var h := View();
      links := links - {found.value};
      replies := Last(cfg, Moment(h, Unlink(UnlinkDelete(username))), Found(found));
      replies := Before(cfg, check, Revoked(true), Moment(h, Unlink(UnlinkDelete(username))), replies);
      replies := Before(cfg, Moment(g, pc), Found(found), check, replies);
      r := Ok(());
    }

    /** delete_link, which only a manager may call */
    method DeleteLinkAsManager(cfg: Config, username: Username, isManager: bool, revokes: bool)
      returns (r: Result<(), Error>, ghost replies: seq<Reply>)
      modifies this`links, this`revoked
      ensures !isManager ==> r == Err(NotAuthorized) && View() == old(View())
      ensures isManager ==> Performs(cfg, old(View()), Unlink(UnlinkCheck(username, None)), replies, View())
      ensures r.Ok? ==> exists id :: id in old(links) && old(links)[id].username == username &&
                          links == old(links) - {id} && revoked == old(revoked) + {old(links)[id].auth.accessToken}
      ensures r.Err? ==> View() == old(View())
    {
      if !isManager { return Err(NotAuthorized), []; }
      r, replies := DeleteLink(cfg, username, None, revokes);
    }

    // ---- delete_expired_linking_sessions ---------------------------------------------------

    /** Revokes the tokens in order, up to the first refusal. */
    method RevokeBatch(queue: seq<Completed>, revokes: nat -> bool) returns (n: nat)
      modifies this`revoked
      ensures n <= |queue| && (n < |queue| ==> !revokes(n)) && forall i | 0 <= i < n :: revokes(i)
      ensures View() == Revoking(old(View()), queue[..n])
    {
      n := 0;
      while n < |queue|
        invariant n <= |queue| && forall i | 0 <= i < n :: revokes(i)
        invariant revoked == old(revoked) + TokensOf(queue[..n])
      {
        if !revokes(n) { return; }
        revoked := revoked + {queue[n].auth.accessToken};
        assert TokensOf(queue[..n + 1]) == TokensOf(queue[..n]) + {queue[n].auth.accessToken};
        n := n + 1;
      }
    }

    method DeleteExpiredSessions(now: int)
      modifies this`initial, this`started, this`completed, this`ended, this`clock
      ensures View() == Sweeping(old(View()), now)
      ensures forall id :: id in initial <==> id in old(initial) && now < old(initial)[id].expiresAt
      ensures forall id :: id in started <==> id in old(started) && now < old(started)[id].base.expiresAt
      ensures forall id :: id in completed <==> id in old(completed) && now < old(completed)[id].base.expiresAt
      ensures forall id | id in initial :: initial[id] == old(initial)[id]
      ensures forall id | id in started :: started[id] == old(started)[id]
      ensures forall id | id in completed :: completed[id] == old(completed)[id]
      ensures links == old(links) && revoked == old(revoked)
    {
      clock := now;
      ended := ExpiredIds(ExpiredIds(ExpiredIds(ended, GoneInitial(initial, now)), GoneStarted(started, now)),
                          GoneCompleted(completed, now));
      initial := KeptInitial(initial, now);
      started := KeptStarted(started, now);
      completed := KeptCompleted(completed, now);
    }

    /** A cleanup once it has read its batch. */
    method RevokeAndDelete(cfg: Config, cutoff: int, queue: seq<Completed>, revokes: nat -> bool, now: int)
      returns (n: nat, ghost replies: seq<Reply>)
      requires clock <= now
      modifies this
      ensures Performs(cfg, old(View()), Cleanup(CleanupRevoke(cutoff, queue, false)), replies, View())
      ensures n <= |queue| && (n < |queue| ==> !revokes(n)) && forall i | 0 <= i < n :: revokes(i)
      ensures revoked == old(revoked) + TokensOf(queue[..n])
      ensures n == |queue| ==> KeepsActive(old(View()), View(), now)
      ensures n < |queue| ==> initial == old(initial) && started == old(started) && completed == old(completed)
    {
      ghost var g := View();
      n := RevokeBatch(queue, revokes);
      ghost var h := View();
      if n < |queue| {
        replies := Last(cfg, Moment(h, Cleanup(CleanupRevoke(cutoff, queue[n..], false || n > 0))), Revoked(false));
      } else {
        DeleteExpiredSessions(now);
        assert queue[n..] == [] && queue[..n] == queue;
        replies := SweepPath(cfg, h, cutoff, now);
      }
      replies := RevokePath(cfg, g, cutoff, queue, false, n, replies, View());
    }

    /** Tells which sessions' tokens were read to be revoked, and how many of them were. */
    method DeleteExpiredLinkingSessions(cfg: Config, now: int, revokes: nat -> bool, later: int)
      returns (r: Result<(), Error>, docs: seq<ObjectId>, n: nat, ghost replies: seq<Reply>)
      requires clock <= now <= later
      modifies this
      ensures Performs(cfg, old(View()), Cleanup(CleanupStamp), replies, View())
      ensures ReadsExpired(old(View()), now, docs) && n <= |docs|
      ensures r.Ok? <==> forall i | 0 <= i < |docs| :: revokes(i)
      ensures n < |docs| ==> !revokes(n)
      ensures forall i | 0 <= i < n :: revokes(i)
      ensures revoked == old(revoked) + TokensOf(ReadDocs(old(View()), docs)[..n])
      ensures r.Ok? ==> n == |docs| && KeepsActive(old(View()), View(), later)
      ensures r.Err? ==> initial == old(initial) && started == old(started) && completed == old(completed)
    {
      ghost var g := View();
      clock := now;
      docs := GetExpiredCompletedSessions(now);
      assert ReadsExpired(g, now, docs);
      var sessions := completed;
      var queue := seq(|docs|, i requires 0 <= i < |docs| => sessions[docs[i]]);
      assert queue == ReadDocs(g, docs);
      n, replies := RevokeAndDelete(cfg, now, queue, revokes, later);
      replies := BatchPath(cfg, g, now, docs, replies, View());
      r := if n == |docs| then Ok(()) else Err(UpstreamError);
    }

    // ---- get_stats -------------------------------------------------------------------------

    method CountLinks(now: int) returns (stats: LinkStats)
      ensures stats.last24Hours == |LinksSince(View(), now - DAY)|
      ensures stats.last7Days == |LinksSince(View(), now - 7 * DAY)|
      ensures stats.last30Days == |LinksSince(View(), now - 30 * DAY)|
      ensures stats.allTime == |links|
    {
      var day := 24 * 60 * 60 * 1000;
      var last1 := set id | id in links && links[id].createdAt >= now - day;
      var last7 := set id | id in links && links[id].createdAt >= now - 7 * day;
      var last30 := set id | id in links && links[id].createdAt >= now - 30 * day;
      assert last1 == LinksSince(View(), now - DAY);
      assert last7 == LinksSince(View(), now - 7 * DAY);
      assert last30 == LinksSince(View(), now - 30 * DAY);
      stats := LinkStats(|last1|, |last7|, |last30|, |links|);
    }

    method CountInitial(now: int) returns (stats: SessionStats)
      ensures stats.active == |KeptInitial(initial, now)| && stats.active + stats.expired == |initial|
    {
      var active := set id | id in initial && initial[id].expiresAt > now;
      var expired := set id | id in initial && initial[id].expiresAt <= now;
      assert active == KeptInitial(initial, now).Keys && active + expired == initial.Keys;
      stats := SessionStats(|active|, |expired|);
    }

    method CountStarted(now: int) returns (stats: SessionStats)
      ensures stats.active == |KeptStarted(started, now)| && stats.active + stats.expired == |started|
    {
      var active := set id | id in started && started[id].base.expiresAt > now;
      var expired := set id | id in started && started[id].base.expiresAt <= now;
      assert active == KeptStarted(started, now).Keys && active + expired == started.Keys;
      stats := SessionStats(|active|, |expired|);
    }

    method CountCompleted(now: int) returns (stats: SessionStats)
      ensures stats.active == |KeptCompleted(completed, now)| && stats.active + stats.expired == |completed|
    {
      var active := set id | id in completed && completed[id].base.expiresAt > now;
      var expired := set id | id in completed && completed[id].base.expiresAt <= now;
      assert active == KeptCompleted(completed, now).Keys && active + expired == completed.Keys;
      stats := SessionStats(|active|, |expired|);
    }

    method GetStats(now: int) returns (stats: Stats)
      ensures CountsAt(View(), now, stats)
    {
      var l := CountLinks(now);
      var i := CountInitial(now);
      var s := CountStarted(now);
      var c := CountCompleted(now);
      stats := Stats(l, i, s, c);
    }

    // ---- link_record_for_user, link_record_for_orcid_id, refresh_tokens --------------------

    /** save_link_record: an update of the user's link, which inserts nothing. */
    method SaveLinkRecord(link: Link) returns (id: Option<ObjectId>)
      modifies this`links
      ensures FindsLink(old(View()), ByUsername(link.username), Found(id))
      ensures links == if id.None? then old(links) else old(links)[id.value := link]
    {
      id := GetLinkRecord(ByUsername(link.username));
      if id.Some? { links := links[id.value := link]; }
    }

    /** A refresh that ORCID granted: the record with the new tokens, saved over the user's link. */
    method SaveRefreshed(cfg: Config, link: Link, retireFrom: Option<int>, auth: OrcidAuth, now: int)
      returns (updated: Link, ghost replies: seq<Reply>)
      requires clock <= now && UsernameTaken(View(), link.username)
      requires auth.accessToken !in owner && link.auth.accessToken in owner
      modifies this`links, this`owner, this`revoked, this`clock
      ensures Performs(cfg, old(View()), Refresh(RefreshCall(link, retireFrom)), replies, View())
      ensures updated.auth == auth && updated.username == link.username
      ensures updated.createdAt == now && updated.expiresAt == now + cfg.sessionLifetime * 1000
      ensures updated.retiresAt ==
              if retireFrom.Some? then retireFrom.value + cfg.retirementAge * 1000 else link.retiresAt
      ensures revoked == old(revoked) + {link.auth.accessToken}
      ensures SavesOver(old(View()), View(), updated)
    {
      ghost var g := View();
      updated := RefreshedLink(cfg, link, auth, retireFrom, now);
      var id := SaveLinkRecord(updated);
      assert id.Some? by {
        var same :| same in g.links && g.links[same].username == link.username;
        assert HasKey(g.links[same], ByUsername(link.username));
      }
      ghost var tokens := Regranting(g, link, auth);
      owner, revoked, clock := tokens.owner, tokens.revoked, now;
      replies := RefreshPath(cfg, g, link, retireFrom, auth, now, id);
    }

    /** refresh_token_for_link from its call to ORCID on, and the same part of refresh_tokens. */
    method RefreshLink(cfg: Config, link: Link, retireFrom: Option<int>, granted: Option<OrcidAuth>, now: int)
      returns (r: Result<Link, Error>, ghost replies: seq<Reply>)
      requires clock <= now && UsernameTaken(View(), link.username)
      requires granted.Some? ==> granted.value.accessToken !in owner && link.auth.accessToken in owner
      modifies this`links, this`owner, this`revoked, this`clock
      ensures Performs(cfg, old(View()), Refresh(RefreshCall(link, retireFrom)), replies, View())
      ensures r.Ok? <==> granted.Some?
      ensures r.Ok? ==> r.value.auth == granted.value && r.value.username == link.username
      ensures r.Ok? ==> r.value.createdAt == now && r.value.expiresAt == now + cfg.sessionLifetime * 1000
      ensures r.Ok? ==> r.value.retiresAt ==
                        if retireFrom.Some? then retireFrom.value + cfg.retirementAge * 1000 else link.retiresAt
      ensures r.Ok? ==> revoked == old(revoked) + {link.auth.accessToken}
      ensures r.Ok? ==> SavesOver(old(View()), View(), r.value)
      ensures r.Err? ==> r.error == UpstreamError && View() == old(View())
    {
      if granted.None? {
        replies := Last(cfg, Moment(View(), Refresh(RefreshCall(link, retireFrom))), Granted(None));
        return Err(UpstreamError), replies;
      }
      var updated;
      updated, replies := SaveRefreshed(cfg, link, retireFrom, granted.value, now);
      r := Ok(updated);
    }

    /** refresh_token_for_link */
    method RefreshTokenForLink(cfg: Config, link: Link, refreshFrom: int, granted: Option<OrcidAuth>, later: int)
      returns (r: Result<Link, Error>, ghost replies: seq<Reply>)
      requires clock <= refreshFrom <= later && UsernameTaken(View(), link.username)
      requires granted.Some? ==> granted.value.accessToken !in owner && link.auth.accessToken in owner
      modifies this`links, this`owner, this`revoked, this`clock
      ensures Performs(cfg, old(View()), Refresh(RefreshStamp(link)), replies, View())
      ensures r.Ok? ==> SavesOver(old(View()), View(), r.value)
      ensures r.Ok? <==> granted.Some?
      ensures r.Ok? ==> r.value.auth == granted.value && r.value.username == link.username
      ensures r.Ok? ==> r.value.createdAt == later && r.value.expiresAt == later + cfg.sessionLifetime * 1000
      ensures r.Ok? ==> r.value.retiresAt == refreshFrom + cfg.retirementAge * 1000
      ensures r.Ok? ==> revoked == old(revoked) + {link.auth.accessToken}
      ensures r.Err? ==> r.error == UpstreamError && links == old(links) && revoked == old(revoked)
    {
      ghost var g := View();
      clock := refreshFrom;
      ghost var h := View();
      assert h == g.(clock := refreshFrom) && UsernameTaken(h, link.username);
      r, replies := RefreshLink(cfg, link, Some(refreshFrom), granted, later);
      replies := Before(cfg, Moment(g, Refresh(RefreshStamp(link))), Tick(refreshFrom),
                        Moment(h, Refresh(RefreshCall(link, Some(refreshFrom)))), replies);
    }

    /** The retirement check of a record just read, and its refresh. */
    method UsableRecord(cfg: Config, at: ObjectId, now: int, refreshFrom: int, granted: Option<OrcidAuth>, later: int)
      returns (r: Result<Link, Error>, ghost replies: seq<Reply>)
      requires clock <= now <= refreshFrom <= later && at in links
      requires granted.Some? ==> granted.value.accessToken !in owner && links[at].auth.accessToken in owner
      modifies this`links, this`owner, this`revoked, this`clock
      ensures Performs(cfg, old(View()), Refresh(UseCheck(old(links)[at])), replies, View())
      ensures r.Ok? ==> SavesOver(old(View()), View(), r.value)
      ensures r.Err? <==> old(links)[at].retiresAt < now && granted.None?
      ensures r.Ok? ==> IsUsable(cfg, old(links)[at], now, refreshFrom, granted, later, r.value)
      ensures r.Ok? && cfg.retirementAge >= 0 ==> now <= r.value.retiresAt
      ensures old(links)[at].retiresAt >= now ==> links == old(links) && revoked == old(revoked)
      ensures r.Err? ==> r.error == UpstreamError && links == old(links)
    {
      ghost var g := View();
      var link := links[at];
      clock := now;
      ghost var h := View();
      assert h == g.(clock := now) && UsernameTaken(h, link.username);
      if link.retiresAt < now {
        r, replies := RefreshTokenForLink(cfg, link, refreshFrom, granted, later);
        replies := Before(cfg, Moment(g, Refresh(UseCheck(link))), Tick(now),
                          Moment(h, Refresh(RefreshStamp(link))), replies);
      } else {
        replies := Last(cfg, Moment(g, Refresh(UseCheck(link))), Tick(now));
        assert links == g.links[at := link];
        r := Ok(link);
      }
    }

    method LinkRecordFor(cfg: Config, key: LinkKey, now: int, refreshFrom: int, granted: Option<OrcidAuth>, later: int)
      returns (r: Result<Option<Link>, Error>, ghost replies: seq<Reply>)
      requires clock <= now <= refreshFrom <= later
      requires granted.Some? ==> granted.value.accessToken !in owner &&
                                 forall id | id in links :: links[id].auth.accessToken in owner
      modifies this`links, this`owner, this`revoked, this`clock
      ensures Performs(cfg, old(View()), Refresh(UseFind(key)), replies, View())
      ensures r == Ok(None) <==> forall id | id in old(links) :: !HasKey(old(links)[id], key)
      ensures r.Ok? && r.value.Some? ==> exists id :: id in links && links[id] == r.value.value
      ensures r.Ok? && r.value.Some? ==>
                exists id :: id in old(links) && HasKey(old(links)[id], key) &&
                             IsUsable(cfg, old(links)[id], now, refreshFrom, granted, later, r.value.value)
      ensures r.Ok? && r.value.Some? && key.ByUsername? ==> r.value.value.username == key.username
      ensures r.Ok? && r.value.Some? && key.ByOrcid? ==>
                exists id :: id in old(links) && old(links)[id].auth.orcid == key.orcid &&
                             r.value.value.username == old(links)[id].username
      ensures r.Ok? && granted.None? ==> links == old(links)
      ensures r.Ok? && r.value.Some? && cfg.retirementAge >= 0 ==> now <= r.value.value.retiresAt
      ensures links.Keys == old(links).Keys
      ensures forall id | id in links :: links[id].username == old(links)[id].username
      ensures r.Err? ==> granted.None? && links == old(links)
    {
      ghost var g := View();
      var found := GetLinkRecord(key);
      if found.None? {
        replies := Last(cfg, Moment(g, Refresh(UseFind(key))), Found(None));
        return Ok(None), replies;
      }
      var link := links[found.value];
      assert HasKey(link, key);
      var usable;
      usable, replies := UsableRecord(cfg, found.value, now, refreshFrom, granted, later);
      replies := Before(cfg, Moment(g, Refresh(UseFind(key))), Found(found),
                        Moment(g, Refresh(UseCheck(link))), replies);
      if usable.Ok? {
        SavedOver(g, View(), usable.value);
        r := Ok(Some(usable.value));
      } else {
        r := Err(usable.error);
      }
    }

    /** refresh_tokens, by a manager */
    method RefreshTokens(cfg: Config, username: Username, granted: Option<OrcidAuth>, now: int)
      returns (r: Result<Link, Error>, ghost replies: seq<Reply>)
      requires clock <= now
      requires granted.Some? ==> granted.value.accessToken !in owner &&
                                 forall id | id in links :: links[id].auth.accessToken in owner
      modifies this`links, this`owner, this`revoked, this`clock
      ensures Performs(cfg, old(View()), Refresh(ManagerRefresh(username)), replies, View())
      ensures r == Err(NotFound) <==> !UsernameTaken(old(View()), username)
      ensures r.Ok? <==> UsernameTaken(old(View()), username) && granted.Some?
      ensures r.Ok? ==> exists a, b :: a in old(links) && b in old(links) && old(links)[b].username == username &&
                          old(links)[a].username == username && links == old(links)[b := r.value] &&
                          r.value.retiresAt == old(links)[a].retiresAt &&
                          revoked == old(revoked) + {old(links)[a].auth.accessToken}
      ensures r.Ok? ==> r.value.auth == granted.value && r.value.username == username
      ensures r.Ok? ==> r.value.createdAt == now && r.value.expiresAt == now + cfg.sessionLifetime * 1000
      ensures r.Err? ==> View() == old(View())
    {
      ghost var g := View();
      var found := GetLinkRecord(ByUsername(username));
      if found.None? {
        replies := Last(cfg, Moment(g, Refresh(ManagerRefresh(username))), Found(None));
        assert forall id | id in links :: !HasKey(links[id], ByUsername(username));
        return Err(NotFound), replies;
      }
      var link := links[found.value];
      assert HasKey(link, ByUsername(username)) && UsernameTaken(g, username);
      r, replies := RefreshLink(cfg, link, None, granted, now);
      replies := Before(cfg, Moment(g, Refresh(ManagerRefresh(username))), Found(found),
                        Moment(g, Refresh(RefreshCall(link, None))), replies);
    }
  }
}
