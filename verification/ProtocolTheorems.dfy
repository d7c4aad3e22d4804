/** What the linking protocol promises, read off the two invariants. */
module ProtocolTheorems {
  import opened Wrappers
  import opened Protocol
  import opened Interleaved
  import opened Serial
  import opened Exclusivity
  import opened LinkService
  import opened Scenarios

  // ---- Any interleaving, any crash -------------------------------------------------------

  ghost predicate IsStored(g: Shared, sid: SessionId) {
    || (exists id :: id in g.initial && g.initial[id].sessionId == sid)
    || (exists id :: id in g.started && g.started[id].base.sessionId == sid)
    || (exists id :: id in g.completed && g.completed[id].base.sessionId == sid)
  }

  lemma AfterGood(cfg: Config, uniqueIndex: bool, clock: int, moves: seq<Move>)
    requires Runs(cfg, System(Empty(uniqueIndex, clock), map[]), moves)
    ensures SystemGood(cfg, After(cfg, System(Empty(uniqueIndex, clock), map[]), moves))
    ensures After(cfg, System(Empty(uniqueIndex, clock), map[]), moves).g.uniqueIndex == uniqueIndex
  {
    RunKeeps(cfg, System(Empty(uniqueIndex, clock), map[]), moves);
  }

  /** A created session that is in no collection was finished, deleted, rejected or expired. */
  lemma NoSessionLost(cfg: Config, uniqueIndex: bool, clock: int, moves: seq<Move>, sid: SessionId)
    requires Runs(cfg, System(Empty(uniqueIndex, clock), map[]), moves)
    ensures
      var g := After(cfg, System(Empty(uniqueIndex, clock), map[]), moves).g;
      sid in g.born && !IsStored(g, sid) ==>
        sid in g.ended &&
        (g.ended[sid].Finished? ==> g.ended[sid].link in g.origin && g.origin[g.ended[sid].link].sessionId == sid)
  {
    AfterGood(cfg, uniqueIndex, clock, moves);
    var g := After(cfg, System(Empty(uniqueIndex, clock), map[]), moves).g;
    if sid in g.born && sid !in g.ended {
      var id := g.born[sid].oid;
      assert id in g.initial ==> IsBorn(g.born, id, g.initial[id]);
      assert id in g.started ==> IsBorn(g.born, id, g.started[id].base);
      assert id in g.completed ==> IsCompleted(g.born, g.owner, id, g.completed[id]);
    }
  }

  /** Each collection holds at most one document of a session, and all copies are of the session as created. */
  lemma CopiesAgree(cfg: Config, uniqueIndex: bool, clock: int, moves: seq<Move>)
    requires Runs(cfg, System(Empty(uniqueIndex, clock), map[]), moves)
    ensures
      var g := After(cfg, System(Empty(uniqueIndex, clock), map[]), moves).g;
      && (forall a, b | a in g.initial && b in g.initial && g.initial[a].sessionId == g.initial[b].sessionId :: a == b)
      && (forall a, b | a in g.started && b in g.started &&
                        g.started[a].base.sessionId == g.started[b].base.sessionId :: a == b)
      && (forall a, b | a in g.completed && b in g.completed &&
                        g.completed[a].base.sessionId == g.completed[b].base.sessionId :: a == b)
      && (forall a, b | a in g.initial && b in g.started && g.initial[a].sessionId == g.started[b].base.sessionId ::
            g.initial[a] == g.started[b].base)
      && (forall a, b | a in g.started && b in g.completed &&
                        g.started[a].base.sessionId == g.completed[b].base.sessionId ::
            g.started[a].base == g.completed[b].base)
      && (forall a, b | a in g.initial && b in g.completed &&
                        g.initial[a].sessionId == g.completed[b].base.sessionId ::
            g.initial[a] == g.completed[b].base)
  {
    AfterGood(cfg, uniqueIndex, clock, moves);
    var g := After(cfg, System(Empty(uniqueIndex, clock), map[]), moves).g;
    forall id | id in g.initial ensures g.born[g.initial[id].sessionId] == Birth(id, g.initial[id]) {}
    forall id | id in g.started ensures g.born[g.started[id].base.sessionId] == Birth(id, g.started[id].base) {}
    forall id | id in g.completed ensures g.born[g.completed[id].base.sessionId] == Birth(id, g.completed[id].base) {}
  }

  /**
   Every link was made from a session its user created, by a finish its user called, and holds a token that goes
   back to a code exchange its user called. With the unique index there is one link per user.
   */
  lemma LinksAreTheirUsers(cfg: Config, uniqueIndex: bool, clock: int, moves: seq<Move>)
    requires Runs(cfg, System(Empty(uniqueIndex, clock), map[]), moves)
    ensures
      var g := After(cfg, System(Empty(uniqueIndex, clock), map[]), moves).g;
      && (forall id | id in g.links ::
            && HasOrigin(g.born, g.origin, id, g.links[id].username)
            && TokenOf(g.owner, g.links[id].auth.accessToken, g.links[id].username))
      && (uniqueIndex ==>
            forall a, b | a in g.links && b in g.links && g.links[a].username == g.links[b].username :: a == b)
  {
    AfterGood(cfg, uniqueIndex, clock, moves);
  }

  /** No link is retired later than its age allows. */
  lemma RetirementBound(cfg: Config, uniqueIndex: bool, clock: int, moves: seq<Move>)
    requires Runs(cfg, System(Empty(uniqueIndex, clock), map[]), moves)
    ensures
      var g := After(cfg, System(Empty(uniqueIndex, clock), map[]), moves).g;
      forall id | id in g.links :: g.links[id].retiresAt <= g.links[id].createdAt + cfg.retirementAge * 1000
  {
    AfterGood(cfg, uniqueIndex, clock, moves);
  }

  // ---- Whole requests one at a time ------------------------------------------------------

  lemma EmptyIsAlone(cfg: Config, clock: int)
    ensures SerialInvariant(cfg, Moment(Empty(true, clock), Done))
  {
  }

  /**
   Between requests a session is in one collection, a token is held by one completed session or link, and no holder's
   token was revoked.
   */
  lemma RequestsRest(cfg: Config, clock: int, moves: seq<SerialMove>)
    requires SerialRuns(cfg, Moment(Empty(true, clock), Done), moves)
    requires NoneCutShort(cfg, Moment(Empty(true, clock), Done), moves)
    requires SerialAfter(cfg, Moment(Empty(true, clock), Done), moves).pc.Done?
    ensures AtRest(SerialAfter(cfg, Moment(Empty(true, clock), Done), moves).g)
  {
    EmptyIsAlone(cfg, clock);
    SerialRunKeeps(cfg, Moment(Empty(true, clock), Done), moves);
  }

  // ---- When a store stays safe -----------------------------------------------------------

  /** At rest but for completed sessions whose token may be revoked, as a cleanup cut short leaves it. */
  ghost predicate NearlyAtRest(cfg: Config, g: Shared) {
    && Invariant(cfg, g) && g.revoked <= g.owner.Keys
    && Exclusive(g) && SingleHolders(g.completed, g.links) && LinksUnrevoked(g.links, g.revoked)
  }

  ghost predicate EndsSafely(cfg: Config, g: Shared, moves: seq<SerialMove>)
    requires SerialRuns(cfg, Moment(g, Done), moves)
  {
    var n := SerialAfter(cfg, Moment(g, Done), moves);
    NoneCutShort(cfg, Moment(g, Done), moves) && n.pc.Done? ==> LinksUnrevoked(n.g.links, n.g.revoked)
  }

  /** No further whole requests, none of them a cleanup cut short, store a link with a revoked token. */
  ghost predicate StaysSafe(cfg: Config, g: Shared) {
    forall moves | SerialRuns(cfg, Moment(g, Done), moves) :: EndsSafely(cfg, g, moves)
  }

  /** After deleting the link of a user who has one, nobody has linked under that name. */
  lemma ClearUser(cfg: Config, g: Shared, user: Username) returns (moves: seq<SerialMove>, h: Shared)
    requires UsernamesUnique(g.links)
    ensures Leads(cfg, g, moves, h)
    ensures !UsernameTaken(h, user) && h.completed == g.completed && g.revoked <= h.revoked
    ensures h.origin == g.origin
  {
    moves, h := [], g;
    if UsernameTaken(g, user) {
      var id :| id in g.links && g.links[id].username == user;
      var replies := WholeUnlink(cfg, g, id);
      h := g.(links := g.links - {id}, revoked := g.revoked + {g.links[id].auth.accessToken});
      moves := RequestRun(cfg, g, Unlink(UnlinkCheck(user, None)), replies, h);
    }
  }

  lemma Escapes(cfg: Config, g: Shared, moves: seq<SerialMove>, h: Shared, id: ObjectId)
    requires Leads(cfg, g, moves, h) && id in h.links && h.links[id].auth.accessToken in h.revoked
    ensures !StaysSafe(cfg, g)
  {
    assert !EndsSafely(cfg, g, moves);
  }

  /** A completed session with a revoked token can be finished into a link. */
  lemma RevokedSessionEscapes(cfg: Config, g: Shared, id: ObjectId)
    requires UsernamesUnique(g.links) && id in g.completed && g.completed[id].auth.accessToken in g.revoked
    ensures !StaysSafe(cfg, g)
  {
    var first, h := ClearUser(cfg, g, g.completed[id].base.username);
    var linkId := FreshId(h.origin.Keys + h.links.Keys);
    var second, k := FinishSession(cfg, h, id, linkId);
    LeadsOn(cfg, g, first, h, second, k);
    Escapes(cfg, g, first + second, k, linkId);
  }

  /**
   Without the unique index a user can come to have two links. Refreshing one of them by its ORCID id revokes its old
   token and saves the record over the other, so the one read keeps a token that was revoked.
   */
  lemma IndexlessEscapes(cfg: Config, g: Shared)
    requires !g.uniqueIndex
    ensures !StaysSafe(cfg, g)
  {
    var user := FreshString(set id | id in g.links :: g.links[id].username);
    var orcid := FreshString(set id | id in g.links :: g.links[id].auth.orcid);
    var token := FreshString(g.owner.Keys);
    var auth1 := OrcidAuth(token, "bearer", "", 0, "", "", orcid);
    var auth2 := OrcidAuth(token + "x", "bearer", "", 0, "", "", orcid + "x");
    var auth3 := OrcidAuth(token + "xx", "bearer", "", 0, "", "", orcid + "x");
    assert Linkable(g, user, auth1) && Linkable(g, user, auth2);
    var first, h, a := TwoLinks(cfg, g, user, auth1, user, auth2);
    RefreshEscapes(cfg, g, first, h, a + 1, a, auth3);
  }

  lemma RefreshEscapes(cfg: Config, g: Shared, first: seq<SerialMove>, h: Shared, id: ObjectId, over: ObjectId,
                       auth: OrcidAuth)
    requires Leads(cfg, g, first, h) && id in h.links && over in h.links && id != over
    requires h.links[id].username == h.links[over].username
    requires h.links[id].auth.accessToken in h.owner && auth.accessToken !in h.owner
    ensures !StaysSafe(cfg, g)
  {
    var now := if h.clock > h.links[id].retiresAt then h.clock else h.links[id].retiresAt + 1;
    var replies, k := WholeRefresh(cfg, h, id, over, auth, now);
    var second := RequestRun(cfg, h, Refresh(UseFind(ByOrcid(h.links[id].auth.orcid))), replies, k);
    LeadsOn(cfg, g, first, h, second, k);
    Escapes(cfg, g, first + second, k, id);
  }

  /**
   No later requests store a link with a revoked token exactly when the database has the unique index and no completed
   session holds a revoked token now.
   */
  lemma StaysSafeIff(cfg: Config, g: Shared)
    requires NearlyAtRest(cfg, g)
    ensures StaysSafe(cfg, g) <==> g.uniqueIndex && CompletedUnrevoked(g.completed, g.revoked)
  {
    if !g.uniqueIndex {
      IndexlessEscapes(cfg, g);
    } else if CompletedUnrevoked(g.completed, g.revoked) {
      assert SerialInvariant(cfg, Moment(g, Done));
      forall moves | SerialRuns(cfg, Moment(g, Done), moves) ensures EndsSafely(cfg, g, moves) {
        if NoneCutShort(cfg, Moment(g, Done), moves) { SerialRunKeeps(cfg, Moment(g, Done), moves); }
      }
    } else {
      var id :| id in g.completed && g.completed[id].auth.accessToken in g.revoked;
      RevokedSessionEscapes(cfg, g, id);
    }
  }

  /** On a new database no request ever stores a link with a revoked token exactly when it has the unique index. */
  lemma SafeFromTheStartIff(cfg: Config, uniqueIndex: bool, clock: int)
    ensures StaysSafe(cfg, Empty(uniqueIndex, clock)) <==> uniqueIndex
  {
    StaysSafeIff(cfg, Empty(uniqueIndex, clock));
  }

  /**
   However a cleanup ends, no stored link holds a revoked token. That stays so in every later run exactly when the
   cleanup was not cut short: it reached its end, or its first revocation failed.
   */
  lemma CutShortIff(cfg: Config, m: Moment, r: Reply)
    requires SerialInvariant(cfg, m) && Enabled(m.g, m.pc, r) && m.pc.Cleanup? && Next(cfg, m.g, m.pc, r).pc.Done?
    ensures NearlyAtRest(cfg, Next(cfg, m.g, m.pc, r).g)
    ensures StaysSafe(cfg, Next(cfg, m.g, m.pc, r).g) <==> !CutsShort(m.pc, r)
  {
    var n := Next(cfg, m.g, m.pc, r);
    if CutsShort(m.pc, r) {
      assert n == Moment(m.g, Done);
    } else {
      AnswerKeeps(cfg, m, r);
    }
    StaysSafeIff(cfg, n.g);
  }

  // ---- Exclusivity needs requests to run one at a time -----------------------------------

  /** A start that has read its session and stops before its insert. */
  lemma HeldUpStart(cfg: Config, s: System, rid: nat, id: ObjectId, options: StartOptions) returns (moves: seq<Move>)
    requires rid !in s.requests && id in s.g.initial
    ensures Runs(cfg, s, moves)
    ensures After(cfg, s, moves) ==
            System(s.g, s.requests[rid := Start(StartInsert(id, Started(s.g.initial[id], options)))])
  {
    var check := Start(StartCheck(s.g.initial[id].sessionId, s.g.initial[id].username, options));
    var hit := Found(Some(id));
    var m1 := Next(cfg, s.g, check, hit);
    AnswerCons(cfg, m1, hit, []);
    AnswerCons(cfg, Moment(s.g, check), hit, [hit] + []);
    moves := BeginAndAnswer(cfg, s, rid, check, [hit] + ([hit] + []));
  }

  /** A session is created and a start of it held up, while another start and a continue go through. */
  lemma OvertakenStart(cfg: Config, clock: int, sid: SessionId, user: Username, options: StartOptions, auth: OrcidAuth)
    returns (moves: seq<Move>)
    ensures Runs(cfg, System(Empty(true, clock), map[]), moves)
    ensures var s := After(cfg, System(Empty(true, clock), map[]), moves);
            && s.g.initial == map[] && s.g.started == map[] && 0 in s.g.completed
            && s.requests ==
               map[0 := Done, 1 := Start(StartInsert(0, Started(NewBase(cfg, sid, user, clock), options))),
                   2 := Done, 3 := Done]
  {
    var s0 := System(Empty(true, clock), map[]);
    var replies := CreatePath(cfg, s0.g, user, clock, sid, 0);
    var a := BeginAndAnswer(cfg, s0, 0, Create(CreateCheck(user, user)), replies);
    var s1 := After(cfg, s0, a);
    var b := HeldUpStart(cfg, s1, 1, 0, options);
    var s2 := After(cfg, s1, b);
    var c := Overtake(cfg, s2, 2, 0, options, auth);
    AppendMoves(cfg, s1, b, c);
    AppendMoves(cfg, s0, a, b + c);
    moves := a + (b + c);
  }

  /** A whole start and a whole continue of an initial session. */
  lemma Overtake(cfg: Config, s: System, rid: nat, id: ObjectId, options: StartOptions, auth: OrcidAuth)
    returns (moves: seq<Move>)
    requires id in s.g.initial && id !in s.g.started && id !in s.g.completed && s.g.links == map[]
    requires auth.accessToken !in s.g.owner && rid !in s.requests && rid + 1 !in s.requests
    ensures Runs(cfg, s, moves)
    ensures var t := After(cfg, s, moves);
            && t.g.initial == s.g.initial - {id} && t.g.started == s.g.started && id in t.g.completed
            && t.requests == s.requests[rid := Done][rid + 1 := Done]
  {
    var sid, user := s.g.initial[id].sessionId, s.g.initial[id].username;
    var replies := WholeStart(cfg, s.g, id, options);
    var a := BeginAndAnswer(cfg, s, rid, Start(StartCheck(sid, user, options)), replies);
    var t := After(cfg, s, a);
    replies := WholeContinue(cfg, t.g, id, auth);
    var b := BeginAndAnswer(cfg, t, rid + 1, Continue(ContinueCheck(sid, user)), replies);
    assert After(cfg, t, b).g.started == s.g.started;
    AppendMoves(cfg, s, a, b);
    moves := a + b;
  }

  /** The held-up start's insert, and its delete that finds nothing. */
  lemma LateInsert(cfg: Config, s: System, rid: nat, oid: ObjectId, doc: Started) returns (moves: seq<Move>)
    requires rid in s.requests && s.requests[rid] == Start(StartInsert(oid, doc)) && oid !in s.g.started
    requires s.g.initial == map[]
    ensures Runs(cfg, s, moves)
    ensures After(cfg, s, moves) == System(s.g.(started := s.g.started[oid := doc]), s.requests[rid := Done])
  {
    var t := Take(cfg, s, Act(rid, Proceed));
    PrependMove(cfg, t, Act(rid, Found(None)), []);
    PrependMove(cfg, s, Act(rid, Proceed), [Act(rid, Found(None))] + []);
    moves := [Act(rid, Proceed)] + ([Act(rid, Found(None))] + []);
    assert s.requests[rid := Start(StartDelete(doc.base.sessionId))][rid := Done] == s.requests[rid := Done];
  }

  /**
   The late insert puts the session back into the started collection, beside its completed copy. All requests are done
   and nothing is left to take it out again.
   */
  lemma LateStartDuplicates(cfg: Config, clock: int, sid: SessionId, user: Username, options: StartOptions,
                            auth: OrcidAuth)
    returns (moves: seq<Move>)
    ensures Runs(cfg, System(Empty(true, clock), map[]), moves)
    ensures var s := After(cfg, System(Empty(true, clock), map[]), moves);
            (forall rid | rid in s.requests :: s.requests[rid].Done?) && !Exclusive(s.g)
    ensures !NoneOvertaken(cfg, System(Empty(true, clock), map[]), moves)
  {
    var s0 := System(Empty(true, clock), map[]);
    var first := OvertakenStart(cfg, clock, sid, user, options, auth);
    var s1 := After(cfg, s0, first);
    var rest := LateInsert(cfg, s1, 1, 0, s1.requests[1].start.doc);
    AppendMoves(cfg, s0, first, rest);
    moves := first + rest;
    var g := After(cfg, s0, moves).g;
    assert 0 in g.started.Keys && 0 in g.completed.Keys;
    if NoneOvertaken(cfg, s0, moves) { ExclusiveUnlessOvertaken(cfg, true, clock, moves); }
  }
}
