/** Runs put together from whole requests, for results that need a run to exist. */
module Scenarios {
  import opened Wrappers
  import opened Protocol
  import opened Interleaved
  import opened Serial
  import opened LinkService

  // ---- Unused values ---------------------------------------------------------------------

  lemma FreshId(used: set<nat>) returns (id: nat)
    ensures forall u | u in used :: u < id
  {
    if used == {} { return 0; }
    var u :| u in used;
    id := FreshId(used - {u});
    if id <= u { id := u + 1; }
    forall v | v in used ensures v < id { assert v != u ==> v in used - {u}; }
  }

  lemma FreshString(used: set<string>) returns (s: string)
    ensures forall u | u in used :: |u| < |s|
  {
    if used == {} { return "x"; }
    var u :| u in used;
    s := FreshString(used - {u});
    if |s| <= |u| { s := u + "x"; }
    forall v | v in used ensures |v| < |s| { assert v != u ==> v in used - {u}; }
  }

  // ---- Whole requests --------------------------------------------------------------------

  /** A start of a session that no other request touches. */
  lemma WholeStart(cfg: Config, g: Shared, id: ObjectId, options: StartOptions) returns (replies: seq<Reply>)
    requires id in g.initial && id !in g.started
    ensures Performs(cfg, g, Start(StartCheck(g.initial[id].sessionId, g.initial[id].username, options)), replies,
                     StartOutcome(g, options, id))
  {
    var sid, user := g.initial[id].sessionId, g.initial[id].username;
    replies := StartPath(cfg, g, sid, options, id);
    replies := Before(cfg, Moment(g, Start(StartCheck(sid, user, options))), Found(Some(id)),
                      Moment(g, Start(StartFind(sid, options))), replies);
  }

  /** A continue of a session that no other request touches, for an ORCID id nobody has linked. */
  lemma WholeContinue(cfg: Config, g: Shared, id: ObjectId, auth: OrcidAuth) returns (replies: seq<Reply>)
    requires id in g.started && id !in g.completed && auth.accessToken !in g.owner
    requires forall l | l in g.links :: g.links[l].auth.orcid != auth.orcid
    ensures Performs(cfg, g, Continue(ContinueCheck(g.started[id].base.sessionId, g.started[id].base.username)),
                     replies, ContinueOutcome(Granting(g, auth, g.started[id].base.username), auth, id))
  {
    var sid, user := g.started[id].base.sessionId, g.started[id].base.username;
    var h := Granting(g, auth, user);
    replies := ContinuePath(cfg, h, sid, auth, id);
    replies := Before(cfg, Moment(h, Continue(ContinueLookup(sid, auth))), Found(None),
                      Moment(h, Continue(ContinueFind(sid, auth))), replies);
    replies := ExchangePath(cfg, g, sid, user, auth, id, replies, ContinueOutcome(h, auth, id));
  }

  lemma WholeFinish(cfg: Config, g: Shared, id: ObjectId, linkId: ObjectId) returns (replies: seq<Reply>, h: Shared)
    requires id in g.completed && linkId !in g.origin && linkId !in g.links
    requires !(g.uniqueIndex && UsernameTaken(g, g.completed[id].base.username))
    ensures Performs(cfg, g, Finish(FinishCheck(g.completed[id].base.sessionId, g.completed[id].base.username)),
                     replies, h)
    ensures h == g.(links := g.links[linkId := NewLinkRecord(cfg, g.completed[id], g.clock)],
                    completed := g.completed - {id}, origin := h.origin, ended := h.ended)
    ensures h.origin.Keys == g.origin.Keys + {linkId}
  {
    var sid, user := g.completed[id].base.sessionId, g.completed[id].base.username;
    var link := NewLinkRecord(cfg, g.completed[id], g.clock);
    var g1 := g.(clock := g.clock);
    var m := Moment(g1.(links := g.links[linkId := link], origin := g.origin[linkId := Origin(sid, user)]),
                    Finish(FinishDelete(sid, linkId)));
    replies := Last(cfg, m, Found(Some(id)));
    replies := Before(cfg, Moment(g1, Finish(FinishInsert(sid, user, link))), NewLink(linkId), m, replies);
    h := Next(cfg, m.g, m.pc, Found(Some(id))).g;
    replies := FinishPath(cfg, g, sid, user, id, g.clock, linkId, replies, h);
  }

  /** A manager's delete_link of a stored link. */
  lemma WholeUnlink(cfg: Config, g: Shared, id: ObjectId) returns (replies: seq<Reply>)
    requires id in g.links
    ensures Performs(cfg, g, Unlink(UnlinkCheck(g.links[id].username, None)), replies,
                     g.(links := g.links - {id}, revoked := g.revoked + {g.links[id].auth.accessToken}))
  {
    var link, user := g.links[id], g.links[id].username;
    var h := g.(revoked := g.revoked + {link.auth.accessToken});
    replies := Last(cfg, Moment(h, Unlink(UnlinkDelete(user))), Found(Some(id)));
    replies := Before(cfg, Moment(g, Unlink(UnlinkRevoke(link))), Revoked(true),
                      Moment(h, Unlink(UnlinkDelete(user))), replies);
    replies := Before(cfg, Moment(g, Unlink(UnlinkCheck(user, None))), Found(Some(id)),
                      Moment(g, Unlink(UnlinkRevoke(link))), replies);
  }

  /**
   A retired link is read by its ORCID id and refreshed. The record is saved over a link of the same user, which need
   not be the one that was read when the user has several.
   */
  lemma WholeRefresh(cfg: Config, g: Shared, id: ObjectId, over: ObjectId, auth: OrcidAuth, now: int)
    returns (replies: seq<Reply>, h: Shared)
    requires id in g.links && over in g.links && g.links[over].username == g.links[id].username
    requires g.clock <= now && g.links[id].retiresAt < now
    requires g.links[id].auth.accessToken in g.owner && auth.accessToken !in g.owner
    ensures Performs(cfg, g, Refresh(UseFind(ByOrcid(g.links[id].auth.orcid))), replies, h)
    ensures h.links == g.links[over := RefreshedLink(cfg, g.links[id], auth, Some(now), now)]
    ensures h.revoked == g.revoked + {g.links[id].auth.accessToken}
  {
    var link := g.links[id];
    var g1 := g.(clock := now);
    replies := RefreshPath(cfg, g1, link, Some(now), auth, now, Some(over));
    h := Regranting(g1, link, auth).(clock := now,
           links := g.links[over := RefreshedLink(cfg, link, auth, Some(now), now)]);
    replies := Before(cfg, Moment(g1, Refresh(RefreshStamp(link))), Tick(now),
                      Moment(g1, Refresh(RefreshCall(link, Some(now)))), replies);
    replies := Before(cfg, Moment(g, Refresh(UseCheck(link))), Tick(now),
                      Moment(g1, Refresh(RefreshStamp(link))), replies);
    replies := Before(cfg, Moment(g, Refresh(UseFind(ByOrcid(link.auth.orcid)))), Found(Some(id)),
                      Moment(g, Refresh(UseCheck(link))), replies);
  }

  // ---- Serial runs -----------------------------------------------------------------------

  lemma StaysOtherwise(cfg: Config, m: Moment, r: Reply)
    requires Enabled(m.g, m.pc, r)
    ensures Next(cfg, m.g, m.pc, r).pc.Cleanup? ==> m.pc.Cleanup?
  {
  }

  lemma {:induction false} AnswersRun(cfg: Config, m: Moment, replies: seq<Reply>) returns (moves: seq<SerialMove>)
    requires Answers(cfg, m, replies) && !m.pc.Cleanup?
    ensures SerialRuns(cfg, m, moves) && NoneCutShort(cfg, m, moves)
    ensures SerialAfter(cfg, m, moves) == AfterAnswers(cfg, m, replies)
    decreases |replies|
  {
    moves := [];
    if |replies| > 0 {
      StaysOtherwise(cfg, m, replies[0]);
      var rest := AnswersRun(cfg, Next(cfg, m.g, m.pc, replies[0]), replies[1..]);
      moves := [Answer(replies[0])] + rest;
      assert moves[1..] == rest;
    }
  }

  /** One whole request, as a serial run. */
  lemma RequestRun(cfg: Config, g: Shared, pc: Pc, replies: seq<Reply>, h: Shared) returns (moves: seq<SerialMove>)
    requires Fresh(pc) && !pc.Cleanup? && Performs(cfg, g, pc, replies, h)
    ensures SerialRuns(cfg, Moment(g, Done), moves) && NoneCutShort(cfg, Moment(g, Done), moves)
    ensures SerialAfter(cfg, Moment(g, Done), moves) == Moment(h, Done)
  {
    var rest := AnswersRun(cfg, Moment(g, pc), replies);
    moves := [Open(pc)] + rest;
    assert moves[1..] == rest;
  }

  lemma {:induction false} RunAppend(cfg: Config, m: Moment, first: seq<SerialMove>, second: seq<SerialMove>)
    requires SerialRuns(cfg, m, first) && NoneCutShort(cfg, m, first)
    requires SerialRuns(cfg, SerialAfter(cfg, m, first), second)
    requires NoneCutShort(cfg, SerialAfter(cfg, m, first), second)
    ensures SerialRuns(cfg, m, first + second) && NoneCutShort(cfg, m, first + second)
    ensures SerialAfter(cfg, m, first + second) == SerialAfter(cfg, SerialAfter(cfg, m, first), second)
    decreases |first|
  {
    if |first| == 0 {
      assert first + second == second;
    } else {
      RunAppend(cfg, SerialTake(cfg, m, first[0]), first[1..], second);
      assert (first + second)[1..] == first[1..] + second;
    }
  }

  /** Two runs, one after the other. */
  ghost predicate Leads(cfg: Config, g: Shared, moves: seq<SerialMove>, h: Shared) {
    && SerialRuns(cfg, Moment(g, Done), moves) && NoneCutShort(cfg, Moment(g, Done), moves)
    && SerialAfter(cfg, Moment(g, Done), moves) == Moment(h, Done)
  }

  lemma LeadsOn(cfg: Config, g: Shared, first: seq<SerialMove>, h: Shared, second: seq<SerialMove>, k: Shared)
    requires Leads(cfg, g, first, h) && Leads(cfg, h, second, k)
    ensures Leads(cfg, g, first + second, k)
  {
    RunAppend(cfg, Moment(g, Done), first, second);
  }

  // ---- A session from its creation to its tokens -----------------------------------------

  ghost predicate UnusedFor(g: Shared, sid: SessionId, oid: ObjectId, auth: OrcidAuth) {
    && sid !in g.born && oid !in g.sessionOf && oid !in g.initial && oid !in g.started && oid !in g.completed
    && auth.accessToken !in g.owner && forall l | l in g.links :: g.links[l].auth.orcid != auth.orcid
  }

  ghost function WithStarted(cfg: Config, g: Shared, sid: SessionId, oid: ObjectId, user: Username,
                             options: StartOptions): Shared {
    var s := NewBase(cfg, sid, user, g.clock);
    g.(started := g.started[oid := Started(s, options)], born := g.born[sid := Birth(oid, s)],
       sessionOf := g.sessionOf[oid := sid])
  }

  ghost function WithCompleted(cfg: Config, g: Shared, sid: SessionId, oid: ObjectId, user: Username,
                               options: StartOptions, auth: OrcidAuth): Shared {
    var s := NewBase(cfg, sid, user, g.clock);
    g.(completed := g.completed[oid := Completed(s, options, auth)], born := g.born[sid := Birth(oid, s)],
       sessionOf := g.sessionOf[oid := sid], owner := g.owner[auth.accessToken := user])
  }

  lemma StartSession(cfg: Config, g: Shared, sid: SessionId, oid: ObjectId, user: Username, options: StartOptions,
                     auth: OrcidAuth)
    returns (moves: seq<SerialMove>)
    requires UnusedFor(g, sid, oid, auth) && !UsernameTaken(g, user)
    ensures Leads(cfg, g, moves, WithStarted(cfg, g, sid, oid, user, options))
  {
    var replies := CreatePath(cfg, g, user, g.clock, sid, oid);
    var s := NewBase(cfg, sid, user, g.clock);
    var h := g.(initial := g.initial[oid := s], born := g.born[sid := Birth(oid, s)],
                sessionOf := g.sessionOf[oid := sid], clock := g.clock);
    var first := RequestRun(cfg, g, Create(CreateCheck(user, user)), replies, h);
    replies := WholeStart(cfg, h, oid, options);
    assert h.initial - {oid} == g.initial;
    var second := RequestRun(cfg, h, Start(StartCheck(sid, user, options)), replies, StartOutcome(h, options, oid));
    LeadsOn(cfg, g, first, h, second, StartOutcome(h, options, oid));
    moves := first + second;
  }

  /** A session from its creation to the exchange of its tokens, by a user and for an ORCID id without a link. */
  lemma CompleteSession(cfg: Config, g: Shared, sid: SessionId, oid: ObjectId, user: Username, options: StartOptions,
                        auth: OrcidAuth)
    returns (moves: seq<SerialMove>)
    requires UnusedFor(g, sid, oid, auth) && !UsernameTaken(g, user)
    ensures Leads(cfg, g, moves, WithCompleted(cfg, g, sid, oid, user, options, auth))
  {
    var first := StartSession(cfg, g, sid, oid, user, options, auth);
    var h := WithStarted(cfg, g, sid, oid, user, options);
    var replies := WholeContinue(cfg, h, oid, auth);
    var k := ContinueOutcome(Granting(h, auth, user), auth, oid);
    assert h.started - {oid} == g.started;
    var second := RequestRun(cfg, h, Continue(ContinueCheck(sid, user)), replies, k);
    LeadsOn(cfg, g, first, h, second, k);
    moves := first + second;
  }

  /** A completed session is finished under a link id nobody has used. */
  lemma FinishSession(cfg: Config, g: Shared, id: ObjectId, linkId: ObjectId)
    returns (moves: seq<SerialMove>, h: Shared)
    requires id in g.completed && linkId !in g.origin && linkId !in g.links
    requires !(g.uniqueIndex && UsernameTaken(g, g.completed[id].base.username))
    ensures Leads(cfg, g, moves, h)
    ensures h == g.(links := g.links[linkId := NewLinkRecord(cfg, g.completed[id], g.clock)],
                    completed := g.completed - {id}, origin := h.origin, ended := h.ended)
    ensures h.origin.Keys == g.origin.Keys + {linkId}
  {
    var replies;
    replies, h := WholeFinish(cfg, g, id, linkId);
    var base := g.completed[id].base;
    moves := RequestRun(cfg, g, Finish(FinishCheck(base.sessionId, base.username)), replies, h);
  }

  ghost predicate Linkable(g: Shared, user: Username, auth: OrcidAuth) {
    && !UsernameTaken(g, user) && auth.accessToken !in g.owner
    && forall l | l in g.links :: g.links[l].auth.orcid != auth.orcid
  }

  lemma StillUnused(cfg: Config, g: Shared, sid: SessionId, id: ObjectId, user1: Username, options: StartOptions,
                    auth1: OrcidAuth, user2: Username, auth2: OrcidAuth)
    requires UnusedFor(g, sid, id, auth1) && Linkable(g, user2, auth2) && auth1.accessToken != auth2.accessToken
    requires forall s | s in g.born :: |s| < |sid|
    requires forall d | d in g.initial.Keys + g.started.Keys + g.completed.Keys + g.sessionOf.Keys :: d < id
    ensures var k := WithCompleted(cfg, g, sid, id, user1, options, auth1);
            UnusedFor(k, sid + "x", id + 1, auth2) && !UsernameTaken(k, user2)
  {
    assert sid + "x" !in g.born;
    assert id + 1 !in g.initial.Keys + g.started.Keys + g.completed.Keys + g.sessionOf.Keys;
  }

  /** Two sessions are brought to completion before either is finished. */
  lemma TwoCompleted(cfg: Config, g: Shared, user1: Username, auth1: OrcidAuth, user2: Username, auth2: OrcidAuth)
    returns (moves: seq<SerialMove>, h: Shared, id: ObjectId)
    requires Linkable(g, user1, auth1) && Linkable(g, user2, auth2) && auth1.accessToken != auth2.accessToken
    ensures Leads(cfg, g, moves, h)
    ensures id in h.completed && h.completed[id].base.username == user1 && h.completed[id].auth == auth1
    ensures id + 1 in h.completed && h.completed[id + 1].base.username == user2 && h.completed[id + 1].auth == auth2
    ensures h.links == g.links && h.origin == g.origin && h.clock == g.clock && h.uniqueIndex == g.uniqueIndex
    ensures h.owner == g.owner[auth1.accessToken := user1][auth2.accessToken := user2]
  {
    var sid := FreshString(g.born.Keys);
    id := FreshId(g.initial.Keys + g.started.Keys + g.completed.Keys + g.sessionOf.Keys);
    var options := StartOptions(None, false, "");
    var k := WithCompleted(cfg, g, sid, id, user1, options, auth1);
    h := WithCompleted(cfg, k, sid + "x", id + 1, user2, options, auth2);
    assert UnusedFor(g, sid, id, auth1) by {
      assert id !in g.initial.Keys + g.started.Keys + g.completed.Keys + g.sessionOf.Keys;
    }
    StillUnused(cfg, g, sid, id, user1, options, auth1, user2, auth2);
    var first := CompleteSession(cfg, g, sid, id, user1, options, auth1);
    var second := CompleteSession(cfg, k, sid + "x", id + 1, user2, options, auth2);
    LeadsOn(cfg, g, first, k, second, h);
    moves := first + second;
  }

  /** Two new links, of two users or, without the unique index, of one. */
  lemma TwoLinks(cfg: Config, g: Shared, user1: Username, auth1: OrcidAuth, user2: Username, auth2: OrcidAuth)
    returns (moves: seq<SerialMove>, h: Shared, a: ObjectId)
    requires Linkable(g, user1, auth1) && Linkable(g, user2, auth2) && auth1.accessToken != auth2.accessToken
    requires g.uniqueIndex ==> user1 != user2
    ensures Leads(cfg, g, moves, h)
    ensures a in h.links && h.links[a].username == user1 && h.links[a].auth == auth1
    ensures a + 1 in h.links && h.links[a + 1].username == user2 && h.links[a + 1].auth == auth2
    ensures h.clock == g.clock && h.owner == g.owner[auth1.accessToken := user1][auth2.accessToken := user2]
  {
    var first, k, id := TwoCompleted(cfg, g, user1, auth1, user2, auth2);
    a := FreshId(k.origin.Keys + k.links.Keys);
    var second, k1 := FinishSession(cfg, k, id, a);
    var third;
    third, h := FinishSession(cfg, k1, id + 1, a + 1);
    LeadsOn(cfg, k, second, k1, third, h);
    LeadsOn(cfg, g, first, k, second + third, h);
    moves := first + (second + third);
  }

  // ---- Interleaved runs ------------------------------------------------------------------

  lemma PrependMove(cfg: Config, s: System, move: Move, rest: seq<Move>)
    requires Legal(s, move) && Runs(cfg, Take(cfg, s, move), rest)
    ensures Runs(cfg, s, [move] + rest) && After(cfg, s, [move] + rest) == After(cfg, Take(cfg, s, move), rest)
  {
    assert ([move] + rest)[1..] == rest;
  }

  lemma {:induction false} AppendMoves(cfg: Config, s: System, first: seq<Move>, second: seq<Move>)
    requires Runs(cfg, s, first) && Runs(cfg, After(cfg, s, first), second)
    ensures Runs(cfg, s, first + second) && After(cfg, s, first + second) == After(cfg, After(cfg, s, first), second)
    decreases |first|
  {
    if |first| == 0 {
      assert first + second == second;
    } else {
      AppendMoves(cfg, Take(cfg, s, first[0]), first[1..], second);
      assert (first + second)[1..] == first[1..] + second;
    }
  }

  /** A request that nothing interrupts, as moves of the interleaved system. */
  lemma {:induction false} Uninterrupted(cfg: Config, s: System, rid: nat, replies: seq<Reply>)
    returns (moves: seq<Move>)
    requires rid in s.requests && Answers(cfg, Moment(s.g, s.requests[rid]), replies)
    ensures Runs(cfg, s, moves)
    ensures var m := AfterAnswers(cfg, Moment(s.g, s.requests[rid]), replies);
            After(cfg, s, moves) == System(m.g, s.requests[rid := m.pc])
    decreases |replies|
  {
    if |replies| == 0 {
      assert s.requests[rid := s.requests[rid]] == s.requests;
      return [];
    }
    var t := Take(cfg, s, Act(rid, replies[0]));
    var rest := Uninterrupted(cfg, t, rid, replies[1..]);
    PrependMove(cfg, s, Act(rid, replies[0]), rest);
    var m := AfterAnswers(cfg, Moment(s.g, s.requests[rid]), replies);
    assert t.requests[rid := m.pc] == s.requests[rid := m.pc];
    moves := [Act(rid, replies[0])] + rest;
  }

  lemma BeginAndAnswer(cfg: Config, s: System, rid: nat, pc: Pc, replies: seq<Reply>) returns (moves: seq<Move>)
    requires rid !in s.requests && Fresh(pc) && Answers(cfg, Moment(s.g, pc), replies)
    ensures Runs(cfg, s, moves)
    ensures var m := AfterAnswers(cfg, Moment(s.g, pc), replies);
            After(cfg, s, moves) == System(m.g, s.requests[rid := m.pc])
  {
    var t := Take(cfg, s, Begin(rid, pc));
    var rest := Uninterrupted(cfg, t, rid, replies);
    PrependMove(cfg, s, Begin(rid, pc), rest);
    moves := [Begin(rid, pc)] + rest;
    var m := AfterAnswers(cfg, Moment(s.g, pc), replies);
    assert t.requests[rid := m.pc] == s.requests[rid := m.pc];
  }

  /** Every other request is done, and numbers above the current one are free. */
  ghost predicate OnlyOne(requests: map<nat, Pc>, rid: nat) {
    rid in requests && forall k | k in requests :: k <= rid && (k != rid ==> requests[k].Done?)
  }

  /** A serial run is one of the interleavings. */
  lemma {:induction false} SerialIsInterleaved(cfg: Config, s: System, rid: nat, moves: seq<SerialMove>)
    returns (out: seq<Move>, last: nat)
    requires OnlyOne(s.requests, rid) && SerialRuns(cfg, Moment(s.g, s.requests[rid]), moves)
    ensures Runs(cfg, s, out)
    ensures var t := After(cfg, s, out);
            && OnlyOne(t.requests, last)
            && Moment(t.g, t.requests[last]) == SerialAfter(cfg, Moment(s.g, s.requests[rid]), moves)
    decreases |moves|
  {
    if |moves| == 0 { return [], rid; }
    var move := match moves[0] case Open(pc) => Begin(rid + 1, pc) case Answer(r) => Act(rid, r);
    var t := Take(cfg, s, move);
    var rest;
    rest, last := SerialIsInterleaved(cfg, t, if moves[0].Open? then rid + 1 else rid, moves[1..]);
    PrependMove(cfg, s, move, rest);
    out := [move] + rest;
  }

  lemma FromTheStart(cfg: Config, g: Shared, moves: seq<SerialMove>) returns (out: seq<Move>)
    requires SerialRuns(cfg, Moment(g, Done), moves)
    ensures Runs(cfg, System(g, map[]), out)
    ensures After(cfg, System(g, map[]), out).g == SerialAfter(cfg, Moment(g, Done), moves).g
    ensures SerialAfter(cfg, Moment(g, Done), moves).pc.Done? ==>
              var requests := After(cfg, System(g, map[]), out).requests;
              forall rid | rid in requests :: requests[rid].Done?
  {
    if |moves| == 0 { return []; }
    var s := System(g, map[]);
    var t := Take(cfg, s, Begin(0, moves[0].pc));
    var rest, last := SerialIsInterleaved(cfg, t, 0, moves[1..]);
    PrependMove(cfg, s, Begin(0, moves[0].pc), rest);
    out := [Begin(0, moves[0].pc)] + rest;
  }
}
