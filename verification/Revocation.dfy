/**
 When interleaved requests keep revoked tokens out of the links, on a database with the unique index.

 A delete and a refresh revoke a link's token before they remove or replace the link. So the question is whether every
 link with a revoked token belongs to a user whose link a request is still going to remove or replace: whether the links
 are *settled*. `Exposes` names the accesses after which one is not.
 */
module Revocation {
  import opened Wrappers
  import opened Protocol
  import opened Interleaved
  import opened Serial
  import opened Exclusivity
  import opened Scenarios

  /** About to delete the user's link, or to save a refreshed record over it. */
  predicate Settles(pc: Pc, user: Username) {
    || (pc.Unlink? && pc.unlink.UnlinkDelete? && pc.unlink.username == user)
    || (pc.Refresh? && (pc.refresh.RefreshRestamp? || pc.refresh.RefreshSave?) && pc.refresh.link.username == user)
  }

  ghost predicate Settling(requests: map<nat, Pc>, user: Username) {
    exists rid :: rid in requests && Settles(requests[rid], user)
  }

  ghost predicate LinksSettled(s: System) {
    forall id | id in s.g.links && s.g.links[id].auth.accessToken in s.g.revoked ::
      Settling(s.requests, s.g.links[id].username)
  }

  ghost predicate Unsettled(s: System, id: ObjectId)
    requires id in s.g.links
  {
    !Settling(s.requests, s.g.links[id].username)
  }

  /** A link nobody is about to touch has the token. */
  ghost predicate HeldUnsettled(s: System, token: Token) {
    exists id :: id in s.g.links && s.g.links[id].auth.accessToken == token && Unsettled(s, id)
  }

  /**
   The accesses that leave a link with a revoked token for good: storing or saving a link whose token was revoked, and
   the revocation, by a delete of a session or a cleanup, of a token that has become a link's.
   */
  ghost predicate Exposes(s: System, rid: nat, r: Reply)
    requires rid in s.requests
  {
    match s.requests[rid]
    case Finish(FinishInsert(_, _, link)) =>
      && !UsernameTaken(s.g, link.username) && link.auth.accessToken in s.g.revoked
      && !Settling(s.requests, link.username)
    case Refresh(RefreshSave(link)) =>
      && r.Found? && r.doc.Some? && link.auth.accessToken in s.g.revoked
      && !Settling(s.requests - {rid}, link.username)
    case Drop(DropRevoke(token)) => r.Revoked? && r.ok && HeldUnsettled(s, token)
    case Cleanup(CleanupRevoke(_, queue, _)) =>
      queue != [] && r.Revoked? && r.ok && HeldUnsettled(s, queue[0].auth.accessToken)
    case _ => false
  }

  // ---- Pending writes --------------------------------------------------------------------

  lemma SettlingStays(requests: map<nat, Pc>, rid: nat, pc: Pc, user: Username)
    requires Settling(requests, user)
    requires rid in requests ==> (Settles(requests[rid], user) ==> Settles(pc, user))
    ensures Settling(requests[rid := pc], user)
  {
    var other :| other in requests && Settles(requests[other], user);
    assert Settles(requests[rid := pc][other], user);
  }

  lemma SettlingBefore(requests: map<nat, Pc>, rid: nat, pc: Pc, user: Username)
    requires Settling(requests[rid := pc], user) && !Settles(pc, user)
    ensures Settling(requests - {rid}, user) && Settling(requests, user)
  {
    var other :| other in requests[rid := pc] && Settles(requests[rid := pc][other], user);
    assert other in requests - {rid} && Settles((requests - {rid})[other], user);
    assert Settles(requests[other], user);
  }

  lemma SettlingAfter(requests: map<nat, Pc>, rid: nat, pc: Pc, user: Username)
    requires Settling(requests - {rid}, user)
    ensures Settling(requests[rid := pc], user)
  {
    var other :| other in requests - {rid} && Settles((requests - {rid})[other], user);
    assert Settles(requests[rid := pc][other], user);
  }

  // ---- Each kind of access ---------------------------------------------------------------

  /** No link appears and no token is revoked, and the request goes on settling what it settled. */
  lemma QuietSettled(s: System, rid: nat, h: Shared, pc: Pc)
    requires LinksSettled(s) && rid in s.requests && Submap(h.links, s.g.links) && h.revoked == s.g.revoked
    requires forall user :: Settles(s.requests[rid], user) ==> Settles(pc, user)
    ensures LinksSettled(System(h, s.requests[rid := pc]))
  {
    forall id | id in h.links && h.links[id].auth.accessToken in h.revoked
      ensures Settling(s.requests[rid := pc], h.links[id].username) {
      SettlingStays(s.requests, rid, pc, h.links[id].username);
    }
  }

  /** A token is revoked and the request then settles nothing. */
  lemma RevokeSettledIff(s: System, rid: nat, token: Token, pc: Pc, h: Shared)
    requires LinksSettled(s) && rid in s.requests && h == s.g.(revoked := s.g.revoked + {token})
    requires forall user :: !Settles(s.requests[rid], user) && !Settles(pc, user)
    ensures LinksSettled(System(h, s.requests[rid := pc])) <==> !HeldUnsettled(s, token)
  {
    var after := s.requests[rid := pc];
    forall id | id in h.links && h.links[id].auth.accessToken in h.revoked && Settling(s.requests, h.links[id].username)
      ensures Settling(after, h.links[id].username) {
      SettlingStays(s.requests, rid, pc, h.links[id].username);
    }
    if HeldUnsettled(s, token) {
      var id :| id in s.g.links && s.g.links[id].auth.accessToken == token && Unsettled(s, id);
      if Settling(after, s.g.links[id].username) { SettlingBefore(s.requests, rid, pc, s.g.links[id].username); }
    }
  }

  /** A delete or a refresh revokes a link's token, and is then about to settle its user's link. */
  lemma RevokeOwnSettled(s: System, rid: nat, link: Link, pc: Pc, h: Shared)
    requires LinksSettled(s) && rid in s.requests && TokenOf(s.g.owner, link.auth.accessToken, link.username)
    requires forall id | id in s.g.links :: TokenOf(s.g.owner, s.g.links[id].auth.accessToken, s.g.links[id].username)
    requires h.links == s.g.links && h.revoked == s.g.revoked + {link.auth.accessToken}
    requires Settles(pc, link.username) && forall user :: !Settles(s.requests[rid], user)
    ensures LinksSettled(System(h, s.requests[rid := pc]))
  {
    var after := s.requests[rid := pc];
    assert after[rid] == pc && Settling(after, link.username);
    forall id | id in h.links && h.links[id].auth.accessToken in h.revoked
      ensures Settling(after, h.links[id].username) {
      if h.links[id].auth.accessToken in s.g.revoked { SettlingStays(s.requests, rid, pc, h.links[id].username); }
    }
  }

  lemma InsertSettledIff(s: System, rid: nat, oid: ObjectId, link: Link, pc: Pc, h: Shared)
    requires LinksSettled(s) && rid in s.requests && oid !in s.g.links
    requires h.links == s.g.links[oid := link] && h.revoked == s.g.revoked
    requires forall user :: !Settles(s.requests[rid], user) && !Settles(pc, user)
    ensures LinksSettled(System(h, s.requests[rid := pc])) <==>
            (link.auth.accessToken in s.g.revoked ==> Settling(s.requests, link.username))
  {
    var after := s.requests[rid := pc];
    forall id | id in s.g.links && s.g.links[id].auth.accessToken in s.g.revoked
      ensures Settling(after, s.g.links[id].username) {
      SettlingStays(s.requests, rid, pc, s.g.links[id].username);
    }
    if Settling(s.requests, link.username) { SettlingStays(s.requests, rid, pc, link.username); }
    if Settling(after, link.username) { SettlingBefore(s.requests, rid, pc, link.username); }
    assert h.links[oid] == link;
  }

  /** The delete of a user's link: with the index that is all the user had. */
  lemma DeleteSettled(s: System, rid: nat, user: Username, r: Reply, h: Shared)
    requires LinksSettled(s) && UsernamesUnique(s.g.links) && FindsLink(s.g, ByUsername(user), r)
    requires rid in s.requests && s.requests[rid] == Unlink(UnlinkDelete(user))
    requires h.revoked == s.g.revoked && h.links == if r.doc.None? then s.g.links else s.g.links - {r.doc.value}
    ensures LinksSettled(System(h, s.requests[rid := Done]))
  {
    forall id | id in h.links && h.links[id].auth.accessToken in h.revoked
      ensures Settling(s.requests[rid := Done], h.links[id].username) {
      assert HasKey(s.g.links[id], ByUsername(user)) <==> s.g.links[id].username == user;
      SettlingStays(s.requests, rid, Done, h.links[id].username);
    }
  }

  lemma SaveSettledIff(s: System, rid: nat, link: Link, id: ObjectId, h: Shared)
    requires LinksSettled(s) && UsernamesUnique(s.g.links) && id in s.g.links && s.g.links[id].username == link.username
    requires rid in s.requests && s.requests[rid] == Refresh(RefreshSave(link))
    requires h.revoked == s.g.revoked && h.links == s.g.links[id := link]
    ensures LinksSettled(System(h, s.requests[rid := Done])) <==>
            (link.auth.accessToken in s.g.revoked ==> Settling(s.requests - {rid}, link.username))
  {
    var after := s.requests[rid := Done];
    forall a | a in s.g.links && a != id && s.g.links[a].auth.accessToken in s.g.revoked
      ensures Settling(after, s.g.links[a].username) {
      SettlingStays(s.requests, rid, Done, s.g.links[a].username);
    }
    if Settling(s.requests - {rid}, link.username) { SettlingAfter(s.requests, rid, Done, link.username); }
    if Settling(after, link.username) { SettlingBefore(s.requests, rid, Done, link.username); }
    assert h.links[id] == link;
  }

  // ---- Every access ----------------------------------------------------------------------

  lemma FinishSettledIff(cfg: Config, s: System, rid: nat, r: Reply)
    requires LinksSettled(s) && s.g.uniqueIndex && Legal(s, Act(rid, r)) && s.requests[rid].Finish?
    ensures LinksSettled(Take(cfg, s, Act(rid, r))) <==> !Exposes(s, rid, r)
  {
    var pc := s.requests[rid].finish;
    var n := FinishNext(cfg, s.g, pc, r);
    if pc.FinishInsert? && !UsernameTaken(s.g, pc.link.username) {
      InsertSettledIff(s, rid, r.newOid, pc.link, n.pc, n.g);
    } else {
      QuietSettled(s, rid, n.g, n.pc);
    }
  }

  lemma DropSettledIff(cfg: Config, s: System, rid: nat, r: Reply)
    requires LinksSettled(s) && Legal(s, Act(rid, r)) && s.requests[rid].Drop?
    ensures LinksSettled(Take(cfg, s, Act(rid, r))) <==> !Exposes(s, rid, r)
  {
    var pc := s.requests[rid].drop;
    var n := DropNext(s.g, pc, r);
    if pc.DropRevoke? && r.ok {
      RevokeSettledIff(s, rid, pc.token, Done, n.g);
    } else {
      DropShrinks(s.g, pc, r);
      QuietSettled(s, rid, n.g, n.pc);
    }
  }

  lemma CleanupSettledIff(cfg: Config, s: System, rid: nat, r: Reply)
    requires LinksSettled(s) && Legal(s, Act(rid, r)) && s.requests[rid].Cleanup?
    ensures LinksSettled(Take(cfg, s, Act(rid, r))) <==> !Exposes(s, rid, r)
  {
    var pc := s.requests[rid].cleanup;
    var n := CleanupNext(s.g, pc, r);
    if pc.CleanupRevoke? && pc.queue != [] && r.ok {
      RevokeSettledIff(s, rid, pc.queue[0].auth.accessToken, n.pc, n.g);
    } else {
      CleanupShrinks(s.g, pc, r);
      assert n.g.revoked == s.g.revoked;
      QuietSettled(s, rid, n.g, n.pc);
    }
  }

  lemma UnlinkSettled(cfg: Config, s: System, rid: nat, r: Reply)
    requires LinksSettled(s) && s.g.uniqueIndex && SystemGood(cfg, s)
    requires Legal(s, Act(rid, r)) && s.requests[rid].Unlink?
    ensures LinksSettled(Take(cfg, s, Act(rid, r)))
  {
    var pc := s.requests[rid].unlink;
    var n := UnlinkNext(s.g, pc, r);
    match pc {
      case UnlinkRevoke(link) =>
        assert Holds(cfg, s.g, s.requests[rid]);
        if r.ok { RevokeOwnSettled(s, rid, link, n.pc, n.g); } else { QuietSettled(s, rid, n.g, n.pc); }
      case UnlinkDelete(user) => DeleteSettled(s, rid, user, r, n.g);
      case UnlinkCheck(_, _) => QuietSettled(s, rid, n.g, n.pc);
    }
  }

  lemma RefreshSettledIff(cfg: Config, s: System, rid: nat, r: Reply)
    requires LinksSettled(s) && s.g.uniqueIndex && SystemGood(cfg, s)
    requires Legal(s, Act(rid, r)) && s.requests[rid].Refresh?
    ensures LinksSettled(Take(cfg, s, Act(rid, r))) <==> !Exposes(s, rid, r)
  {
    match s.requests[rid].refresh {
      case RefreshSave(link) => RefreshSaveSettledIff(cfg, s, rid, link, r);
      case RefreshCall(_, _) =>
        if r.auth.Some? { RefreshCallSettled(cfg, s, rid, r); } else { RefreshQuietSettled(cfg, s, rid, r); }
      case _ => RefreshQuietSettled(cfg, s, rid, r);
    }
  }

  lemma RefreshQuietSettled(cfg: Config, s: System, rid: nat, r: Reply)
    requires LinksSettled(s) && Legal(s, Act(rid, r)) && s.requests[rid].Refresh?
    requires var pc := s.requests[rid].refresh; !pc.RefreshSave? && (pc.RefreshCall? ==> r.auth.None?)
    ensures LinksSettled(Take(cfg, s, Act(rid, r)))
  {
    var n := RefreshNext(cfg, s.g, s.requests[rid].refresh, r);
    assert n.g == s.g.(clock := n.g.clock);
    QuietSettled(s, rid, n.g, n.pc);
  }

  lemma RefreshCallSettled(cfg: Config, s: System, rid: nat, r: Reply)
    requires LinksSettled(s) && SystemGood(cfg, s) && Legal(s, Act(rid, r)) && s.requests[rid].Refresh?
    requires s.requests[rid].refresh.RefreshCall? && r.auth.Some?
    ensures LinksSettled(Take(cfg, s, Act(rid, r)))
  {
    var pc := s.requests[rid].refresh;
    var n := RefreshNext(cfg, s.g, pc, r);
    assert Holds(cfg, s.g, s.requests[rid]);
    RevokeOwnSettled(s, rid, pc.link, n.pc, n.g);
  }

  lemma RefreshSaveSettledIff(cfg: Config, s: System, rid: nat, link: Link, r: Reply)
    requires LinksSettled(s) && UsernamesUnique(s.g.links) && Legal(s, Act(rid, r))
    requires s.requests[rid] == Refresh(RefreshSave(link))
    ensures LinksSettled(Take(cfg, s, Act(rid, r))) <==> !Exposes(s, rid, r)
  {
    var n := RefreshNext(cfg, s.g, RefreshSave(link), r);
    if r.doc.Some? {
      SaveSettledIff(s, rid, link, r.doc.value, n.g);
    } else {
      forall id | id in s.g.links && s.g.links[id].auth.accessToken in s.g.revoked
        ensures Settling(s.requests[rid := Done], s.g.links[id].username) {
        assert !HasKey(s.g.links[id], ByUsername(link.username));
        SettlingStays(s.requests, rid, Done, s.g.links[id].username);
      }
    }
  }

  lemma OtherSettled(cfg: Config, s: System, rid: nat, r: Reply)
    requires LinksSettled(s) && Legal(s, Act(rid, r))
    requires var pc := s.requests[rid]; pc.Create? || pc.Start? || pc.Continue? || pc.Manage?
    ensures LinksSettled(Take(cfg, s, Act(rid, r)))
  {
    var n := Next(cfg, s.g, s.requests[rid], r);
    match s.requests[rid] {
      case Create(p) => CreateKeepsLinks(cfg, s.g, p, r);
      case Start(p) => StartKeepsLinks(s.g, p, r);
      case Continue(p) => ContinueKeepsLinks(s.g, p, r);
      case Manage(p) => ManageKeepsLinks(s.g, p, r);
    }
    QuietSettled(s, rid, n.g, n.pc);
  }

  lemma CreateKeepsLinks(cfg: Config, g: Shared, pc: CreatePc, r: Reply)
    requires CreateEnabled(g, pc, r)
    ensures CreateNext(cfg, g, pc, r).g.links == g.links && CreateNext(cfg, g, pc, r).g.revoked == g.revoked
  {
  }

  lemma StartKeepsLinks(g: Shared, pc: StartPc, r: Reply)
    requires StartEnabled(g, pc, r)
    ensures StartNext(g, pc, r).g.links == g.links && StartNext(g, pc, r).g.revoked == g.revoked
  {
  }

  lemma ContinueKeepsLinks(g: Shared, pc: ContinuePc, r: Reply)
    requires ContinueEnabled(g, pc, r)
    ensures ContinueNext(g, pc, r).g.links == g.links && ContinueNext(g, pc, r).g.revoked == g.revoked
  {
  }

  lemma ManageKeepsLinks(g: Shared, pc: ManagePc, r: Reply)
    requires ManageEnabled(g, pc, r)
    ensures ManageNext(g, pc, r).g.links == g.links && ManageNext(g, pc, r).g.revoked == g.revoked
  {
  }

  /** An access keeps the links settled exactly when it is not one of those that expose a link. */
  lemma AccessSettledIff(cfg: Config, s: System, rid: nat, r: Reply)
    requires SystemGood(cfg, s) && s.g.uniqueIndex && LinksSettled(s) && Legal(s, Act(rid, r))
    ensures LinksSettled(Take(cfg, s, Act(rid, r))) <==> !Exposes(s, rid, r)
  {
    match s.requests[rid] {
      case Finish(_) => FinishSettledIff(cfg, s, rid, r);
      case Drop(_) => DropSettledIff(cfg, s, rid, r);
      case Cleanup(_) => CleanupSettledIff(cfg, s, rid, r);
      case Unlink(_) => UnlinkSettled(cfg, s, rid, r);
      case Refresh(_) => RefreshSettledIff(cfg, s, rid, r);
      case _ => OtherSettled(cfg, s, rid, r);
    }
  }

  // ---- Whole runs ------------------------------------------------------------------------

  ghost predicate MoveExposes(s: System, m: Move) {
    m.Act? && m.rid in s.requests && Exposes(s, m.rid, m.reply)
  }

  ghost predicate NoneExposes(cfg: Config, s: System, moves: seq<Move>)
    requires Runs(cfg, s, moves)
    decreases |moves|
  {
    |moves| == 0 || (!MoveExposes(s, moves[0]) && NoneExposes(cfg, Take(cfg, s, moves[0]), moves[1..]))
  }

  ghost predicate SettledThroughout(cfg: Config, s: System, moves: seq<Move>)
    requires Runs(cfg, s, moves)
    decreases |moves|
  {
    LinksSettled(s) && (|moves| == 0 || SettledThroughout(cfg, Take(cfg, s, moves[0]), moves[1..]))
  }

  lemma {:induction false} RunSettledIff(cfg: Config, s: System, moves: seq<Move>)
    requires SystemGood(cfg, s) && s.g.uniqueIndex && LinksSettled(s) && Runs(cfg, s, moves)
    ensures SettledThroughout(cfg, s, moves) <==> NoneExposes(cfg, s, moves)
    ensures NoneExposes(cfg, s, moves) ==> LinksSettled(After(cfg, s, moves))
    decreases |moves|
  {
    if |moves| > 0 {
      var t := Take(cfg, s, moves[0]);
      MoveKeeps(cfg, s, moves[0]);
      match moves[0] {
        case Begin(rid, pc) =>
          forall id | id in s.g.links && s.g.links[id].auth.accessToken in s.g.revoked
            ensures Settling(t.requests, s.g.links[id].username) {
            SettlingStays(s.requests, rid, pc, s.g.links[id].username);
          }
        case Act(rid, r) => AccessSettledIff(cfg, s, rid, r);
      }
      if LinksSettled(t) { RunSettledIff(cfg, t, moves[1..]); }
    }
  }

  /**
   With the unique index, in every interleaving, the links stay settled throughout exactly when no access exposes one;
   and then no link holds a revoked token once all requests are done.
   */
  lemma LinksSettledIff(cfg: Config, clock: int, moves: seq<Move>)
    requires Runs(cfg, System(Empty(true, clock), map[]), moves)
    ensures SettledThroughout(cfg, System(Empty(true, clock), map[]), moves) <==>
            NoneExposes(cfg, System(Empty(true, clock), map[]), moves)
    ensures NoneExposes(cfg, System(Empty(true, clock), map[]), moves) ==>
              var s := After(cfg, System(Empty(true, clock), map[]), moves);
              (forall rid | rid in s.requests :: s.requests[rid].Done?) ==> LinksUnrevoked(s.g.links, s.g.revoked)
  {
    RunSettledIff(cfg, System(Empty(true, clock), map[]), moves);
    var s := After(cfg, System(Empty(true, clock), map[]), moves);
    if LinksSettled(s) && forall rid | rid in s.requests :: s.requests[rid].Done? {
      forall id | id in s.g.links ensures s.g.links[id].auth.accessToken !in s.g.revoked {
        assert !Settling(s.requests, s.g.links[id].username);
      }
    }
  }

  // ---- A delete of a session that was finished meanwhile ---------------------------------

  /** A delete that has read its session, while the session is finished into a link. */
  lemma OvertakenDrop(cfg: Config, clock: int, user: Username, auth: OrcidAuth) returns (moves: seq<Move>, rid: nat)
    ensures Runs(cfg, System(Empty(true, clock), map[]), moves)
    ensures var s := After(cfg, System(Empty(true, clock), map[]), moves);
            && rid in s.requests && s.requests[rid].Drop? && s.requests[rid].drop.DropDelete?
            && s.requests[rid].drop.session.auth == auth && s.g.completed == map[]
            && (forall k | k in s.requests && k != rid :: s.requests[k].Done?)
            && exists id :: id in s.g.links && s.g.links[id].auth == auth
  {
    var g := Empty(true, clock);
    var options := StartOptions(None, false, "");
    var serial := CompleteSession(cfg, g, "s", 0, user, options, auth);
    var h := WithCompleted(cfg, g, "s", 0, user, options, auth);
    var a := FromTheStart(cfg, g, serial);
    var s1 := After(cfg, System(g, map[]), a);
    rid := FreshId(s1.requests.Keys);
    var check, m := Drop(DropCheck("s", user)), Moment(h, Drop(DropDelete(h.completed[0])));
    AnswerCons(cfg, Moment(h, check), Found(Some(0)), []);
    var b := BeginAndAnswer(cfg, s1, rid, check, [Found(Some(0))] + []);
    var s2 := After(cfg, s1, b);
    assert s2 == System(h, s1.requests[rid := m.pc]);
    var replies, k := WholeFinish(cfg, h, 0, 0);
    var c := BeginAndAnswer(cfg, s2, rid + 1, Finish(FinishCheck("s", user)), replies);
    assert k.links[0].auth == auth;
    AppendMoves(cfg, s1, b, c);
    AppendMoves(cfg, System(g, map[]), a, b + c);
    moves := a + (b + c);
  }

  /** The overtaken delete finds no session and revokes the token all the same, which is the link's by now. */
  lemma LateDropExposes(cfg: Config, clock: int, user: Username, auth: OrcidAuth) returns (moves: seq<Move>)
    ensures Runs(cfg, System(Empty(true, clock), map[]), moves)
    ensures var s := After(cfg, System(Empty(true, clock), map[]), moves);
            (forall rid | rid in s.requests :: s.requests[rid].Done?) && !LinksUnrevoked(s.g.links, s.g.revoked)
    ensures !NoneExposes(cfg, System(Empty(true, clock), map[]), moves)
  {
    var s0 := System(Empty(true, clock), map[]);
    var first, rid := OvertakenDrop(cfg, clock, user, auth);
    var s := After(cfg, s0, first);
    var t := Take(cfg, s, Act(rid, Found(None)));
    PrependMove(cfg, t, Act(rid, Revoked(true)), []);
    PrependMove(cfg, s, Act(rid, Found(None)), [Act(rid, Revoked(true))] + []);
    AppendMoves(cfg, s0, first, [Act(rid, Found(None))] + ([Act(rid, Revoked(true))] + []));
    moves := first + ([Act(rid, Found(None))] + ([Act(rid, Revoked(true))] + []));
    LinksSettledIff(cfg, clock, moves);
  }
}
