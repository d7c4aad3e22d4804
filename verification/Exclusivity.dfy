/**
 When interleaved requests keep a session in one collection.

 A move has a session in two collections between its insert and its delete. So the question is whether every session
 found in two of them is still going to be deleted from the earlier one: whether the store is *covered*. Exactly one
 access breaks that, the insert of a start that was overtaken by a continue.
 */
module Exclusivity {
  import opened Protocol
  import opened Interleaved
  import opened Serial

  ghost predicate Starting(requests: map<nat, Pc>, sid: SessionId) {
    exists rid :: rid in requests && requests[rid] == Start(StartDelete(sid))
  }

  ghost predicate Continuing(requests: map<nat, Pc>, sid: SessionId) {
    exists rid :: rid in requests && requests[rid] == Continue(ContinueDelete(sid))
  }

  ghost predicate InitialCovered(g: Shared, requests: map<nat, Pc>) {
    forall id | id in g.initial && (id in g.started || id in g.completed) :: Starting(requests, g.initial[id].sessionId)
  }

  ghost predicate StartedCovered(g: Shared, requests: map<nat, Pc>) {
    forall id | id in g.started && id in g.completed :: Continuing(requests, g.started[id].base.sessionId)
  }

  /** A continue about to insert its session has seen the start of it that is still to delete, if there is one. */
  ghost predicate InsertsCovered(g: Shared, requests: map<nat, Pc>) {
    forall rid | rid in requests && requests[rid].Continue? && requests[rid].resume.ContinueInsert? ::
      InsertCovered(g, requests, requests[rid].resume.oid)
  }

  ghost predicate InsertCovered(g: Shared, requests: map<nat, Pc>, id: ObjectId) {
    id in g.initial ==> Starting(requests, g.initial[id].sessionId)
  }

  ghost predicate Covered(s: System) {
    InitialCovered(s.g, s.requests) && StartedCovered(s.g, s.requests) && InsertsCovered(s.g, s.requests)
  }

  /** The insert of a start whose session is completed meanwhile, with no continue left that would delete it again. */
  ghost predicate Overtaken(s: System, m: Move) {
    && m.Act? && m.rid in s.requests && s.requests[m.rid].Start? && s.requests[m.rid].start.StartInsert?
    && var pc := s.requests[m.rid].start;
       pc.oid !in s.g.started && pc.oid in s.g.completed && !Continuing(s.requests, pc.doc.base.sessionId)
  }

  // ---- Pending deletes -------------------------------------------------------------------

  lemma StartingStays(requests: map<nat, Pc>, rid: nat, pc: Pc, sid: SessionId)
    requires Starting(requests, sid) && (rid in requests ==> requests[rid] != Start(StartDelete(sid)))
    ensures Starting(requests[rid := pc], sid)
  {
    var other :| other in requests && requests[other] == Start(StartDelete(sid));
    assert requests[rid := pc][other] == Start(StartDelete(sid));
  }

  lemma ContinuingStays(requests: map<nat, Pc>, rid: nat, pc: Pc, sid: SessionId)
    requires Continuing(requests, sid) && (rid in requests ==> requests[rid] != Continue(ContinueDelete(sid)))
    ensures Continuing(requests[rid := pc], sid)
  {
    var other :| other in requests && requests[other] == Continue(ContinueDelete(sid));
    assert requests[rid := pc][other] == Continue(ContinueDelete(sid));
  }

  lemma ContinuingBefore(requests: map<nat, Pc>, rid: nat, pc: Pc, sid: SessionId)
    requires Continuing(requests[rid := pc], sid) && pc != Continue(ContinueDelete(sid))
    ensures Continuing(requests, sid)
  {
    var other :| other in requests[rid := pc] && requests[rid := pc][other] == Continue(ContinueDelete(sid));
    assert requests[other] == Continue(ContinueDelete(sid));
  }

  predicate Deletes(pc: Pc) {
    (pc.Start? && pc.start.StartDelete?) || (pc.Continue? && pc.resume.ContinueDelete?)
  }

  predicate Inserts(pc: Pc) {
    pc.Continue? && pc.resume.ContinueInsert?
  }

  /** Removing documents, and every access that changes no collection. */
  lemma ShrinkingCovered(s: System, rid: nat, h: Shared, pc: Pc)
    requires Covered(s) && (rid in s.requests ==> !Deletes(s.requests[rid]))
    requires Submap(h.initial, s.g.initial) && Submap(h.started, s.g.started) && Submap(h.completed, s.g.completed)
    requires Inserts(pc) ==> InsertCovered(s.g, s.requests, pc.resume.oid)
    ensures Covered(System(h, s.requests[rid := pc]))
  {
    var after := s.requests[rid := pc];
    forall id | id in h.initial && (id in h.started || id in h.completed)
      ensures Starting(after, h.initial[id].sessionId) {
      StartingStays(s.requests, rid, pc, s.g.initial[id].sessionId);
    }
    forall id | id in h.started && id in h.completed ensures Continuing(after, h.started[id].base.sessionId) {
      ContinuingStays(s.requests, rid, pc, s.g.started[id].base.sessionId);
    }
    forall r | r in after && Inserts(after[r]) ensures InsertCovered(h, after, after[r].resume.oid) {
      var id := after[r].resume.oid;
      if id in h.initial { StartingStays(s.requests, rid, pc, s.g.initial[id].sessionId); }
    }
  }

  lemma CreateCovered(s: System, rid: nat, oid: ObjectId, session: Session, h: Shared)
    requires Covered(s) && SessionsGood(s.g) && oid !in s.g.sessionOf
    requires rid in s.requests && !Deletes(s.requests[rid])
    requires forall r | r in s.requests && Inserts(s.requests[r]) :: s.requests[r].resume.oid in s.g.sessionOf
    requires h.initial == s.g.initial[oid := session] && h.started == s.g.started && h.completed == s.g.completed
    ensures Covered(System(h, s.requests[rid := Done]))
  {
    assert oid !in s.g.started && oid !in s.g.completed;
    ShrinkingCovered(s, rid, s.g, Done);
  }

  lemma StartInsertCovered(s: System, rid: nat, oid: ObjectId, doc: Started, h: Shared)
    requires Covered(s) && SessionsGood(s.g) && IsBorn(s.g.born, oid, doc.base)
    requires rid in s.requests && s.requests[rid] == Start(StartInsert(oid, doc)) && oid !in s.g.started
    requires h == s.g.(started := s.g.started[oid := doc])
    ensures var t := System(h, s.requests[rid := Start(StartDelete(doc.base.sessionId))]);
            Covered(t) <==> !Overtaken(s, Act(rid, Proceed))
  {
    var sid := doc.base.sessionId;
    var pc := Start(StartDelete(sid));
    var after := s.requests[rid := pc];
    ShrinkingCovered(s, rid, s.g, pc);
    assert after[rid] == pc && Starting(after, sid);
    if oid in s.g.completed {
      if Continuing(s.requests, sid) { ContinuingStays(s.requests, rid, pc, sid); }
      if Continuing(after, sid) { ContinuingBefore(s.requests, rid, pc, sid); }
    }
  }

  lemma ContinueInsertCovered(s: System, rid: nat, oid: ObjectId, doc: Completed, h: Shared)
    requires Covered(s) && SessionsGood(s.g) && IsBorn(s.g.born, oid, doc.base)
    requires rid in s.requests && s.requests[rid] == Continue(ContinueInsert(oid, doc))
    requires h == s.g.(completed := s.g.completed[oid := doc])
    ensures Covered(System(h, s.requests[rid := Continue(ContinueDelete(doc.base.sessionId))]))
  {
    var sid := doc.base.sessionId;
    var pc := Continue(ContinueDelete(sid));
    ShrinkingCovered(s, rid, s.g, pc);
    assert s.requests[rid := pc][rid] == pc && Continuing(s.requests[rid := pc], sid);
    assert InsertCovered(s.g, s.requests, oid);
    if oid in s.g.initial { StartingStays(s.requests, rid, pc, sid); }
  }

  lemma StartDeleteCovered(s: System, rid: nat, sid: SessionId, r: Reply, h: Shared)
    requires Covered(s) && SessionsGood(s.g)
    requires rid in s.requests && s.requests[rid] == Start(StartDelete(sid)) && FindsInitial(s.g, sid, r)
    requires h == if r.doc.None? then s.g else s.g.(initial := s.g.initial - {r.doc.value})
    ensures Covered(System(h, s.requests[rid := Done]))
  {
    var after := s.requests[rid := Done];
    forall id | id in h.initial && Starting(s.requests, h.initial[id].sessionId)
      ensures Starting(after, h.initial[id].sessionId) {
      StartingStays(s.requests, rid, Done, h.initial[id].sessionId);
    }
    forall id | id in h.started && id in h.completed ensures Continuing(after, h.started[id].base.sessionId) {
      ContinuingStays(s.requests, rid, Done, h.started[id].base.sessionId);
    }
    forall o | o in after && Inserts(after[o]) ensures InsertCovered(h, after, after[o].resume.oid) {
      assert InsertCovered(s.g, s.requests, s.requests[o].resume.oid);
    }
  }

  lemma ContinueDeleteCovered(s: System, rid: nat, sid: SessionId, r: Reply, h: Shared)
    requires Covered(s) && SessionsGood(s.g)
    requires rid in s.requests && s.requests[rid] == Continue(ContinueDelete(sid)) && FindsStarted(s.g, sid, r)
    requires h == if r.doc.None? then s.g else s.g.(started := s.g.started - {r.doc.value})
    ensures Covered(System(h, s.requests[rid := Done]))
  {
    var after := s.requests[rid := Done];
    forall id | id in h.initial && Starting(s.requests, h.initial[id].sessionId)
      ensures Starting(after, h.initial[id].sessionId) {
      StartingStays(s.requests, rid, Done, h.initial[id].sessionId);
    }
    forall id | id in h.started && id in h.completed ensures Continuing(after, h.started[id].base.sessionId) {
      ContinuingStays(s.requests, rid, Done, h.started[id].base.sessionId);
    }
    forall o | o in after && Inserts(after[o]) ensures InsertCovered(h, after, after[o].resume.oid) {
      assert InsertCovered(s.g, s.requests, s.requests[o].resume.oid);
    }
  }

  // ---- Every other access removes documents or leaves the collections alone --------------

  ghost predicate Shrinks(g: Shared, h: Shared) {
    && Submap(h.initial, g.initial) && Submap(h.started, g.started) && Submap(h.completed, g.completed)
    && h.sessionOf == g.sessionOf
  }

  predicate Adds(pc: Pc) {
    (pc.Create? && pc.create.CreateInsert?) || (pc.Start? && pc.start.StartInsert?) || Inserts(pc)
  }

  lemma CreateShrinks(cfg: Config, g: Shared, pc: CreatePc, r: Reply)
    requires CreateEnabled(g, pc, r) && !pc.CreateInsert?
    ensures Shrinks(g, CreateNext(cfg, g, pc, r).g) && CreateNext(cfg, g, pc, r).g.links == g.links
  {
  }

  lemma StartShrinks(g: Shared, pc: StartPc, r: Reply)
    requires StartEnabled(g, pc, r) && !pc.StartInsert?
    ensures Shrinks(g, StartNext(g, pc, r).g) && StartNext(g, pc, r).g.links == g.links
  {
    assert StartNext(g, pc, r).g == g.(initial := StartNext(g, pc, r).g.initial);
  }

  lemma ContinueShrinks(g: Shared, pc: ContinuePc, r: Reply)
    requires ContinueEnabled(g, pc, r) && !pc.ContinueInsert?
    ensures Shrinks(g, ContinueNext(g, pc, r).g) && ContinueNext(g, pc, r).g.links == g.links
  {
    var h := ContinueNext(g, pc, r).g;
    assert h == g.(started := h.started, owner := h.owner, ended := h.ended);
  }

  lemma FinishShrinks(cfg: Config, g: Shared, pc: FinishPc, r: Reply)
    requires FinishEnabled(g, pc, r)
    ensures Shrinks(g, FinishNext(cfg, g, pc, r).g)
  {
    var h := FinishNext(cfg, g, pc, r).g;
    if pc.FinishDelete? {
      assert h == g.(completed := h.completed, ended := h.ended);
    } else {
      assert h == g.(links := h.links, clock := h.clock, origin := h.origin);
    }
  }

  lemma DropShrinks(g: Shared, pc: DropPc, r: Reply)
    requires DropEnabled(g, pc, r)
    ensures Shrinks(g, DropNext(g, pc, r).g) && DropNext(g, pc, r).g.links == g.links
  {
    var h := DropNext(g, pc, r).g;
    if pc.DropDelete? {
      assert h == if r.doc.None? then g else g.(completed := g.completed - {r.doc.value}, ended := h.ended);
    } else if pc.DropRevoke? {
      assert h == if r.ok then g.(revoked := g.revoked + {pc.token}) else g;
    }
  }

  lemma ManageShrinks(g: Shared, pc: ManagePc, r: Reply)
    requires ManageEnabled(g, pc, r)
    ensures Shrinks(g, ManageNext(g, pc, r).g) && ManageNext(g, pc, r).g.links == g.links
  {
    var h := ManageNext(g, pc, r).g;
    match pc {
      case DropInitial(_) => assert h == g.(initial := h.initial, ended := h.ended);
      case DropStarted(_) => assert h == g.(started := h.started, ended := h.ended);
      case DropCompleted(_) => assert h == g.(completed := h.completed, ended := h.ended);
    }
  }

  lemma CleanupShrinks(g: Shared, pc: CleanupPc, r: Reply)
    requires CleanupEnabled(g, pc, r)
    ensures Shrinks(g, CleanupNext(g, pc, r).g) && CleanupNext(g, pc, r).g.links == g.links
  {
    var h := CleanupNext(g, pc, r).g;
    match pc {
      case CleanupInitial(_) => assert h == g.(initial := h.initial, ended := h.ended);
      case CleanupStarted(_) => assert h == g.(started := h.started, ended := h.ended);
      case CleanupCompleted(_) => assert h == g.(completed := h.completed, ended := h.ended);
      case _ => assert h == g.(clock := h.clock, revoked := h.revoked);
    }
  }

  lemma UnlinkShrinks(g: Shared, pc: UnlinkPc, r: Reply)
    requires UnlinkEnabled(g, pc, r)
    ensures Shrinks(g, UnlinkNext(g, pc, r).g) && Submap(UnlinkNext(g, pc, r).g.links, g.links)
  {
    var h := UnlinkNext(g, pc, r).g;
    assert h == g.(links := h.links, revoked := h.revoked);
  }

  lemma RefreshShrinks(cfg: Config, g: Shared, pc: RefreshPc, r: Reply)
    requires RefreshEnabled(g, pc, r)
    ensures Shrinks(g, RefreshNext(cfg, g, pc, r).g)
  {
    var h := RefreshNext(cfg, g, pc, r).g;
    if pc.RefreshSave? {
      assert h == g.(links := h.links);
    } else {
      assert h == g.(owner := h.owner, revoked := h.revoked, clock := h.clock);
    }
  }

  lemma AccessShrinks(cfg: Config, g: Shared, pc: Pc, r: Reply)
    requires Enabled(g, pc, r) && !Adds(pc)
    ensures Shrinks(g, Next(cfg, g, pc, r).g)
    ensures !pc.Finish? && !pc.Refresh? ==> Submap(Next(cfg, g, pc, r).g.links, g.links)
  {
    match pc {
      case Create(p) => CreateShrinks(cfg, g, p, r);
      case Start(p) => StartShrinks(g, p, r);
      case Continue(p) => ContinueShrinks(g, p, r);
      case Finish(p) => FinishShrinks(cfg, g, p, r);
      case Drop(p) => DropShrinks(g, p, r);
      case Manage(p) => ManageShrinks(g, p, r);
      case Cleanup(p) => CleanupShrinks(g, p, r);
      case Unlink(p) => UnlinkShrinks(g, p, r);
      case Refresh(p) => RefreshShrinks(cfg, g, p, r);
    }
  }

  /** Only a continue's second find leads to its insert. */
  lemma InsertIsFound(cfg: Config, g: Shared, pc: Pc, r: Reply)
    requires Enabled(g, pc, r) && Inserts(Next(cfg, g, pc, r).pc)
    ensures pc.Continue? && pc.resume.ContinueFind? && Next(cfg, g, pc, r).pc.resume.oid in g.started
  {
  }

  lemma OtherCovered(cfg: Config, s: System, rid: nat, r: Reply)
    requires Covered(s) && Legal(s, Act(rid, r)) && !Adds(s.requests[rid]) && !Deletes(s.requests[rid])
    ensures Covered(Take(cfg, s, Act(rid, r)))
  {
    var pc := s.requests[rid];
    var n := Next(cfg, s.g, pc, r);
    AccessShrinks(cfg, s.g, pc, r);
    if Inserts(n.pc) { InsertIsFound(cfg, s.g, pc, r); }
    ShrinkingCovered(s, rid, n.g, n.pc);
  }

  lemma InsertsAreBorn(cfg: Config, s: System)
    requires SystemGood(cfg, s)
    ensures forall r | r in s.requests && Inserts(s.requests[r]) :: s.requests[r].resume.oid in s.g.sessionOf
  {
    forall r | r in s.requests && Inserts(s.requests[r]) ensures s.requests[r].resume.oid in s.g.sessionOf {
      assert Holds(cfg, s.g, s.requests[r]);
    }
  }

  /** An access keeps a covered store covered exactly when it is not the insert of an overtaken start. */
  lemma AccessCoveredIff(cfg: Config, s: System, rid: nat, r: Reply)
    requires SystemGood(cfg, s) && Covered(s) && Legal(s, Act(rid, r))
    ensures Covered(Take(cfg, s, Act(rid, r))) <==> !Overtaken(s, Act(rid, r))
  {
    var pc := s.requests[rid];
    SessionsAreGood(cfg, s.g);
    assert Holds(cfg, s.g, pc);
    var h := Next(cfg, s.g, pc, r).g;
    match pc {
      case Create(CreateInsert(_, _)) =>
        InsertsAreBorn(cfg, s);
        CreateCovered(s, rid, r.newOid, h.initial[r.newOid], h);
      case Start(StartInsert(oid, doc)) =>
        if oid in s.g.started { ShrinkingCovered(s, rid, s.g, Done); } else { StartInsertCovered(s, rid, oid, doc, h); }
      case Start(StartDelete(sid)) => StartDeleteCovered(s, rid, sid, r, h);
      case Continue(ContinueInsert(oid, doc)) =>
        if oid in s.g.completed { ShrinkingCovered(s, rid, s.g, Done); }
        else { ContinueInsertCovered(s, rid, oid, doc, h); }
      case Continue(ContinueDelete(sid)) => ContinueDeleteCovered(s, rid, sid, r, h);
      case _ => OtherCovered(cfg, s, rid, r);
    }
  }

  // ---- Whole runs ------------------------------------------------------------------------

  ghost predicate NoneOvertaken(cfg: Config, s: System, moves: seq<Move>)
    requires Runs(cfg, s, moves)
    decreases |moves|
  {
    |moves| == 0 || (!Overtaken(s, moves[0]) && NoneOvertaken(cfg, Take(cfg, s, moves[0]), moves[1..]))
  }

  lemma {:induction false} RunCovered(cfg: Config, s: System, moves: seq<Move>)
    requires SystemGood(cfg, s) && Covered(s) && Runs(cfg, s, moves) && NoneOvertaken(cfg, s, moves)
    ensures Covered(After(cfg, s, moves))
    decreases |moves|
  {
    if |moves| > 0 {
      MoveKeeps(cfg, s, moves[0]);
      match moves[0] {
        case Begin(rid, pc) => ShrinkingCovered(s, rid, s.g, pc);
        case Act(rid, r) => AccessCoveredIff(cfg, s, rid, r);
      }
      RunCovered(cfg, Take(cfg, s, moves[0]), moves[1..]);
    }
  }

  /**
   After any interleaving in which no start was overtaken, a session in two collections has a request about to delete it
   from the earlier one; so once all requests are done, every session is in one collection.
   */
  lemma ExclusiveUnlessOvertaken(cfg: Config, uniqueIndex: bool, clock: int, moves: seq<Move>)
    requires Runs(cfg, System(Empty(uniqueIndex, clock), map[]), moves)
    requires NoneOvertaken(cfg, System(Empty(uniqueIndex, clock), map[]), moves)
    ensures var s := After(cfg, System(Empty(uniqueIndex, clock), map[]), moves);
            && Covered(s)
            && ((forall rid | rid in s.requests :: s.requests[rid].Done?) ==> Exclusive(s.g))
  {
    RunCovered(cfg, System(Empty(uniqueIndex, clock), map[]), moves);
    var s := After(cfg, System(Empty(uniqueIndex, clock), map[]), moves);
    if forall rid | rid in s.requests :: s.requests[rid].Done? {
      forall id | id in s.g.initial ensures id !in s.g.started && id !in s.g.completed {
        assert !Starting(s.requests, s.g.initial[id].sessionId);
      }
      forall id | id in s.g.started ensures id !in s.g.completed {
        assert !Continuing(s.requests, s.g.started[id].base.sessionId);
      }
    }
  }
}
