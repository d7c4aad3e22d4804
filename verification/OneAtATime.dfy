/**
 Whole requests one at a time, whatever becomes of them: on every database, and with cleanups cut short as they come,
 a session is in one collection, its stage only advances and a token has one holder.
 */
module OneAtATime {
  import opened Protocol
  import opened Interleaved
  import opened Serial
  import opened Exclusivity

  // ---- One holder a token ----------------------------------------------------------------

  /** The completed sessions, without the one a finish has yet to delete. */
  ghost function Unfinished(g: Shared, pc: Pc): map<ObjectId, Completed> {
    if pc.Finish? && pc.finish.FinishDelete? then g.completed - DocOf(g, pc.finish.sessionId) else g.completed
  }

  ghost predicate HeldOnce(g: Shared, pc: Pc) {
    SingleHolders(Unfinished(g, pc), g.links)
  }

  ghost predicate StartSees(g: Shared, pc: StartPc) {
    pc.StartInsert? ==> pc.oid in g.initial
  }

  ghost predicate ContinueSees(g: Shared, pc: ContinuePc) {
    match pc
    case ContinueLookup(_, auth) => Unheld(g, auth.accessToken)
    case ContinueFind(_, auth) => Unheld(g, auth.accessToken)
    case ContinueInsert(oid, doc) => oid in g.started && Unheld(g, doc.auth.accessToken)
    case _ => true
  }

  ghost predicate FinishSees(g: Shared, pc: FinishPc) {
    match pc
    case FinishStamp(_, session) => IsStoredCompleted(g, session)
    case FinishInsert(sid, _, link) =>
      sid in g.born && g.born[sid].oid in g.completed && g.completed[g.born[sid].oid].auth == link.auth
    case _ => true
  }

  ghost predicate RefreshSees(g: Shared, pc: RefreshPc) {
    match pc
    case RefreshRestamp(_, auth, _) => Unheld(g, auth.accessToken)
    case RefreshSave(link) => Unheld(g, link.auth.accessToken)
    case _ => true
  }

  /** What a request has read and nobody else has changed. */
  ghost predicate Sees(g: Shared, pc: Pc) {
    match pc
    case Start(p) => StartSees(g, p)
    case Continue(p) => ContinueSees(g, p)
    case Finish(p) => FinishSees(g, p)
    case Refresh(p) => RefreshSees(g, p)
    case _ => true
  }

  /** Accesses that add no session and no link. */
  lemma RemovingHeldOnce(g: Shared, pc: Pc, h: Shared, next: Pc)
    requires HeldOnce(g, pc) && Submap(h.completed, Unfinished(g, pc)) && Submap(h.links, g.links)
    ensures HeldOnce(h, next)
  {
    HoldersRemove(Unfinished(g, pc), g.links, Unfinished(h, next), h.links);
  }

  lemma ContinueHeldOnce(g: Shared, pc: ContinuePc, r: Reply)
    requires SessionsGood(g) && HeldOnce(g, Continue(pc)) && ContinueSees(g, pc) && ContinueEnabled(g, pc, r)
    ensures var n := ContinueNext(g, pc, r); HeldOnce(n.g, n.pc) && Sees(n.g, n.pc)
  {
    var n := ContinueNext(g, pc, r);
    if pc.ContinueInsert? {
      if pc.oid !in g.completed { HoldersAdd(g.completed, g.links, pc.oid, pc.doc); }
    } else {
      assert n.g == g.(started := n.g.started, owner := n.g.owner, ended := n.g.ended);
    }
  }

  lemma FinishHeldOnce(cfg: Config, g: Shared, pc: FinishPc, r: Reply)
    requires SessionsGood(g) && HeldOnce(g, Finish(pc)) && FinishSees(g, pc) && FinishEnabled(g, pc, r)
    ensures var n := FinishNext(cfg, g, pc, r); HeldOnce(n.g, n.pc) && Sees(n.g, n.pc)
  {
    match pc {
      case FinishCheck(_, _) => if r.doc.Some? { StoredCompleted(g, r.doc.value); }
      case FinishStamp(_, _) =>
      case FinishInsert(sid, _, link) => HoldersMove(g.completed, g.links, g.born[sid].oid, r.newOid, link);
      case FinishDelete(sid, linkId) => FinishDeleteHeldOnce(cfg, g, sid, linkId, r);
    }
  }

  lemma FinishDeleteHeldOnce(cfg: Config, g: Shared, sid: SessionId, linkId: ObjectId, r: Reply)
    requires SessionsGood(g) && HeldOnce(g, Finish(FinishDelete(sid, linkId))) && FindsCompleted(g, sid, r)
    ensures var n := FinishNext(cfg, g, FinishDelete(sid, linkId), r); HeldOnce(n.g, n.pc)
  {
    var n := FinishNext(cfg, g, FinishDelete(sid, linkId), r);
    assert Unfinished(g, Finish(FinishDelete(sid, linkId))) == g.completed - DocOf(g, sid);
    forall id | id in DocOf(g, sid) ensures id !in n.g.completed {
      if id in g.completed { SameSession(g, sid, g.completed[id].base); }
    }
    RemovingHeldOnce(g, Finish(FinishDelete(sid, linkId)), n.g, Done);
  }

  lemma RefreshHeldOnce(cfg: Config, g: Shared, pc: RefreshPc, r: Reply)
    requires SessionsGood(g) && HeldOnce(g, Refresh(pc)) && RefreshSees(g, pc) && RefreshEnabled(g, pc, r)
    ensures var n := RefreshNext(cfg, g, pc, r); HeldOnce(n.g, n.pc) && Sees(n.g, n.pc)
  {
    var n := RefreshNext(cfg, g, pc, r);
    if !pc.RefreshSave? {
      assert n.g == g.(owner := n.g.owner, revoked := n.g.revoked, clock := n.g.clock);
    } else {
      assert n.g == if r.doc.None? then g else g.(links := g.links[r.doc.value := pc.link]);
    }
  }

  lemma AddsNoHolder(cfg: Config, g: Shared, pc: Pc, r: Reply)
    requires Enabled(g, pc, r) && Adds(pc) && !pc.Continue?
    ensures Next(cfg, g, pc, r).g.completed == g.completed && Next(cfg, g, pc, r).g.links == g.links
  {
  }

  lemma OtherHeldOnce(cfg: Config, g: Shared, pc: Pc, r: Reply)
    requires HeldOnce(g, pc) && Enabled(g, pc, r) && !pc.Continue? && !pc.Finish? && !pc.Refresh?
    ensures var n := Next(cfg, g, pc, r); HeldOnce(n.g, n.pc) && Sees(n.g, n.pc)
  {
    var n := Next(cfg, g, pc, r);
    if Adds(pc) { AddsNoHolder(cfg, g, pc, r); } else { AccessShrinks(cfg, g, pc, r); }
    RemovingHeldOnce(g, pc, n.g, n.pc);
    OtherSees(cfg, g, pc, r);
  }

  lemma OtherSees(cfg: Config, g: Shared, pc: Pc, r: Reply)
    requires Enabled(g, pc, r) && !pc.Continue? && !pc.Finish? && !pc.Refresh?
    ensures var n := Next(cfg, g, pc, r); Sees(n.g, n.pc)
  {
    if pc.Start? {
      assert StartNext(g, pc.start, r).pc.Start? && StartNext(g, pc.start, r).pc.start.StartInsert? ==>
             StartNext(g, pc.start, r).g == g;
    }
  }

  // ---- Every run -------------------------------------------------------------------------

  ghost function Only(m: Moment): System {
    System(m.g, map[0 := m.pc])
  }

  ghost predicate Orderly(cfg: Config, m: Moment) {
    && Invariant(cfg, m.g) && Holds(cfg, m.g, m.pc) && Covered(Only(m)) && HeldOnce(m.g, m.pc) && Sees(m.g, m.pc)
  }

  lemma NothingPending(pc: Pc, sid: SessionId)
    requires !Deletes(pc)
    ensures !Starting(map[0 := pc], sid) && !Continuing(map[0 := pc], sid)
  {
  }

  /** A start that runs alone is never overtaken. */
  lemma NeverOvertaken(m: Moment, r: Reply)
    requires Covered(Only(m)) && Sees(m.g, m.pc)
    ensures !Overtaken(Only(m), Act(0, r))
  {
    if m.pc.Start? && m.pc.start.StartInsert? {
      NothingPending(m.pc, m.g.initial[m.pc.start.oid].sessionId);
    }
  }

  lemma OnlyTakes(cfg: Config, m: Moment, r: Reply)
    requires Enabled(m.g, m.pc, r)
    ensures Legal(Only(m), Act(0, r)) && Take(cfg, Only(m), Act(0, r)) == Only(Next(cfg, m.g, m.pc, r))
  {
    var n := Next(cfg, m.g, m.pc, r);
    assert map[0 := m.pc][0 := n.pc] == map[0 := n.pc];
  }

  lemma OnlyGood(cfg: Config, m: Moment)
    requires Invariant(cfg, m.g) && Holds(cfg, m.g, m.pc)
    ensures SystemGood(cfg, Only(m))
  {
  }

  lemma AloneCovered(cfg: Config, m: Moment, r: Reply)
    requires Invariant(cfg, m.g) && Holds(cfg, m.g, m.pc) && Covered(Only(m)) && Sees(m.g, m.pc)
    requires Enabled(m.g, m.pc, r)
    ensures Covered(Only(Next(cfg, m.g, m.pc, r)))
  {
    NeverOvertaken(m, r);
    OnlyTakes(cfg, m, r);
    OnlyGood(cfg, m);
    AccessCoveredIff(cfg, Only(m), 0, r);
  }

  lemma AnswerOrderly(cfg: Config, m: Moment, r: Reply)
    requires Orderly(cfg, m) && Enabled(m.g, m.pc, r)
    ensures Orderly(cfg, Next(cfg, m.g, m.pc, r))
  {
    AloneCovered(cfg, m, r);
    Step(cfg, m.g, m.pc, r);
    SessionsAreGood(cfg, m.g);
    match m.pc {
      case Continue(p) => ContinueHeldOnce(m.g, p, r);
      case Finish(p) => FinishHeldOnce(cfg, m.g, p, r);
      case Refresh(p) => RefreshHeldOnce(cfg, m.g, p, r);
      case _ => OtherHeldOnce(cfg, m.g, m.pc, r);
    }
  }

  lemma OpenOrderly(cfg: Config, m: Moment, pc: Pc)
    requires Orderly(cfg, m) && m.pc.Done? && Fresh(pc)
    ensures Orderly(cfg, Moment(m.g, pc))
  {
    ShrinkingCovered(Only(m), 0, m.g, pc);
    assert map[0 := m.pc][0 := pc] == map[0 := pc];
  }

  lemma {:induction false} RunOrderly(cfg: Config, m: Moment, moves: seq<SerialMove>)
    requires Orderly(cfg, m) && SerialRuns(cfg, m, moves)
    ensures Orderly(cfg, SerialAfter(cfg, m, moves))
    decreases |moves|
  {
    if |moves| > 0 {
      match moves[0] {
        case Open(pc) => OpenOrderly(cfg, m, pc);
        case Answer(r) => AnswerOrderly(cfg, m, r);
      }
      RunOrderly(cfg, SerialTake(cfg, m, moves[0]), moves[1..]);
    }
  }

  lemma EmptyIsOrderly(cfg: Config, uniqueIndex: bool, clock: int)
    ensures Orderly(cfg, Moment(Empty(uniqueIndex, clock), Done))
  {
  }

  lemma DoneIsExclusive(cfg: Config, m: Moment)
    requires Orderly(cfg, m) && m.pc.Done?
    ensures Exclusive(m.g) && SingleHolders(m.g.completed, m.g.links)
  {
    var requests := Only(m).requests;
    forall id | id in m.g.initial ensures id !in m.g.started && id !in m.g.completed {
      assert !Starting(requests, m.g.initial[id].sessionId);
    }
    forall id | id in m.g.started ensures id !in m.g.completed {
      assert !Continuing(requests, m.g.started[id].base.sessionId);
    }
  }

  /**
   Between any two requests of any run, index or not and however its cleanups ended, a session is in one collection and
   an access token is held by one completed session or link.
   */
  lemma RequestsSeparate(cfg: Config, uniqueIndex: bool, clock: int, moves: seq<SerialMove>)
    requires SerialRuns(cfg, Moment(Empty(uniqueIndex, clock), Done), moves)
    requires SerialAfter(cfg, Moment(Empty(uniqueIndex, clock), Done), moves).pc.Done?
    ensures var g := SerialAfter(cfg, Moment(Empty(uniqueIndex, clock), Done), moves).g;
            Exclusive(g) && SingleHolders(g.completed, g.links)
  {
    EmptyIsOrderly(cfg, uniqueIndex, clock);
    RunOrderly(cfg, Moment(Empty(uniqueIndex, clock), Done), moves);
    DoneIsExclusive(cfg, SerialAfter(cfg, Moment(Empty(uniqueIndex, clock), Done), moves));
  }

  // ---- A session only advances -----------------------------------------------------------

  /** Documents enter a collection only from an earlier one, or as new sessions. */
  ghost predicate Flows(g: Shared, h: Shared) {
    && g.sessionOf.Keys <= h.sessionOf.Keys && Submap(g.born, h.born)
    && (forall id | id in h.initial :: id in g.initial || id !in g.sessionOf)
    && (forall id | id in h.started :: id in g.initial || id in g.started || id !in g.sessionOf)
    && (forall id | id in h.completed :: id in g.initial || id in g.started || id in g.completed || id !in g.sessionOf)
  }

  lemma FlowsOn(g: Shared, h: Shared, k: Shared)
    requires Flows(g, h) && Flows(h, k)
    ensures Flows(g, k)
  {
  }

  lemma InsertFlows(cfg: Config, g: Shared, pc: Pc, r: Reply)
    requires Sees(g, pc) && Enabled(g, pc, r) && Adds(pc) && Submap(g.born, Next(cfg, g, pc, r).g.born)
    ensures Flows(g, Next(cfg, g, pc, r).g)
  {
    var h := Next(cfg, g, pc, r).g;
    match pc {
      case Create(_) => assert h == g.(initial := h.initial, born := h.born, sessionOf := h.sessionOf);
      case Start(p) => assert h == if p.oid in g.started then g else g.(started := g.started[p.oid := p.doc]);
      case Continue(p) => assert h == if p.oid in g.completed then g else g.(completed := g.completed[p.oid := p.doc]);
    }
  }

  lemma ShrinksFlows(g: Shared, h: Shared)
    requires Shrinks(g, h) && Submap(g.born, h.born)
    ensures Flows(g, h)
  {
  }

  /** The three inserts add documents; every other access only shrinks the collections. */
  lemma AnswerFlows(cfg: Config, m: Moment, r: Reply)
    requires Orderly(cfg, m) && Enabled(m.g, m.pc, r)
    ensures Flows(m.g, Next(cfg, m.g, m.pc, r).g)
  {
    assert Submap(m.g.born, Next(cfg, m.g, m.pc, r).g.born) by { Step(cfg, m.g, m.pc, r); }
    if Adds(m.pc) {
      InsertFlows(cfg, m.g, m.pc, r);
    } else {
      AccessShrinks(cfg, m.g, m.pc, r);
      ShrinksFlows(m.g, Next(cfg, m.g, m.pc, r).g);
    }
  }

  lemma {:induction false} RunFlows(cfg: Config, m: Moment, moves: seq<SerialMove>)
    requires Orderly(cfg, m) && SerialRuns(cfg, m, moves)
    ensures Flows(m.g, SerialAfter(cfg, m, moves).g)
    decreases |moves|
  {
    if |moves| > 0 {
      var n := SerialTake(cfg, m, moves[0]);
      match moves[0] {
        case Open(pc) => OpenOrderly(cfg, m, pc);
        case Answer(r) => AnswerOrderly(cfg, m, r); AnswerFlows(cfg, m, r);
      }
      RunFlows(cfg, n, moves[1..]);
      FlowsOn(m.g, n.g, SerialAfter(cfg, m, moves).g);
    }
  }

  /** 0 before it is created, then initial, started, completed, and 4 once it is gone. */
  ghost function StageOf(g: Shared, sid: SessionId): nat {
    if sid !in g.born then 0
    else if g.born[sid].oid in g.initial then 1
    else if g.born[sid].oid in g.started then 2
    else if g.born[sid].oid in g.completed then 3
    else 4
  }

  lemma FlowsAdvance(g: Shared, h: Shared, sid: SessionId)
    requires Exclusive(g) && Exclusive(h) && Flows(g, h) && Registered(g.born, g.sessionOf)
    ensures StageOf(g, sid) <= StageOf(h, sid)
  {
  }

  /** From one moment between requests of any run to a later one, no session goes back to an earlier stage. */
  lemma StageOnlyAdvances(cfg: Config, uniqueIndex: bool, clock: int, first: seq<SerialMove>, later: seq<SerialMove>,
                          sid: SessionId)
    requires SerialRuns(cfg, Moment(Empty(uniqueIndex, clock), Done), first)
    requires SerialAfter(cfg, Moment(Empty(uniqueIndex, clock), Done), first).pc.Done?
    requires var m := SerialAfter(cfg, Moment(Empty(uniqueIndex, clock), Done), first);
             SerialRuns(cfg, m, later) && SerialAfter(cfg, m, later).pc.Done?
    ensures var m := SerialAfter(cfg, Moment(Empty(uniqueIndex, clock), Done), first);
            StageOf(m.g, sid) <= StageOf(SerialAfter(cfg, m, later).g, sid)
  {
    EmptyIsOrderly(cfg, uniqueIndex, clock);
    RunOrderly(cfg, Moment(Empty(uniqueIndex, clock), Done), first);
    var m := SerialAfter(cfg, Moment(Empty(uniqueIndex, clock), Done), first);
    RunOrderly(cfg, m, later);
    RunFlows(cfg, m, later);
    DoneIsExclusive(cfg, m);
    DoneIsExclusive(cfg, SerialAfter(cfg, m, later));
    FlowsAdvance(m.g, SerialAfter(cfg, m, later).g, sid);
  }
}
