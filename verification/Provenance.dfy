/**
 Where the stored answers come from. In every interleaving what a completed session or a link holds of ORCID is word for
 word one answer of ORCID, and the options a session holds are those its owner gave to start.
 */
module Provenance {
  import opened Wrappers
  import opened Protocol
  import opened Interleaved
  import opened Exclusivity

  // ---- What comes from outside during a run ----------------------------------------------

  /** ORCID grants these tokens, with all that it says of them. */
  predicate Grants(m: Move, auth: OrcidAuth) {
    m.Act? && m.reply == Granted(Some(auth))
  }

  /** The caller starts the session with these options. */
  predicate Asks(m: Move, sid: SessionId, caller: Username, options: StartOptions) {
    m.Begin? && m.pc == Start(StartCheck(sid, caller, options))
  }

  ghost predicate WasGranted(moves: seq<Move>, auth: OrcidAuth) {
    exists i :: 0 <= i < |moves| && Grants(moves[i], auth)
  }

  ghost predicate WasAsked(moves: seq<Move>, sid: SessionId, caller: Username, options: StartOptions) {
    exists i :: 0 <= i < |moves| && Asks(moves[i], sid, caller, options)
  }

  lemma GrantedOn(past: seq<Move>, m: Move, auth: OrcidAuth)
    ensures WasGranted(past + [m], auth) <==> WasGranted(past, auth) || Grants(m, auth)
  {
    if WasGranted(past, auth) {
      var i :| 0 <= i < |past| && Grants(past[i], auth);
      assert (past + [m])[i] == past[i];
    }
    assert (past + [m])[|past|] == m;
  }

  lemma AskedOn(past: seq<Move>, m: Move, sid: SessionId, caller: Username, options: StartOptions)
    ensures WasAsked(past + [m], sid, caller, options) <==>
            WasAsked(past, sid, caller, options) || Asks(m, sid, caller, options)
  {
    if WasAsked(past, sid, caller, options) {
      var i :| 0 <= i < |past| && Asks(past[i], sid, caller, options);
      assert (past + [m])[i] == past[i];
    }
    assert (past + [m])[|past|] == m;
  }

  // ---- What is stored, and what requests carry on its way there --------------------------

  ghost predicate CompletedGranted(past: seq<Move>, completed: map<ObjectId, Completed>) {
    forall id | id in completed :: WasGranted(past, completed[id].auth)
  }

  ghost predicate LinksGranted(past: seq<Move>, links: map<ObjectId, Link>) {
    forall id | id in links :: WasGranted(past, links[id].auth)
  }

  ghost predicate AskedFor(past: seq<Move>, base: Session, options: StartOptions) {
    WasAsked(past, base.sessionId, base.username, options)
  }

  ghost predicate StartedAsked(past: seq<Move>, started: map<ObjectId, Started>) {
    forall id | id in started :: AskedFor(past, started[id].base, started[id].options)
  }

  ghost predicate CompletedAsked(past: seq<Move>, completed: map<ObjectId, Completed>) {
    forall id | id in completed :: AskedFor(past, completed[id].base, completed[id].options)
  }

  ghost predicate StoreTraced(past: seq<Move>, g: Shared) {
    && CompletedGranted(past, g.completed)
    && LinksGranted(past, g.links)
    && StartedAsked(past, g.started)
    && CompletedAsked(past, g.completed)
  }

  ghost predicate StartTraced(past: seq<Move>, born: Births, pc: StartPc) {
    match pc
    case StartCheck(sid, caller, options) => WasAsked(past, sid, caller, options)
    case StartFind(sid, options) => sid in born && WasAsked(past, sid, born[sid].session.username, options)
    case StartInsert(_, doc) => AskedFor(past, doc.base, doc.options)
    case StartDelete(_) => true
  }

  ghost predicate ContinueTraced(past: seq<Move>, pc: ContinuePc) {
    match pc
    case ContinueLookup(_, auth) => WasGranted(past, auth)
    case ContinueFind(_, auth) => WasGranted(past, auth)
    case ContinueInsert(_, doc) => WasGranted(past, doc.auth) && AskedFor(past, doc.base, doc.options)
    case _ => true
  }

  ghost predicate FinishTraced(past: seq<Move>, pc: FinishPc) {
    match pc
    case FinishStamp(_, session) => WasGranted(past, session.auth)
    case FinishInsert(_, _, link) => WasGranted(past, link.auth)
    case _ => true
  }

  ghost predicate RefreshTraced(past: seq<Move>, pc: RefreshPc) {
    match pc
    case RefreshRestamp(_, auth, _) => WasGranted(past, auth)
    case RefreshSave(link) => WasGranted(past, link.auth)
    case _ => true
  }

  ghost predicate Traced(past: seq<Move>, born: Births, pc: Pc) {
    match pc
    case Start(p) => StartTraced(past, born, p)
    case Continue(p) => ContinueTraced(past, p)
    case Finish(p) => FinishTraced(past, p)
    case Refresh(p) => RefreshTraced(past, p)
    case _ => true
  }

  // ---- Each access keeps track -----------------------------------------------------------

  lemma StoreTracedOn(past: seq<Move>, m: Move, g: Shared)
    requires StoreTraced(past, g)
    ensures StoreTraced(past + [m], g)
  {
    forall auth | WasGranted(past, auth) ensures WasGranted(past + [m], auth) { GrantedOn(past, m, auth); }
    forall sid, caller, options | WasAsked(past, sid, caller, options)
      ensures WasAsked(past + [m], sid, caller, options) {
      AskedOn(past, m, sid, caller, options);
    }
  }

  lemma TracedOn(past: seq<Move>, m: Move, born: Births, pc: Pc)
    requires Traced(past, born, pc)
    ensures Traced(past + [m], born, pc)
  {
    forall auth | WasGranted(past, auth) ensures WasGranted(past + [m], auth) { GrantedOn(past, m, auth); }
    forall sid, caller, options | WasAsked(past, sid, caller, options)
      ensures WasAsked(past + [m], sid, caller, options) {
      AskedOn(past, m, sid, caller, options);
    }
  }

  lemma TracedIsStable(past: seq<Move>, born: Births, later: Births, pc: Pc)
    requires Traced(past, born, pc) && Submap(born, later)
    ensures Traced(past, later, pc)
  {
  }

  /** `past` ends with the answer at hand. */
  ghost predicate Heard(past: seq<Move>, r: Reply) {
    r.Granted? && r.auth.Some? ==> WasGranted(past, r.auth.value)
  }

  ghost predicate KeepsTrack(past: seq<Move>, n: Moment) {
    StoreTraced(past, n.g) && Traced(past, n.g.born, n.pc)
  }

  lemma StartTracedStep(past: seq<Move>, g: Shared, pc: StartPc, r: Reply)
    requires InitialGood(g.born, g.initial) && StoreTraced(past, g)
    requires StartTraced(past, g.born, pc) && StartEnabled(g, pc, r)
    ensures KeepsTrack(past, StartNext(g, pc, r))
  {
    var n := StartNext(g, pc, r);
    assert n.g == g.(initial := n.g.initial, started := n.g.started);
    if pc.StartCheck? || pc.StartFind? {
      if r.doc.Some? { assert IsBorn(g.born, r.doc.value, g.initial[r.doc.value]); }
    }
  }

  lemma ShrinkingTraced(past: seq<Move>, g: Shared, h: Shared)
    requires StoreTraced(past, g) && Submap(h.started, g.started) && Submap(h.completed, g.completed)
    requires Submap(h.links, g.links)
    ensures StoreTraced(past, h)
  {
  }

  lemma ContinueReadTraced(past: seq<Move>, g: Shared, pc: ContinuePc, r: Reply)
    requires StoreTraced(past, g) && ContinueTraced(past, pc) && ContinueEnabled(g, pc, r) && Heard(past, r)
    requires !pc.ContinueReject? && !pc.ContinueInsert? && !pc.ContinueDelete?
    ensures KeepsTrack(past, ContinueNext(g, pc, r))
  {
    var n := ContinueNext(g, pc, r);
    assert n.g == g.(owner := n.g.owner);
  }

  lemma ContinueWriteTraced(past: seq<Move>, g: Shared, pc: ContinuePc, r: Reply)
    requires StoreTraced(past, g) && ContinueTraced(past, pc) && ContinueEnabled(g, pc, r)
    requires pc.ContinueReject? || pc.ContinueInsert? || pc.ContinueDelete?
    ensures KeepsTrack(past, ContinueNext(g, pc, r))
  {
    var n := ContinueNext(g, pc, r);
    if pc.ContinueInsert? {
      assert n.g == if pc.oid in g.completed then g else g.(completed := g.completed[pc.oid := pc.doc]);
    } else {
      assert n.g == g.(started := n.g.started, ended := n.g.ended);
      ShrinkingTraced(past, g, n.g);
    }
  }

  lemma FinishReadTraced(cfg: Config, past: seq<Move>, g: Shared, pc: FinishPc, r: Reply)
    requires StoreTraced(past, g) && FinishTraced(past, pc) && FinishEnabled(g, pc, r)
    requires pc.FinishCheck? || pc.FinishStamp?
    ensures KeepsTrack(past, FinishNext(cfg, g, pc, r))
  {
    var n := FinishNext(cfg, g, pc, r);
    assert n.g == g.(clock := n.g.clock);
  }

  lemma FinishInsertTraced(cfg: Config, past: seq<Move>, g: Shared, pc: FinishPc, r: Reply)
    requires StoreTraced(past, g) && FinishTraced(past, pc) && FinishEnabled(g, pc, r) && pc.FinishInsert?
    ensures KeepsTrack(past, FinishNext(cfg, g, pc, r))
  {
    var n := FinishNext(cfg, g, pc, r);
    if g.uniqueIndex && UsernameTaken(g, pc.link.username) {
      assert n == Moment(g, Done);
    } else {
      var links, origin := g.links[r.newOid := pc.link], g.origin[r.newOid := Origin(pc.sessionId, pc.caller)];
      assert n.g == g.(links := links, origin := origin);
      assert LinksGranted(past, links);
    }
  }

  lemma FinishDeleteTraced(cfg: Config, past: seq<Move>, g: Shared, pc: FinishPc, r: Reply)
    requires StoreTraced(past, g) && FinishEnabled(g, pc, r) && pc.FinishDelete?
    ensures KeepsTrack(past, FinishNext(cfg, g, pc, r))
  {
    var n := FinishNext(cfg, g, pc, r);
    if r.doc.Some? {
      assert n.g == g.(completed := g.completed - {r.doc.value}, ended := n.g.ended);
      ShrinkingTraced(past, g, n.g);
    }
  }

  lemma RefreshTracedStep(cfg: Config, past: seq<Move>, g: Shared, pc: RefreshPc, r: Reply)
    requires StoreTraced(past, g) && RefreshTraced(past, pc) && RefreshEnabled(g, pc, r) && Heard(past, r)
    ensures KeepsTrack(past, RefreshNext(cfg, g, pc, r))
  {
    var n := RefreshNext(cfg, g, pc, r);
    assert n.g == g.(links := n.g.links, owner := n.g.owner, revoked := n.g.revoked, clock := n.g.clock);
  }

  lemma OtherTracedStep(cfg: Config, past: seq<Move>, g: Shared, pc: Pc, r: Reply)
    requires StoreTraced(past, g) && Enabled(g, pc, r) && !pc.Start? && !pc.Continue? && !pc.Finish? && !pc.Refresh?
    ensures KeepsTrack(past, Next(cfg, g, pc, r))
  {
    var n := Next(cfg, g, pc, r);
    if pc.Create? {
      CreateTraced(cfg, past, g, pc.create, r);
    } else {
      AccessShrinks(cfg, g, pc, r);
      ShrinkingTraced(past, g, n.g);
      OthersCarryNothing(cfg, past, g, pc, r);
    }
  }

  lemma CreateTraced(cfg: Config, past: seq<Move>, g: Shared, pc: CreatePc, r: Reply)
    requires StoreTraced(past, g) && CreateEnabled(g, pc, r)
    ensures KeepsTrack(past, CreateNext(cfg, g, pc, r))
  {
    var n := CreateNext(cfg, g, pc, r);
    assert n.g == g.(initial := n.g.initial, born := n.g.born, sessionOf := n.g.sessionOf, clock := n.g.clock);
  }

  lemma OthersCarryNothing(cfg: Config, past: seq<Move>, g: Shared, pc: Pc, r: Reply)
    requires Enabled(g, pc, r) && (pc.Drop? || pc.Manage? || pc.Cleanup? || pc.Unlink?)
    ensures Traced(past, Next(cfg, g, pc, r).g.born, Next(cfg, g, pc, r).pc)
  {
  }

  lemma TracedStep(cfg: Config, past: seq<Move>, g: Shared, pc: Pc, r: Reply)
    requires InitialGood(g.born, g.initial) && StoreTraced(past, g)
    requires Traced(past, g.born, pc) && Enabled(g, pc, r) && Heard(past, r)
    ensures KeepsTrack(past, Next(cfg, g, pc, r))
  {
    match pc {
      case Start(p) => StartTracedStep(past, g, p, r);
      case Continue(p) =>
        if p.ContinueReject? || p.ContinueInsert? || p.ContinueDelete? { ContinueWriteTraced(past, g, p, r); }
        else { ContinueReadTraced(past, g, p, r); }
      case Finish(p) =>
        if p.FinishInsert? { FinishInsertTraced(cfg, past, g, p, r); }
        else if p.FinishDelete? { FinishDeleteTraced(cfg, past, g, p, r); }
        else { FinishReadTraced(cfg, past, g, p, r); }
      case Refresh(p) => RefreshTracedStep(cfg, past, g, p, r);
      case _ => OtherTracedStep(cfg, past, g, pc, r);
    }
  }

  // ---- Whole runs ------------------------------------------------------------------------

  ghost predicate SystemTraced(past: seq<Move>, s: System) {
    StoreTraced(past, s.g) && forall rid | rid in s.requests :: Traced(past, s.g.born, s.requests[rid])
  }

  lemma MoveKeepsTrack(cfg: Config, past: seq<Move>, s: System, m: Move)
    requires SystemGood(cfg, s) && SystemTraced(past, s) && Legal(s, m)
    ensures SystemTraced(past + [m], Take(cfg, s, m))
  {
    var t, now := Take(cfg, s, m), past + [m];
    StoreTracedOn(past, m, s.g);
    if m.Act? {
      TracedOn(past, m, s.g.born, s.requests[m.rid]);
      if m.reply.Granted? && m.reply.auth.Some? { GrantedOn(past, m, m.reply.auth.value); }
      TracedStep(cfg, now, s.g, s.requests[m.rid], m.reply);
      MoveKeeps(cfg, s, m);
    } else if m.pc.Start? {
      AskedOn(past, m, m.pc.start.sessionId, m.pc.start.caller, m.pc.start.options);
    }
    forall rid | rid in t.requests ensures Traced(now, t.g.born, t.requests[rid]) {
      if rid != m.rid {
        TracedOn(past, m, s.g.born, s.requests[rid]);
        TracedIsStable(now, s.g.born, t.g.born, s.requests[rid]);
      }
    }
  }

  lemma {:induction false} RunKeepsTrack(cfg: Config, past: seq<Move>, s: System, moves: seq<Move>)
    requires SystemGood(cfg, s) && SystemTraced(past, s) && Runs(cfg, s, moves)
    ensures SystemTraced(past + moves, After(cfg, s, moves))
    decreases |moves|
  {
    if |moves| > 0 {
      MoveKeeps(cfg, s, moves[0]);
      MoveKeepsTrack(cfg, past, s, moves[0]);
      RunKeepsTrack(cfg, past + [moves[0]], Take(cfg, s, moves[0]), moves[1..]);
      assert past + [moves[0]] + moves[1..] == past + moves;
    } else {
      assert past + moves == past;
    }
  }

  // ---- A token is granted once -----------------------------------------------------------

  lemma GrantIsOwned(cfg: Config, s: System, m: Move, auth: OrcidAuth)
    requires Legal(s, m) && Grants(m, auth)
    ensures auth.accessToken !in s.g.owner && auth.accessToken in Take(cfg, s, m).g.owner
  {
    assert s.requests[m.rid].Continue? || s.requests[m.rid].Refresh?;
  }

  /** Every grant of a run is of a token that had no owner, and then has one. */
  lemma {:induction false} GrantIsNew(cfg: Config, s: System, moves: seq<Move>, i: nat, auth: OrcidAuth)
    requires SystemGood(cfg, s) && Runs(cfg, s, moves) && i < |moves| && Grants(moves[i], auth)
    ensures auth.accessToken !in s.g.owner && auth.accessToken in After(cfg, s, moves).g.owner
    decreases |moves|
  {
    var t := Take(cfg, s, moves[0]);
    MoveKeeps(cfg, s, moves[0]);
    if i > 0 {
      GrantIsNew(cfg, t, moves[1..], i - 1, auth);
    } else {
      GrantIsOwned(cfg, s, moves[0], auth);
      OwnersStay(cfg, t, moves[1..]);
    }
  }

  lemma {:induction false} OwnersStay(cfg: Config, s: System, moves: seq<Move>)
    requires SystemGood(cfg, s) && Runs(cfg, s, moves)
    ensures s.g.owner.Keys <= After(cfg, s, moves).g.owner.Keys
    decreases |moves|
  {
    if |moves| > 0 {
      MoveKeeps(cfg, s, moves[0]);
      OwnersStay(cfg, Take(cfg, s, moves[0]), moves[1..]);
    }
  }

  lemma {:induction false} GrantedOnce(cfg: Config, s: System, moves: seq<Move>, i: nat, j: nat, a: OrcidAuth,
                                       b: OrcidAuth)
    requires SystemGood(cfg, s) && Runs(cfg, s, moves) && i < j < |moves|
    requires Grants(moves[i], a) && Grants(moves[j], b)
    ensures a.accessToken != b.accessToken
    decreases |moves|
  {
    var t := Take(cfg, s, moves[0]);
    MoveKeeps(cfg, s, moves[0]);
    if i > 0 {
      GrantedOnce(cfg, t, moves[1..], i - 1, j - 1, a, b);
    } else {
      GrantIsOwned(cfg, s, moves[0], a);
      GrantIsNew(cfg, t, moves[1..], j - 1, b);
    }
  }

  // ---- The results -----------------------------------------------------------------------

  /** ORCID granted exactly this in the run, and nothing else with this access token. */
  ghost predicate TheGrant(moves: seq<Move>, auth: OrcidAuth) {
    && WasGranted(moves, auth)
    && forall other | WasGranted(moves, other) && other.accessToken == auth.accessToken :: other == auth
  }

  lemma GrantIsTheGrant(cfg: Config, s: System, moves: seq<Move>, auth: OrcidAuth)
    requires SystemGood(cfg, s) && Runs(cfg, s, moves) && WasGranted(moves, auth)
    ensures TheGrant(moves, auth)
  {
    var i :| 0 <= i < |moves| && Grants(moves[i], auth);
    forall other | WasGranted(moves, other) && other.accessToken == auth.accessToken ensures other == auth {
      var j :| 0 <= j < |moves| && Grants(moves[j], other);
      if i < j { GrantedOnce(cfg, s, moves, i, j, auth, other); }
      if j < i { GrantedOnce(cfg, s, moves, j, i, other, auth); }
    }
  }

  /**
   In every interleaving each completed session and each link holds, field for field, the one answer in which ORCID
   granted its access token: no refresh token, scope, name or ORCID id of another grant.
   */
  lemma HeldAsGranted(cfg: Config, uniqueIndex: bool, clock: int, moves: seq<Move>)
    requires Runs(cfg, System(Empty(uniqueIndex, clock), map[]), moves)
    ensures
      var g := After(cfg, System(Empty(uniqueIndex, clock), map[]), moves).g;
      && (forall id | id in g.completed :: TheGrant(moves, g.completed[id].auth))
      && (forall id | id in g.links :: TheGrant(moves, g.links[id].auth))
  {
    var s := System(Empty(uniqueIndex, clock), map[]);
    RunKeepsTrack(cfg, [], s, moves);
    assert [] + moves == moves;
    var g := After(cfg, s, moves).g;
    forall id | id in g.completed ensures TheGrant(moves, g.completed[id].auth) {
      GrantIsTheGrant(cfg, s, moves, g.completed[id].auth);
    }
    forall id | id in g.links ensures TheGrant(moves, g.links[id].auth) {
      GrantIsTheGrant(cfg, s, moves, g.links[id].auth);
    }
  }

  /** In every interleaving the options of a started or completed session are ones its owner gave to a start of it. */
  lemma OptionsAreTheOwners(cfg: Config, uniqueIndex: bool, clock: int, moves: seq<Move>)
    requires Runs(cfg, System(Empty(uniqueIndex, clock), map[]), moves)
    ensures
      var g := After(cfg, System(Empty(uniqueIndex, clock), map[]), moves).g;
      && (forall id | id in g.started ::
            var s := g.started[id]; WasAsked(moves, s.base.sessionId, s.base.username, s.options))
      && (forall id | id in g.completed ::
            var s := g.completed[id]; WasAsked(moves, s.base.sessionId, s.base.username, s.options))
  {
    RunKeepsTrack(cfg, [], System(Empty(uniqueIndex, clock), map[]), moves);
    assert [] + moves == moves;
  }
}
