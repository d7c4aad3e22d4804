/** How many links there can be: one per user exactly with the unique index, and when one per ORCID id. */
module LinkUniqueness {
  import opened Protocol
  import opened Interleaved
  import opened Serial
  import opened Exclusivity
  import opened ProtocolTheorems
  import opened Scenarios

  // ---- One link per user -----------------------------------------------------------------

  ghost predicate OnePerUser(cfg: Config, uniqueIndex: bool, clock: int, moves: seq<Move>)
    requires Runs(cfg, System(Empty(uniqueIndex, clock), map[]), moves)
  {
    UsernamesUnique(After(cfg, System(Empty(uniqueIndex, clock), map[]), moves).g.links)
  }

  /** A user never has two links, in any interleaving, exactly when the database has the unique index. */
  lemma OneLinkPerUserIff(cfg: Config, uniqueIndex: bool, clock: int)
    ensures (forall moves | Runs(cfg, System(Empty(uniqueIndex, clock), map[]), moves) ::
               OnePerUser(cfg, uniqueIndex, clock, moves)) <==> uniqueIndex
  {
    if uniqueIndex {
      forall moves | Runs(cfg, System(Empty(uniqueIndex, clock), map[]), moves)
        ensures OnePerUser(cfg, uniqueIndex, clock, moves) {
        LinksAreTheirUsers(cfg, uniqueIndex, clock, moves);
      }
    } else {
      var auth1 := OrcidAuth("first", "bearer", "", 0, "", "", "one");
      var auth2 := OrcidAuth("second", "bearer", "", 0, "", "", "two");
      var moves, h, a := TwoLinks(cfg, Empty(false, clock), "user", auth1, "user", auth2);
      var out := FromTheStart(cfg, Empty(false, clock), moves);
      assert !OnePerUser(cfg, false, clock, out);
    }
  }

  // ---- One link per ORCID id -------------------------------------------------------------

  ghost predicate OrcidsUnique(links: map<ObjectId, Link>) {
    forall a, b | a in links && b in links && links[a].auth.orcid == links[b].auth.orcid :: a == b
  }

  ghost predicate LinkedBeside(links: map<ObjectId, Link>, orcid: string, except: set<ObjectId>) {
    exists id :: id in links && id !in except && links[id].auth.orcid == orcid
  }

  /**
   The guard the service omits: finish stores a link, or a refresh saves one, whose ORCID id another link has. Continue
   looks for the ORCID id, but nothing does at the write.
   */
  ghost predicate LinksAgain(g: Shared, pc: Pc, r: Reply) {
    match pc
    case Finish(FinishInsert(_, _, link)) =>
      !(g.uniqueIndex && UsernameTaken(g, link.username)) && LinkedBeside(g.links, link.auth.orcid, {})
    case Refresh(RefreshSave(link)) =>
      r.Found? && r.doc.Some? && LinkedBeside(g.links, link.auth.orcid, {r.doc.value})
    case _ => false
  }

  lemma InsertOrcidIff(links: map<ObjectId, Link>, oid: ObjectId, link: Link)
    requires OrcidsUnique(links) && oid !in links
    ensures OrcidsUnique(links[oid := link]) <==> !LinkedBeside(links, link.auth.orcid, {})
  {
    var after := links[oid := link];
    if LinkedBeside(links, link.auth.orcid, {}) {
      var id :| id in links && links[id].auth.orcid == link.auth.orcid;
      assert after[id].auth.orcid == after[oid].auth.orcid && id != oid;
    }
  }

  lemma SaveOrcidIff(links: map<ObjectId, Link>, oid: ObjectId, link: Link)
    requires OrcidsUnique(links) && oid in links
    ensures OrcidsUnique(links[oid := link]) <==> !LinkedBeside(links, link.auth.orcid, {oid})
  {
    var after := links[oid := link];
    if LinkedBeside(links, link.auth.orcid, {oid}) {
      var id :| id in links && id !in {oid} && links[id].auth.orcid == link.auth.orcid;
      assert after[id].auth.orcid == after[oid].auth.orcid && id != oid;
    }
  }

  lemma AddsNoLink(cfg: Config, g: Shared, pc: Pc, r: Reply)
    requires Enabled(g, pc, r) && Adds(pc)
    ensures Next(cfg, g, pc, r).g.links == g.links
  {
  }

  lemma FinishOrcidIff(cfg: Config, g: Shared, pc: FinishPc, r: Reply)
    requires OrcidsUnique(g.links) && FinishEnabled(g, pc, r)
    ensures OrcidsUnique(FinishNext(cfg, g, pc, r).g.links) <==> !LinksAgain(g, Finish(pc), r)
  {
    if pc.FinishInsert? { InsertOrcidIff(g.links, r.newOid, pc.link); }
  }

  lemma RefreshOrcidIff(cfg: Config, g: Shared, pc: RefreshPc, r: Reply)
    requires OrcidsUnique(g.links) && RefreshEnabled(g, pc, r)
    ensures OrcidsUnique(RefreshNext(cfg, g, pc, r).g.links) <==> !LinksAgain(g, Refresh(pc), r)
  {
    if pc.RefreshSave? && r.doc.Some? { SaveOrcidIff(g.links, r.doc.value, pc.link); }
  }

  lemma OtherLinks(cfg: Config, g: Shared, pc: Pc, r: Reply)
    requires Enabled(g, pc, r) && !pc.Finish? && !pc.Refresh?
    ensures Submap(Next(cfg, g, pc, r).g.links, g.links)
  {
    if Adds(pc) { AddsNoLink(cfg, g, pc, r); } else { AccessShrinks(cfg, g, pc, r); }
  }

  /** An access keeps ORCID ids unique exactly when it does not write a link whose ORCID id another link has. */
  lemma OrcidAccessIff(cfg: Config, g: Shared, pc: Pc, r: Reply)
    requires OrcidsUnique(g.links) && Enabled(g, pc, r)
    ensures OrcidsUnique(Next(cfg, g, pc, r).g.links) <==> !LinksAgain(g, pc, r)
  {
    match pc {
      case Finish(p) => FinishOrcidIff(cfg, g, p, r);
      case Refresh(p) => RefreshOrcidIff(cfg, g, p, r);
      case _ => OtherLinks(cfg, g, pc, r);
    }
  }

  ghost predicate MoveLinksAgain(s: System, m: Move) {
    m.Act? && m.rid in s.requests && LinksAgain(s.g, s.requests[m.rid], m.reply)
  }

  ghost predicate NoneLinksAgain(cfg: Config, s: System, moves: seq<Move>)
    requires Runs(cfg, s, moves)
    decreases |moves|
  {
    |moves| == 0 || (!MoveLinksAgain(s, moves[0]) && NoneLinksAgain(cfg, Take(cfg, s, moves[0]), moves[1..]))
  }

  ghost predicate OrcidsUniqueThroughout(cfg: Config, s: System, moves: seq<Move>)
    requires Runs(cfg, s, moves)
    decreases |moves|
  {
    OrcidsUnique(s.g.links) && (|moves| == 0 || OrcidsUniqueThroughout(cfg, Take(cfg, s, moves[0]), moves[1..]))
  }

  lemma {:induction false} RunOrcidIff(cfg: Config, s: System, moves: seq<Move>)
    requires OrcidsUnique(s.g.links) && Runs(cfg, s, moves)
    ensures OrcidsUniqueThroughout(cfg, s, moves) <==> NoneLinksAgain(cfg, s, moves)
    decreases |moves|
  {
    if |moves| > 0 {
      var t := Take(cfg, s, moves[0]);
      if moves[0].Act? { OrcidAccessIff(cfg, s.g, s.requests[moves[0].rid], moves[0].reply); }
      if OrcidsUnique(t.g.links) { RunOrcidIff(cfg, t, moves[1..]); }
    }
  }

  /** In every interleaving ORCID ids stay unique throughout exactly when no access writes one already linked. */
  lemma OneLinkPerOrcidIff(cfg: Config, uniqueIndex: bool, clock: int, moves: seq<Move>)
    requires Runs(cfg, System(Empty(uniqueIndex, clock), map[]), moves)
    ensures OrcidsUniqueThroughout(cfg, System(Empty(uniqueIndex, clock), map[]), moves) <==>
            NoneLinksAgain(cfg, System(Empty(uniqueIndex, clock), map[]), moves)
  {
    RunOrcidIff(cfg, System(Empty(uniqueIndex, clock), map[]), moves);
  }

  ghost predicate SharesOrcid(links: map<ObjectId, Link>, user1: Username, user2: Username) {
    exists a, b ::
      && a in links && b in links && links[a].auth.orcid == links[b].auth.orcid
      && links[a].username == user1 && links[b].username == user2
  }

  /** Two users can link one ORCID id, index or not, and even with requests one at a time. */
  lemma OrcidLinkedTwice(cfg: Config, uniqueIndex: bool, clock: int, user1: Username, user2: Username,
                         auth1: OrcidAuth, auth2: OrcidAuth)
    returns (moves: seq<SerialMove>)
    requires user1 != user2 && auth1.accessToken != auth2.accessToken && auth1.orcid == auth2.orcid
    ensures SerialRuns(cfg, Moment(Empty(uniqueIndex, clock), Done), moves)
    ensures var m := SerialAfter(cfg, Moment(Empty(uniqueIndex, clock), Done), moves);
            m.pc.Done? && SharesOrcid(m.g.links, user1, user2)
  {
    var h, a;
    moves, h, a := TwoLinks(cfg, Empty(uniqueIndex, clock), user1, auth1, user2, auth2);
    assert h.links[a].username == user1 && h.links[a + 1].username == user2;
  }
}
