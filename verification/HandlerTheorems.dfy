/** A handler's run is a run of the protocol, so it keeps what the protocol keeps. */
module HandlerTheorems {
  import opened Protocol
  import opened Serial
  import opened LinkService
  import opened OneAtATime

  /** No reply cuts a cleanup short. */
  ghost predicate NoneCutsShort(cfg: Config, m: Moment, replies: seq<Reply>)
    requires Answers(cfg, m, replies)
    decreases |replies|
  {
    |replies| == 0 ||
    (!CutsShort(m.pc, replies[0]) && NoneCutsShort(cfg, Next(cfg, m.g, m.pc, replies[0]), replies[1..]))
  }

  lemma {:induction false} AnswersKeepAlone(cfg: Config, m: Moment, replies: seq<Reply>)
    requires SerialInvariant(cfg, m) && Answers(cfg, m, replies)
    requires NoneCutsShort(cfg, m, replies)
    ensures SerialInvariant(cfg, AfterAnswers(cfg, m, replies))
    decreases |replies|
  {
    if |replies| > 0 {
      var n := Next(cfg, m.g, m.pc, replies[0]);
      AnswerKeeps(cfg, m, replies[0]);
      AnswersKeepAlone(cfg, n, replies[1..]);
    }
  }

  /**
   On a database with the unique index, a handler that begins with the store at rest leaves it at rest: each session in
   one collection, each token with one holder, no holder's token revoked. A cleanup does so unless it is cut short.
   */
  lemma HandlerKeepsRest(cfg: Config, g: Shared, pc: Pc, replies: seq<Reply>, h: Shared)
    requires SerialInvariant(cfg, Moment(g, Done)) && Fresh(pc) && Performs(cfg, g, pc, replies, h)
    requires NoneCutsShort(cfg, Moment(g, pc), replies)
    ensures SerialInvariant(cfg, Moment(h, Done)) && AtRest(h)
  {
    OpenKeeps(cfg, Moment(g, Done), pc);
    AnswersKeepAlone(cfg, Moment(g, pc), replies);
  }

  lemma {:induction false} AnswersKeepOrderly(cfg: Config, m: Moment, replies: seq<Reply>)
    requires Orderly(cfg, m) && Answers(cfg, m, replies)
    ensures Orderly(cfg, AfterAnswers(cfg, m, replies))
    decreases |replies|
  {
    if |replies| > 0 {
      AnswerOrderly(cfg, m, replies[0]);
      AnswersKeepOrderly(cfg, Next(cfg, m.g, m.pc, replies[0]), replies[1..]);
    }
  }

  /** Index or not, however it ends, a handler leaves a session in one collection and a token with one holder. */
  lemma HandlerKeepsOrder(cfg: Config, g: Shared, pc: Pc, replies: seq<Reply>, h: Shared)
    requires Orderly(cfg, Moment(g, Done)) && Fresh(pc) && Performs(cfg, g, pc, replies, h)
    ensures Orderly(cfg, Moment(h, Done)) && Exclusive(h) && SingleHolders(h.completed, h.links)
  {
    OpenOrderly(cfg, Moment(g, Done), pc);
    AnswersKeepOrderly(cfg, Moment(g, pc), replies);
    DoneIsExclusive(cfg, Moment(h, Done));
  }
}
