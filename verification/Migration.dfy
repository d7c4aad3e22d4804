/**
 Database migration, write by write: `Apply` is what Mongo does with one write, `After` a list of them, and a plan the
 writes of one installation or upgrade.
 */
module Migration {
  import opened Wrappers

  type ObjectId = nat
  datatype Version = V021 | V030 | V040 | V041 | OtherVersion(text: string)

  datatype CollectionName = Links | Sessions | InitialSessions | StartedSessions | CompletedSessions | Descriptions

  datatype Field = Username | SessionId

  /** A collection's validator, known by the version of its schema, and whether its indexes are unique. */
  datatype Collection = Collection(validator: Option<Version>, indexes: map<Field, bool>)

  datatype LinkDoc = LinkDoc(
    username: string, createdAt: int, expiresAt: int, retiresAt: Option<int>, orcidAuth: string)

  datatype Description = Description(version: Version, migrated: bool)

  datatype Db = Db(
    collections: map<CollectionName, Collection>, links: map<ObjectId, LinkDoc>, descriptions: seq<Description>)

  const EMPTY := Db(map[], map[], [])

  datatype Error = NamespaceNotFound | CollectionExists | IndexConflict | DuplicateKey | NoDescription

  datatype Write =
    | CollMod(name: CollectionName, version: Version)
    | Drop(name: CollectionName)
    | CreateCollection(name: CollectionName, version: Version)
    | CreateIndex(name: CollectionName, field: Field, unique: bool)
    | ReplaceLink(id: ObjectId, doc: LinkDoc)
    | InsertDescription(description: Description)
    | SetVersion(version: Version)

  predicate UsernamesDiffer(links: map<ObjectId, LinkDoc>) {
    forall a, b | a in links && b in links && links[a].username == links[b].username :: a == b
  }

  /** Creating an index or inserting a document creates a missing collection, without a validator. */
  function Present(db: Db, name: CollectionName): Collection {
    if name in db.collections then db.collections[name] else Collection(None, map[])
  }

  function Apply(db: Db, w: Write): Result<Db, Error> {
    match w
    case CollMod(name, version) =>
      if name !in db.collections then Err(NamespaceNotFound)
      else Ok(db.(collections := db.collections[name := db.collections[name].(validator := Some(version))]))
    case Drop(name) =>
      Ok(Db(db.collections - {name}, if name == Links then map[] else db.links,
            if name == Descriptions then [] else db.descriptions))
    case CreateCollection(name, version) =>
      if name in db.collections then Err(CollectionExists)
      else Ok(db.(collections := db.collections[name := Collection(Some(version), map[])]))
    case CreateIndex(name, field, unique) =>
      var c := Present(db, name);
      if field in c.indexes && c.indexes[field] != unique then Err(IndexConflict)
      else if unique && name == Links && field == Username && !UsernamesDiffer(db.links) then Err(DuplicateKey)
      else Ok(db.(collections := db.collections[name := c.(indexes := c.indexes[field := unique])]))
    case ReplaceLink(id, doc) =>
      Ok(if id in db.links then db.(links := db.links[id := doc]) else db)
    case InsertDescription(description) =>
      Ok(db.(collections := db.collections[Descriptions := Present(db, Descriptions)],
             descriptions := db.descriptions + [description]))
    case SetVersion(version) =>
      if db.descriptions == [] then Err(NoDescription)
      else Ok(db.(descriptions := db.descriptions[0 := Description(version, true)]))
  }

  function After(db: Db, ws: seq<Write>): Result<Db, Error> {
    if ws == [] then Ok(db)
    else
      match After(db, ws[..|ws| - 1])
      case Err(e) => Err(e)
      case Ok(d) => Apply(d, ws[|ws| - 1])
  }

  /** The first k writes of a plan lead from one database to the other; the run may have been cut off there. */
  ghost predicate Reaches(g: Db, plan: seq<Write>, k: nat, h: Db) {
    k <= |plan| && After(g, plan[..k]) == Ok(h)
  }

  /** The plan runs to its end, or to its first write that fails. */
  ghost predicate Ends(g: Db, plan: seq<Write>, k: nat, h: Db) {
    Reaches(g, plan, k, h) && (k < |plan| ==> Apply(h, plan[k]).Err?)
  }

  lemma {:induction false} AfterAppend(db: Db, a: seq<Write>, b: seq<Write>)
    requires After(db, a).Ok?
    ensures After(db, a + b) == After(After(db, a).value, b)
  {
    if b == [] {
      assert a + b == a;
    } else {
      AfterAppend(db, a, b[..|b| - 1]);
      assert (a + b)[..|a + b| - 1] == a + b[..|b| - 1];
    }
  }

  lemma JournalEnds(base: Db, first: seq<Write>, g: Db, plan: seq<Write>, k: nat, h: Db)
    requires After(base, first) == Ok(g) && k <= |plan| && After(base, first + plan[..k]) == Ok(h)
    requires k < |plan| ==> Apply(h, plan[k]).Err?
    ensures Ends(g, plan, k, h)
  {
    AfterAppend(base, first, plan[..k]);
  }

  // ---- The plans -------------------------------------------------------------------------

  function Patched(link: LinkDoc, age: int): LinkDoc {
    link.(retiresAt := Some(link.createdAt + age * 1000))
  }

  predicate IsOrder(order: seq<ObjectId>, keys: set<ObjectId>) {
    (forall i | 0 <= i < |order| :: order[i] in keys) && forall id | id in keys :: id in order
  }

  ghost function AnyOrder(keys: set<ObjectId>): (order: seq<ObjectId>)
    ensures IsOrder(order, keys)
  {
    if keys == {} then []
    else
      var id :| id in keys;
      var rest := AnyOrder(keys - {id});
      assert forall i | i in keys :: i in [id] + rest by {
        forall i | i in keys ensures i in [id] + rest { assert i != id ==> i in keys - {id}; }
      }
      [id] + rest
  }

  function Replaces(links: map<ObjectId, LinkDoc>, age: int, order: seq<ObjectId>): (ws: seq<Write>)
    requires forall i | 0 <= i < |order| :: order[i] in links
    ensures |ws| == |order|
  {
    seq(|order|, i requires 0 <= i < |order| => ReplaceLink(order[i], Patched(links[order[i]], age)))
  }

  function Initialize021(): seq<Write> {
    [CreateIndex(Sessions, SessionId, false), CreateIndex(Links, Username, false),
     InsertDescription(Description(V021, true))]
  }

  /** initialize_v030 and initialize_v040 */
  function Initialize(v: Version): seq<Write> {
    [CreateCollection(InitialSessions, v), CreateCollection(StartedSessions, v), CreateCollection(CompletedSessions, v),
     CreateCollection(Links, v), CreateIndex(Links, Username, true), CreateCollection(Descriptions, v),
     InsertDescription(Description(v, true))]
  }

  function Upgrade021(): seq<Write> {
    [CollMod(Links, V030), Drop(Sessions),
     CreateCollection(InitialSessions, V030), CreateCollection(StartedSessions, V030),
     CreateCollection(CompletedSessions, V030), SetVersion(V030)]
  }

  function SessionMods(): seq<Write> {
    [CollMod(InitialSessions, V040), CollMod(StartedSessions, V040), CollMod(CompletedSessions, V040), SetVersion(V040)]
  }

  function Upgrade030(links: map<ObjectId, LinkDoc>, age: int, order: seq<ObjectId>): seq<Write>
    requires forall i | 0 <= i < |order| :: order[i] in links
  {
    [CollMod(Links, V040)] + Replaces(links, age, order) + SessionMods()
  }

  function Upgrade040(): seq<Write> {
    [SetVersion(V041)]
  }

  datatype Decision =
    | Unsupported | NotRequired | Fresh021 | Fresh(version: Version) | Fresh041 | From021 | From030 | From040

  /** The service's version against the one recorded in the database. */
  function Decide(service: Version, recorded: Option<Version>): Decision {
    if service == V021 then if recorded.None? then Fresh021 else Unsupported
    else if service.OtherVersion? then Unsupported
    else if recorded.None? then if service == V041 then Fresh041 else Fresh(service)
    else if recorded.value == service then NotRequired
    else if service == V030 && recorded.value == V021 then From021
    else if service == V040 && recorded.value == V030 then From030
    else if service == V041 && recorded.value == V040 then From040
    else Unsupported
  }

  function Recorded(db: Db): Option<Version> {
    if db.descriptions == [] then None else Some(db.descriptions[0].version)
  }

  function PlanOf(decision: Decision, links: map<ObjectId, LinkDoc>, age: int, order: seq<ObjectId>): seq<Write>
    requires IsOrder(order, links.Keys)
  {
    match decision
    case Unsupported => []
    case NotRequired => []
    case Fresh021 => Initialize021()
    case Fresh(v) => Initialize(v)
    case Fresh041 => Initialize(V040) + Upgrade040()
    case From021 => Upgrade021()
    case From030 => Upgrade030(links, age, order)
    case From040 => Upgrade040()
  }

  function PlanFor(service: Version, db: Db, age: int, order: seq<ObjectId>): seq<Write>
    requires IsOrder(order, db.links.Keys)
  {
    PlanOf(Decide(service, Recorded(db)), db.links, age, order)
  }

  // ---- The answer ------------------------------------------------------------------------

  datatype Answer = Completed | MigrationNotRequired | MigrationError

  function AnswerTo(service: Version, db: Db, age: int, order: seq<ObjectId>, k: nat): Answer
    requires IsOrder(order, db.links.Keys)
  {
    match Decide(service, Recorded(db))
    case Unsupported => MigrationError
    case NotRequired => MigrationNotRequired
    case _ => if k == |PlanFor(service, db, age, order)| then Completed else MigrationError
  }
}
