/**
 The migration as it runs. Every method of `Database` adds the writes that went through to its journal, so that what it
 did can be compared with a plan.
 */
module MigrationService {
  import opened Wrappers
  import opened Migration
  import opened MigrationTheorems

  class Database {
    var collections: map<CollectionName, Collection>
    var links: map<ObjectId, LinkDoc>
    var descriptions: seq<Description>
    ghost const base: Db
    ghost var journal: seq<Write>   // every write that went through, oldest first

    constructor (db: Db)
      ensures Valid() && View() == db && journal == []
    {
      collections, links, descriptions := db.collections, db.links, db.descriptions;
      base, journal := db, [];
    }

    ghost function View(): Db
      reads this
    {
      Db(collections, links, descriptions)
    }

    /** The journal explains the database. (Said of any equal list, so that only a proof that names it unfolds it.) */
    ghost predicate Valid()
      reads this
    {
      forall ws | ws == journal :: After(base, ws) == Ok(View())
    }

    ghost function Now(): (g: Db)
      requires Valid()
      reads this
      ensures After(base, journal) == Ok(g) && g == View()
    {
      View()
    }

    ghost method Record(g: Db, w: Write)
      requires After(base, journal) == Ok(g) && Apply(g, w) == Ok(View())
      modifies this`journal
      ensures Valid() && journal == old(journal) + [w]
    {
      assert (journal + [w])[..|journal|] == journal;
      journal := journal + [w];
    }

    method RunCollMod(name: CollectionName, version: Version) returns (ok: bool)
      requires Valid()
      modifies this`collections, this`journal
      ensures Valid() && links == old(links) && descriptions == old(descriptions)
      ensures journal == if ok then old(journal) + [CollMod(name, version)] else old(journal)
      ensures !ok ==> Apply(View(), CollMod(name, version)).Err?
    {
      ghost var g := Now();
      if name !in collections { return false; }
      collections := collections[name := collections[name].(validator := Some(version))];
      Record(g, CollMod(name, version));
      ok := true;
    }

    method RunDrop(name: CollectionName)
      requires Valid()
      modifies this
      ensures Valid() && journal == old(journal) + [Drop(name)]
      ensures name != Descriptions ==> descriptions == old(descriptions)
    {
      ghost var g := Now();
      collections := collections - {name};
      if name == Links { links := map[]; }
      if name == Descriptions { descriptions := []; }
      Record(g, Drop(name));
    }

    method RunCreateCollection(name: CollectionName, version: Version) returns (ok: bool)
      requires Valid()
      modifies this`collections, this`journal
      ensures Valid() && links == old(links) && descriptions == old(descriptions)
      ensures journal == if ok then old(journal) + [CreateCollection(name, version)] else old(journal)
      ensures !ok ==> Apply(View(), CreateCollection(name, version)).Err?
    {
      ghost var g := Now();
      if name in collections { return false; }
      collections := collections[name := Collection(Some(version), map[])];
      Record(g, CreateCollection(name, version));
      ok := true;
    }

    method RunCreateIndex(name: CollectionName, field: Field, unique: bool) returns (ok: bool)
      requires Valid()
      modifies this`collections, this`journal
      ensures Valid() && links == old(links) && descriptions == old(descriptions)
      ensures journal == if ok then old(journal) + [CreateIndex(name, field, unique)] else old(journal)
      ensures !ok ==> Apply(View(), CreateIndex(name, field, unique)).Err?
    {
      ghost var g := Now();
      var c := if name in collections then collections[name] else Collection(None, map[]);
      if field in c.indexes && c.indexes[field] != unique { return false; }
      if unique && name == Links && field == Username && !UsernamesDiffer(links) { return false; }
      collections := collections[name := c.(indexes := c.indexes[field := unique])];
      Record(g, CreateIndex(name, field, unique));
      ok := true;
    }

    method RunReplaceLink(id: ObjectId, doc: LinkDoc)
      requires Valid()
      modifies this`links, this`journal
      ensures Valid() && journal == old(journal) + [ReplaceLink(id, doc)]
      ensures links == if id in old(links) then old(links)[id := doc] else old(links)
    {
      ghost var g := Now();
      if id in links { links := links[id := doc]; }
      Record(g, ReplaceLink(id, doc));
    }

    method RunInsertDescription(description: Description)
      requires Valid()
      modifies this`collections, this`descriptions, this`journal
      ensures Valid() && journal == old(journal) + [InsertDescription(description)]
      ensures descriptions == old(descriptions) + [description]
    {
      ghost var g := Now();
      var c := if Descriptions in collections then collections[Descriptions] else Collection(None, map[]);
      collections := collections[Descriptions := c];
      descriptions := descriptions + [description];
      Record(g, InsertDescription(description));
    }

    /** The recorded version is written last; without a description document the migration raises. */
    method RunSetVersion(version: Version) returns (ok: bool)
      requires Valid()
      modifies this`descriptions, this`journal
      ensures Valid()
      ensures journal == if ok then old(journal) + [SetVersion(version)] else old(journal)
      ensures !ok ==> Apply(View(), SetVersion(version)).Err?
    {
      ghost var g := Now();
      if descriptions == [] { return false; }
      descriptions := descriptions[0 := Description(version, true)];
      Record(g, SetVersion(version));
      ok := true;
    }

    /** All of the plan went through, or all before the first write that fails. */
    twostate predicate Ran(plan: seq<Write>, k: nat)
      reads this
    {
      && Valid() && k <= |plan| && journal == old(journal) + plan[..k]
      && (k < |plan| ==> Apply(View(), plan[k]).Err?)
    }

    method InitializeV021() returns (ok: bool, ghost k: nat)
      requires Valid()
      modifies this
      ensures Ran(Initialize021(), k) && (ok <==> k == |Initialize021()|)
    {
      k := 0;
      ok := RunCreateIndex(Sessions, SessionId, false);
      if !ok { return; }
      k := 1;
      ok := RunCreateIndex(Links, Username, false);
      if !ok { return; }
      RunInsertDescription(Description(V021, true));
      k := 3;
    }

    /** initialize_v030 and initialize_v040 differ only in the version. */
    method InitializeV(v: Version) returns (ok: bool, ghost k: nat)
      requires Valid()
      modifies this
      ensures Ran(Initialize(v), k) && (ok <==> k == |Initialize(v)|)
    {
      k := 0;
      ok := RunCreateCollection(InitialSessions, v);
      if !ok { return; }
      k := 1;
      assert journal == old(journal) + Initialize(v)[..1];
      ok := RunCreateCollection(StartedSessions, v);
      if !ok { return; }
      k := 2;
      assert journal == old(journal) + Initialize(v)[..2];
      ok := RunCreateCollection(CompletedSessions, v);
      if !ok { return; }
      k := 3;
      assert journal == old(journal) + Initialize(v)[..3];
      ok := RunCreateCollection(Links, v);
      if !ok { return; }
      k := 4;
      assert journal == old(journal) + Initialize(v)[..4];
      ok := RunCreateIndex(Links, Username, true);
      if !ok { return; }
      k := 5;
      assert journal == old(journal) + Initialize(v)[..5];
      ok := RunCreateCollection(Descriptions, v);
      if !ok { return; }
      RunInsertDescription(Description(v, true));
      k := 7;
    }

    method MigrateV021ToV030() returns (ok: bool, ghost k: nat)
      requires Valid()
      modifies this
      ensures Ran(Upgrade021(), k) && (ok <==> k == |Upgrade021()|)
    {
      k := 0;
      ok := RunCollMod(Links, V030);
      if !ok { return; }
      RunDrop(Sessions);
      k := 2;
      ok := RunCreateCollection(InitialSessions, V030);
      if !ok { return; }
      k := 3;
      ok := RunCreateCollection(StartedSessions, V030);
      if !ok { return; }
      k := 4;
      ok := RunCreateCollection(CompletedSessions, V030);
      if !ok { return; }
      k := 5;
      ok := RunSetVersion(V030);
      if ok { k := 6; }
    }

    /** Gives every link a retirement date, in the order the cursor yields them. */
    method PatchLinks(age: int) returns (ghost order: seq<ObjectId>)
      requires Valid()
      modifies this`links, this`journal
      ensures Valid() && IsOrder(order, old(links).Keys)
      ensures journal == old(journal) + Replaces(old(links), age, order)
      ensures links == map id | id in old(links) :: Patched(old(links)[id], age)
    {
      var rest := links.Keys;
      order := [];
      while rest != {}
        invariant Valid() && rest <= links.Keys == old(links).Keys
        invariant forall i | 0 <= i < |order| :: order[i] in old(links)
        invariant forall id | id in links :: id in rest || id in order
        invariant forall id | id in links ::
          links[id] == if id in rest then old(links)[id] else Patched(old(links)[id], age)
        invariant journal == old(journal) + Replaces(old(links), age, order)
        decreases rest
      {
        var id :| id in rest;
        var link := links[id];
        link := link.(retiresAt := Some(link.createdAt + age * 1000));
        RunReplaceLink(id, link);
        rest := rest - {id};
        assert Replaces(old(links), age, order + [id]) == Replaces(old(links), age, order) + [ReplaceLink(id, link)];
        order := order + [id];
      }
    }

    method ModSessions() returns (ok: bool, ghost k: nat)
      requires Valid()
      modifies this
      ensures Ran(SessionMods(), k) && (ok <==> k == |SessionMods()|)
    {
      k := 0;
      ok := RunCollMod(InitialSessions, V040);
      if !ok { return; }
      k := 1;
      ok := RunCollMod(StartedSessions, V040);
      if !ok { return; }
      k := 2;
      ok := RunCollMod(CompletedSessions, V040);
      if !ok { return; }
      k := 3;
      ok := RunSetVersion(V040);
      if ok { k := 4; }
    }

    method MigrateV030ToV040(age: int) returns (ok: bool, ghost order: seq<ObjectId>, ghost k: nat)
      requires Valid()
      modifies this
      ensures IsOrder(order, old(links).Keys)
      ensures Ran(Upgrade030(old(links), age, order), k) && (ok <==> k == |Upgrade030(old(links), age, order)|)
    {
      k, order := 0, AnyOrder(links.Keys);
      ok := RunCollMod(Links, V040);
      if !ok { return; }
      order := PatchLinks(age);
      ghost var j;
      ok, j := ModSessions();
      k := 1 + |order| + j;
      ghost var plan := Upgrade030(old(links), age, order);
      assert plan[..k] == [CollMod(Links, V040)] + Replaces(old(links), age, order) + SessionMods()[..j];
    }

    method MigrateV040ToV041() returns (ok: bool, ghost k: nat)
      requires Valid()
      modifies this
      ensures Ran(Upgrade040(), k) && (ok <==> k == |Upgrade040()|)
    {
      ok := RunSetVersion(V041);
      k := if ok then 1 else 0;
    }

    /** initialize_v040, then migrate_v040_to_v041 */
    method InitializeV041() returns (ok: bool, ghost k: nat)
      requires Valid()
      modifies this
      ensures Ran(Initialize(V040) + Upgrade040(), k) && (ok <==> k == |Initialize(V040) + Upgrade040()|)
    {
      ok, k := InitializeV(V040);
      if !ok { return; }
      ghost var j;
      ok, j := MigrateV040ToV041();
      k := k + j;
      assert (Initialize(V040) + Upgrade040())[..k] == Initialize(V040) + Upgrade040()[..j];
    }

    /** The branch of migrate_db that a decision leads to. */
    method Perform(decision: Decision, age: int) returns (ok: bool, ghost order: seq<ObjectId>, ghost k: nat)
      requires Valid()
      modifies this
      ensures IsOrder(order, old(links).Keys)
      ensures Ran(PlanOf(decision, old(links), age, order), k)
      ensures ok <==> k == |PlanOf(decision, old(links), age, order)|
    {
      order, k, ok := AnyOrder(links.Keys), 0, true;
      match decision {
        case Unsupported =>
        case NotRequired =>
        case Fresh021 => ok, k := InitializeV021();
        case Fresh(v) => ok, k := InitializeV(v);
        case Fresh041 => ok, k := InitializeV041();
        case From021 => ok, k := MigrateV021ToV030();
        case From030 => ok, order, k := MigrateV030ToV040(age);
        case From040 => ok, k := MigrateV040ToV041();
      }
    }

    method MigrateDb(service: Version, age: int) returns (answer: Answer, ghost order: seq<ObjectId>, ghost k: nat)
      requires Valid()
      modifies this
      ensures Valid() && IsOrder(order, old(links).Keys)
      ensures Ends(old(View()), PlanFor(service, old(View()), age, order), k, View())
      ensures answer == MigrationNotRequired <==>
              service in {V030, V040, V041} && old(descriptions) != [] && old(descriptions)[0].version == service
      ensures answer == MigrationNotRequired ==> View() == old(View())
      ensures answer == Completed <==>
              && IsSupported(service, Recorded(old(View()))) && Recorded(old(View())) != Some(service)
              && IsReadyFor(service, old(View()))
      ensures answer == Completed ==> descriptions != [] && descriptions[0].version == service
      ensures answer == Completed && service != V021 && NotAhead(old(View())) ==> IsAt(View(), service)
      ensures !IsSupported(service, Recorded(old(View()))) ==> View() == old(View())
    {
      var decision := Decide(service, if descriptions == [] then None else Some(descriptions[0].version));
      ghost var g, first := Now(), journal;
      var ok;
      ok, order, k := Perform(decision, age);
      JournalEnds(base, first, g, PlanOf(decision, old(links), age, order), k, Now());
      AnswerIff(service, g, age, order, k, View());
      answer := if decision.Unsupported? then MigrationError
                else if decision.NotRequired? then MigrationNotRequired
                else if ok then Completed
                else MigrationError;
    }
  }
}
